/** The playback state machine: the current track, the paused flag and the
    playlist, changed in place by the transport operations, by one step of
    the playback monitor and by one command of the input loop. Every call
    made on the audio engine is appended to the ghost field `log`. */
module Player {
  import opened Wrappers
  import Mixer
  import Playlist
  import Commands

  /** How a track selection by number ends. */
  datatype SelectOutcome = Selected | InvalidNumber | NotANumber

  /** The playlist slot `play(index)` loads: the current one when no index
      is given, otherwise the index, with Python's counting from the end
      for a negative one. */
  function ResolveIndex(index: Option<int>, current: int, n: int): (k: int)
    requires 0 <= current < n
    requires index.Some? ==> -n <= index.value < n
    ensures 0 <= k < n
    ensures index.None? ==> k == current
    ensures index.Some? ==> k == index.value || k == index.value + n
  {
    match index
    case None => current
    case Some(i) => if i < 0 then i + n else i
  }

  /** The number of polls in which the engine reported it was not busy. */
  function IdlePolls(busy: seq<bool>): (count: nat)
    ensures count == 0 <==> forall k :: 0 <= k < |busy| ==> busy[k]
  {
    if busy == [] then 0
    else IdlePolls(busy[..|busy| - 1]) + if busy[|busy| - 1] then 0 else 1
  }

  /** The engine calls of `k` successive advances from index `i`: each
      loads the track advanced to and plays it. */
  ghost function AdvanceLog(dir: string, playlist: seq<string>, i: int, k: nat): seq<Mixer.Call>
    requires playlist != []
  {
    if k == 0 then []
    else
      var track := playlist[Playlist.Advance(i, |playlist|, k)];
      AdvanceLog(dir, playlist, i, k - 1) + [Mixer.Load(dir, track), Mixer.Play]
  }

  class MusicPlayer {
    var currentIndex: int
    var paused: bool
    var musicDir: string
    var playlist: seq<string>
    var exited: bool
    ghost var log: seq<Mixer.Call>

    /** The index invariant: with no playlist the player is at 0 and
        paused; otherwise the index names a track. */
    ghost predicate Valid()
      reads this
    {
      if playlist == [] then currentIndex == 0 && paused
      else 0 <= currentIndex < |playlist|
    }

    /** Valid with a playlist loaded: the state the input loop runs in. */
    ghost predicate Ready()
      reads this
    {
      Valid() && playlist != []
    }

    /** The effect of starting track `index`: it is current, it is
        playing, and the engine was told to load it and then to play. */
    twostate predicate Started(index: int)
      reads this
    {
      && 0 <= index < |playlist|
      && currentIndex == index
      && !paused
      && log == old(log) + [Mixer.Load(musicDir, playlist[index]), Mixer.Play]
    }

    constructor ()
      ensures Valid()
      ensures currentIndex == 0 && paused && musicDir == "" && playlist == []
      ensures !exited && log == []
    {
      currentIndex := 0;
      paused := true;
      musicDir := "";
      playlist := [];
      exited := false;
      log := [];
    }

    /** Builds the playlist from the listing of the music directory; an
        empty playlist ends the program. */
    method LoadMusic(listing: seq<string>)
      requires Valid() && playlist == []
      modifies this`playlist, this`exited
      ensures Valid()
      ensures playlist == Playlist.FilterPlayable(listing)
      ensures exited == (old(exited) || playlist == [])
    {
      playlist := Playlist.FilterPlayable(listing);
      if playlist == [] {
        exited := true;
      }
    }

    /** Loads and plays a track; the current index is not changed, even
        when an explicit index is given. */
    method Play(index: Option<int>)
      requires Ready()
      requires index.Some? ==> -|playlist| <= index.value < |playlist|
      modifies this`paused, this`log
      ensures Ready() && !paused
      ensures log == old(log) +
        [Mixer.Load(musicDir, playlist[ResolveIndex(index, currentIndex, |playlist|)]), Mixer.Play]
    {
      var k := ResolveIndex(index, currentIndex, |playlist|);
      log := log + [Mixer.Load(musicDir, playlist[k]), Mixer.Play];
      paused := false;
    }

    method TogglePause()
      requires Ready()
      modifies this`paused, this`log
      ensures Ready()
      ensures paused == !old(paused)
      ensures log == old(log) + [if old(paused) then Mixer.Unpause else Mixer.Pause]
    {
      if paused {
        log := log + [Mixer.Unpause];
      } else {
        log := log + [Mixer.Pause];
      }
      paused := !paused;
    }

    method NextTrack()
      requires Ready()
      modifies this`currentIndex, this`paused, this`log
      ensures Ready()
      ensures Started(Playlist.NextIndex(old(currentIndex), |playlist|))
    {
      currentIndex := (currentIndex + 1) % |playlist|;
      Play(None);
    }

    method PrevTrack()
      requires Ready()
      modifies this`currentIndex, this`paused, this`log
      ensures Ready()
      ensures Started(Playlist.PrevIndex(old(currentIndex), |playlist|))
    {
      currentIndex := (currentIndex - 1) % |playlist|;
      Play(None);
    }

    /** Plays a random track other than the current one; with a single
        track, plays that track again. */
    method RandomTrack(draws: seq<int>)
      requires Ready()
      requires |playlist| > 1 ==> Playlist.Drawable(draws, currentIndex, |playlist|)
      modifies this`currentIndex, this`paused, this`log
      ensures Ready()
      ensures |playlist| > 1 ==> currentIndex != old(currentIndex)
      ensures Started(if |playlist| > 1 then Playlist.FirstOther(draws, old(currentIndex))
                      else old(currentIndex))
    {
      if |playlist| > 1 {
        var newIndex, _ := Playlist.DrawOther(currentIndex, |playlist|, draws);
        currentIndex := newIndex;
      }
      Play(None);
    }

    /** Plays the track the user numbered from 1; `choice` is None when
        the input was not a number. A bad choice changes nothing. */
    method SelectSong(choice: Option<int>) returns (outcome: SelectOutcome)
      requires Ready()
      modifies this`currentIndex, this`paused, this`log
      ensures Ready()
      ensures outcome == Selected <==> choice.Some? && 1 <= choice.value <= |playlist|
      ensures outcome == NotANumber <==> choice.None?
      ensures outcome == Selected ==> Started(choice.value - 1)
      ensures outcome != Selected ==> unchanged(this)
    {
      match choice
      case None =>
        outcome := NotANumber;
      case Some(number) =>
        if 1 <= number <= |playlist| {
          currentIndex := number - 1;
          Play(None);
          outcome := Selected;
        } else {
          outcome := InvalidNumber;
        }
    }

    /** Stops the engine and ends the program. */
    method Quit()
      modifies this`log, this`exited
      ensures exited
      ensures log == old(log) + [Mixer.Stop]
    {
      log := log + [Mixer.Stop];
      exited := true;
    }

    /** One poll of the playback monitor: when the player is not paused and
        the engine reports it is no longer busy, the next track starts. */
    method MonitorStep(busy: bool)
      requires Valid()
      modifies this`currentIndex, this`paused, this`log
      ensures Valid()
      ensures !old(paused) && !busy ==> Started(Playlist.NextIndex(old(currentIndex), |playlist|))
      ensures old(paused) || busy ==> unchanged(this)
    {
      if !paused && !busy {
        NextTrack();
      }
    }

    /** The monitor over a run of polls, `busy` giving the engine's answer
        to each: a paused player stays exactly as it is, and a playing one
        advances once per poll that found the engine idle, loading and
        playing each track it reaches. While the engine stays busy nothing
        changes at all. */
    method MonitorLoop(busy: seq<bool>)
      requires Valid()
      modifies this`currentIndex, this`paused, this`log
      ensures Valid()
      ensures old(paused) || (forall k :: 0 <= k < |busy| ==> busy[k]) ==> unchanged(this)
      ensures !old(paused) ==>
        && playlist != [] && !paused
        && currentIndex == Playlist.Advance(old(currentIndex), |playlist|, IdlePolls(busy))
        && log == old(log) + AdvanceLog(musicDir, playlist, old(currentIndex), IdlePolls(busy))
    {
      var i := 0;
      while i < |busy|
        invariant 0 <= i <= |busy| && Valid()
        invariant old(paused) ==> unchanged(this)
        invariant !old(paused) ==>
          && playlist != [] && !paused
          && currentIndex == Playlist.Advance(old(currentIndex), |playlist|, IdlePolls(busy[..i]))
          && log == old(log) + AdvanceLog(musicDir, playlist, old(currentIndex), IdlePolls(busy[..i]))
      {
        assert busy[..i + 1][..i] == busy[..i];
        MonitorStep(busy[i]);
        i := i + 1;
      }
      assert busy[..|busy|] == busy;
      if forall k :: 0 <= k < |busy| ==> busy[k] {
        assert IdlePolls(busy) == 0;
      }
    }

    /** One command of the input loop: the line read, the number typed if
        the command asks for one, and the random draws if it needs them.
        A line that is no command changes nothing. */
    method Dispatch(line: string, choice: Option<int>, draws: seq<int>)
      requires Ready()
      requires Commands.Parse(line) == Some(Commands.Random) && |playlist| > 1 ==>
        Playlist.Drawable(draws, currentIndex, |playlist|)
      modifies this`currentIndex, this`paused, this`log, this`exited
      ensures Ready()
      ensures var cmd := Commands.Parse(line);
        && (cmd.None? || cmd.value.ShowList? ==> unchanged(this))
        && (cmd == Some(Commands.TogglePause) ==>
              && currentIndex == old(currentIndex) && paused == !old(paused) && exited == old(exited)
              && log == old(log) + [if old(paused) then Mixer.Unpause else Mixer.Pause])
        && (cmd == Some(Commands.Next) ==>
              exited == old(exited) && Started(Playlist.NextIndex(old(currentIndex), |playlist|)))
        && (cmd == Some(Commands.Previous) ==>
              exited == old(exited) && Started(Playlist.PrevIndex(old(currentIndex), |playlist|)))
        && (cmd == Some(Commands.Random) ==>
              exited == old(exited) && Started(if |playlist| > 1 then Playlist.FirstOther(draws, old(currentIndex))
                                 else old(currentIndex)))
        && (cmd == Some(Commands.Select) ==>
              if choice.Some? && 1 <= choice.value <= |playlist|
              then exited == old(exited) && Started(choice.value - 1)
              else unchanged(this))
        && (cmd == Some(Commands.Quit) ==>
              && currentIndex == old(currentIndex) && paused == old(paused)
              && exited && log == old(log) + [Mixer.Stop])
    {
      match Commands.Parse(line)
      case None =>
      case Some(cmd) =>
        match cmd
        case TogglePause => TogglePause();
        case Next => NextTrack();
        case Previous => PrevTrack();
        case ShowList =>
        case Random => RandomTrack(draws);
        case Select => var _ := SelectSong(choice);
        case Quit => Quit();
    }

    /** Start-up of the player: take the music directory, build the
        playlist, and play its first track, or end the program when there
        is nothing to play. */
    method Startup(dir: string, listing: seq<string>)
      requires Valid() && playlist == [] && !exited
      modifies this
      ensures Valid()
      ensures musicDir == dir && playlist == Playlist.FilterPlayable(listing)
      ensures exited <==> playlist == []
      ensures playlist == [] ==> currentIndex == 0 && paused && log == old(log)
      ensures playlist != [] ==> Started(0)
    {
      musicDir := dir;
      LoadMusic(listing);
      if exited {
        return;
      }
      Play(None);
    }
  }

  /** Pausing and resuming in either order restores the flag and issues
      one pause and one resume. */
  method TogglePauseTwice(p: MusicPlayer)
    requires p.Ready()
    modifies p`paused, p`log
    ensures p.Ready() && p.paused == old(p.paused) && p.currentIndex == old(p.currentIndex)
    ensures p.log == old(p.log) +
      (if old(p.paused) then [Mixer.Unpause, Mixer.Pause] else [Mixer.Pause, Mixer.Unpause])
  {
    p.TogglePause();
    p.TogglePause();
  }

  /** Next then previous comes back to the same track, playing it. */
  method NextThenPrevious(p: MusicPlayer)
    requires p.Ready()
    modifies p`currentIndex, p`paused, p`log
    ensures p.Ready() && p.currentIndex == old(p.currentIndex) && !p.paused
    ensures p.log == old(p.log) +
      [ Mixer.Load(p.musicDir, p.playlist[Playlist.NextIndex(old(p.currentIndex), |p.playlist|)]), Mixer.Play,
        Mixer.Load(p.musicDir, p.playlist[p.currentIndex]), Mixer.Play ]
  {
    p.NextTrack();
    p.PrevTrack();
    Playlist.NextPrevInverse(old(p.currentIndex), |p.playlist|);
  }
}
