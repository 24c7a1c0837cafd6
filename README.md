# SIM MusicPlayer: playback state machine in Dafny

This project models the core of a terminal music player (`main.py`, class
`MusicPlayer`): the playlist built from a music directory, the playback
state (`current_index`, `paused`), the transport operations that change it
(play, pause/resume, next, previous, random, select by number, quit), one
poll of the background monitor that starts the next track when the current
one has finished, and the single-character command dispatch of the input
loop.

The audio engine (`pygame.mixer.music`) appears only through the calls made
on it. `MusicPlayer` keeps them in a ghost field `log` of `Mixer.Call`
values (`Load(dir, track)`, `Play`, `Pause`, `Unpause`, `Stop`), so that the
contracts can say which engine calls happen and in what order.

Files:

- `wrappers.dfy`: the `Option` type used for the typed track number and for
  command lookup.
- `mixer.dfy`: the engine calls.
- `text.dfy`: Python's `str.lower`, `str.endswith` and `str.strip` as used on
  file names and command lines.
- `playlist.dfy`: the extension filter, wraparound index arithmetic, and the
  redraw loop of random play.
- `commands.dfy`: the command table and the parsing of an input line.
- `player.dfy`: class `MusicPlayer` with its fields, its index invariant
  `Valid()`, and its operations. It also holds two client methods that state
  what callers can rely on across two calls.

The index invariant is: with an empty playlist the player is at index 0 and
paused, and otherwise `0 <= currentIndex < |playlist|`. The constructor
establishes it. `Startup` (load the music, then play the first track) keeps
it, and so does every operation. Because a new player starts paused, a
monitor poll before any track has been played changes nothing, even though
the playlist is still empty at that point.

Behaviour of `main.py` that the model keeps:

- Random play redraws until the value differs from the current index
  (main.py:84-86). It does not pick directly among the other indices.
- The monitor does not catch engine errors, and nothing locks the shared
  state (main.py:164-169). Concurrency is not modelled at all.
- `play(index)` with an explicit index loads that track but leaves
  `current_index` unchanged (main.py:59-64). No caller passes an index.

## Model

| member | source | states |
|---|---|---|
| Player.MusicPlayer.constructor | main.py:11-16 | a new player is at index 0, paused, with an empty playlist, no music directory, and no engine calls made; the index invariant holds |
| Player.MusicPlayer.LoadMusic | main.py:51-57 | the playlist becomes the playable entries of the listing; the program ends exactly when that playlist is empty; index, flag and engine log are untouched |
| Player.MusicPlayer.Startup | main.py:171-174 | after start-up the directory is the configured one and the playlist is the filtered listing; with no playable file the program has ended, still paused at index 0, with no engine call; otherwise track 0 is current and playing after exactly Load(dir, track 0) then Play |
| Player.MusicPlayer.Play | main.py:59-64 | play appends exactly Load(dir, track) then Play to the engine log and clears `paused`; the track is the current one, or the given index with Python's negative indexing; current index and playlist are unchanged |
| Player.ResolveIndex | main.py:60-62 | the slot loaded is in range, is the current index when no index is given, and otherwise is the given index itself or, for a negative one, that index counted back from the end |
| Player.MusicPlayer.TogglePause | main.py:66-71 | `paused` is negated; the engine gets Unpause if the player was paused and Pause otherwise; the index is unchanged |
| Player.TogglePauseTwice | main.py:66-71 | toggling twice restores `paused` and logs one Pause and one Unpause, in the order the starting state dictates; only the flag and the log may change, so index, playlist, directory and exit flag stay the same |
| Player.MusicPlayer.NextTrack | main.py:73-75 | the index becomes (old + 1) mod N and that track is loaded and played |
| Player.MusicPlayer.PrevTrack | main.py:77-79 | the index becomes (old - 1) mod N and that track is loaded and played |
| Playlist.NextIndex | main.py:74 | the next index is in [0, N); for an index in range it is old + 1, except that the last index wraps to 0 |
| Playlist.PrevIndex | main.py:78 | the previous index is in [0, N); for an index in range it is old - 1, except that 0 wraps to N - 1 |
| Playlist.NextPrevInverse | main.py:73-79 | next then previous, and previous then next, return to the starting index |
| Player.NextThenPrevious | main.py:73-79 | calling next_track then prev_track leaves the same track current and playing, after loading the next track and then the original one; only index, flag and log may change, so the playlist is the same |
| Playlist.Advance | main.py:164-168 | after at least one advance, automatic or manual, the index names a track |
| Playlist.AdvanceWithinLap | main.py:164-168 | k successive advances from index i, for k up to N, land on i + k, wrapped once past the end |
| Playlist.AdvanceFullLap | main.py:164-168 | N advances return to the starting track, and every track is reached on the way |
| Playlist.FirstOther | main.py:84-87 | the track random play settles on differs from the current one and is one of the drawn values |
| Playlist.DrawOther | main.py:84-86 | the redraw loop stops at the first draw that differs from the current index; the result is in [0, N), and the draws before it all equalled the current index |
| Player.MusicPlayer.RandomTrack | main.py:81-88 | with more than one track, the new index is the first draw other than the old index, so it differs from the old index; with one track the index stays; either way that track is loaded and played |
| Player.MusicPlayer.SelectSong | main.py:90-104 | a number in [1, N] makes track number - 1 current and plays it; an out-of-range number or a non-number changes neither index, flag nor engine log, and is reported as InvalidNumber or NotANumber |
| Player.MusicPlayer.Quit | main.py:112-115 | the engine gets Stop as its last call and the program ends |
| Player.MusicPlayer.MonitorStep | main.py:166-168 | one poll starts the next track exactly when the player is not paused and the engine is idle; otherwise nothing changes, in particular never while paused |
| Player.MusicPlayer.MonitorLoop | main.py:164-169 | over any run of polls, a paused player, or one whose engine stays busy, stays exactly as it is; a playing one advances once for each poll that found the engine idle, and the engine log gains one Load of the track reached then Play per advance, in order |
| Player.IdlePolls | main.py:166 | no poll finds the engine idle exactly when the engine reported busy at every poll |
| Player.MusicPlayer.Dispatch | main.py:175-181 | one command line: p, n, b, r, s and q run their operations with the effects above; l and any unknown line leave the whole state and the engine log unchanged |
| Commands.Lookup | main.py:17-25 | a key finds its command and only that command; any other string finds nothing |
| Commands.Parse | main.py:177-178 | a line selects a command only when it strips to a single character whose lower case is that command's key; ParseAccepts and ParseRejects characterise it fully |
| Commands.ParseAccepts | main.py:177-179 | a command key in either case, with any white space around it, selects that command |
| Commands.ParseRejects | main.py:178-181 | a line selects no command exactly when, stripped and lower-cased, it is none of the seven keys |
| Playlist.FilterPlayable | main.py:53-54 | the playlist holds exactly the listing's playable entries and is no longer than the listing |
| Playlist.FilterPlayableAppend | main.py:53-54 | filtering keeps listing order: filtering two parts of a listing gives the two filtered parts one after the other |
| Playlist.FilterPlayableSingle | main.py:53-54 | a single entry is kept exactly when it is playable |
| Playlist.FilterPlayableIdempotent | main.py:53-54 | a playlist is unchanged by filtering again |
| Playlist.FilterPlayableEmpty | main.py:55-57 | the playlist is empty, and the program ends, exactly when no entry is playable |
| Playlist.IsPlayable | main.py:52-54 | a playable name has at least four characters and a dot four from the end; IsPlayableBySuffix and IsPlayableIgnoresCase characterise it fully |
| Playlist.IsPlayableBySuffix | main.py:52-54 | a name is playable exactly when its last four characters, lower-cased, are .mp3, .wav or .ogg |
| Playlist.IsPlayableIgnoresCase | main.py:54 | the extension test does not depend on the case of the name |
| Text.LowerChar | main.py:54 | a lower-cased character is never an upper-case ASCII letter |
| Text.ToLower | main.py:54 | lower-casing keeps the length and lower-cases each character in place |
| Text.ToLowerIdempotent | main.py:54 | lower-casing twice is the same as lower-casing once |
| Text.ToLowerSuffix | main.py:54 | lower-casing commutes with taking a suffix |
| Text.TrimStart | main.py:177 | the leading white space is dropped: the result is a suffix, everything dropped is white space, and the result does not start with white space |
| Text.TrimEnd | main.py:177 | the trailing white space is dropped, in the same way as at the start |
| Text.Strip | main.py:177 | a stripped line neither starts nor ends with white space |
| Text.TrimStartPadded | main.py:177 | the leading trim removes exactly a white-space prefix in front of a word |
| Text.TrimEndPadded | main.py:177 | the trailing trim removes exactly a white-space suffix behind a word |
| Text.StripPadded | main.py:177 | stripping a word surrounded by any white space gives back exactly the word |

## Left out

- Reading and writing the configuration file, and prompting for the music folder (main.py:30-49), are not modelled. They are file and console I/O. `Startup` takes the resulting directory as a parameter.
- Listing the directory (`os.listdir`, main.py:53) is a parameter: the listing, in its order.
- File names are taken as sequences of Unicode scalar values. On POSIX, `os.listdir` returns undecodable name bytes as lone surrogates, which a Dafny `char` cannot hold; such names cannot be given to `LoadMusic` or `Startup`, although they would not change which entries the filter keeps.
- Terminal drawing (`draw_ui`, `truncate`, `pad_line`, main.py:117-159) is not modelled. It is presentation only, its widths come from the `wcwidth` library, and `clear` is a shell call.
- Printing the playlist (`show_list`, and the listing inside `select_song`, main.py:91-93, 106-110) is console output. The `l` command is therefore a no-op on the state.
- The "Press Enter" prompts and the status messages are console I/O.
- The monitor thread is not modelled. This covers the daemon thread, the one-second sleep, and the unsynchronised sharing of `paused` and `current_index` with the input loop (main.py:27-28, 164-169). `MonitorStep` is one poll and `MonitorLoop` is a finite run of polls, both sequential.
- The endless input loop (main.py:175-181) is modelled as one command per `Dispatch` call. `exit()` sets the field `exited`; the model does not forbid calls after it.
- The audio engine itself is foreign code. It is modelled only by the call log and the `busy` answer to each poll. `Load(dir, track)` stands for loading `os.path.join(dir, track)`; path joining is not modelled, and neither are engine errors (an unreadable file, for example).
- `random.randint` is a parameter: the sequence of values it returns. Its distribution is not modelled. That the redraw loop ends with probability 1 appears as the requirement that some supplied draw differs from the current index.
- Parsing the typed number with `int(...)` (main.py:95) is a parameter: `None` stands for the `ValueError` path.
- `str.lower` is modelled for ASCII letters only. No other character lower-cases to a character of `.mp3`, `.wav`, `.ogg` or of a command key, so the outcome of every comparison the program makes is the same.
- Player.MusicPlayer.TogglePause: requires a loaded playlist, although `toggle_pause` itself works without one. Its only caller is the input loop, which runs after `load_music` has ensured a non-empty playlist.
- Player.MusicPlayer.Play: requires an explicit index to lie in [-N, N). Python raises `IndexError` outside that range, and no caller passes an index.
