/** The playlist store: which directory entries become tracks, how the
    track index moves forwards and backwards with wraparound, and how a
    random track other than the current one is drawn. */
module Playlist {
  import Text

  /** An entry is playable when its lower-cased name ends in one of the
      allowed extensions. */
  predicate IsPlayable(name: string)
    ensures IsPlayable(name) ==> |name| >= 4 && name[|name| - 4] == '.'
  {
    var lower := Text.ToLower(name);
    Text.EndsWith(lower, ".mp3") || Text.EndsWith(lower, ".wav") || Text.EndsWith(lower, ".ogg")
  }

  /** Only the last four characters decide, whatever their case. */
  lemma IsPlayableBySuffix(name: string)
    ensures IsPlayable(name) <==>
      |name| >= 4 && Text.ToLower(name[|name| - 4..]) in {".mp3", ".wav", ".ogg"}
  {
    if |name| >= 4 {
      Text.ToLowerSuffix(name, |name| - 4);
    }
  }

  /** Upper- and lower-case spellings of a name are equally playable. */
  lemma IsPlayableIgnoresCase(name: string)
    ensures IsPlayable(Text.ToLower(name)) == IsPlayable(name)
  {
    Text.ToLowerIdempotent(name);
  }

  /** The playlist built from a directory listing: the playable entries. */
  function FilterPlayable(listing: seq<string>): (playlist: seq<string>)
    ensures |playlist| <= |listing|
    ensures forall name :: name in playlist <==> name in listing && IsPlayable(name)
  {
    if listing == [] then []
    else if IsPlayable(listing[0]) then [listing[0]] + FilterPlayable(listing[1..])
    else FilterPlayable(listing[1..])
  }

  /** Filtering a listing in two parts gives the two filtered parts in the
      same order; with the one-entry case this fixes the playlist as the
      playable entries in listing order. */
  lemma {:induction false} FilterPlayableAppend(a: seq<string>, b: seq<string>)
    ensures FilterPlayable(a + b) == FilterPlayable(a) + FilterPlayable(b)
  {
    if a == [] {
      assert a + b == b;
    } else {
      assert (a + b)[0] == a[0];
      assert (a + b)[1..] == a[1..] + b;
      FilterPlayableAppend(a[1..], b);
    }
  }

  lemma FilterPlayableSingle(name: string)
    ensures FilterPlayable([name]) == if IsPlayable(name) then [name] else []
  {
    assert [name][1..] == [];
  }

  /** A playlist is already filtered. */
  lemma {:induction false} FilterPlayableIdempotent(listing: seq<string>)
    ensures FilterPlayable(FilterPlayable(listing)) == FilterPlayable(listing)
  {
    if listing != [] {
      FilterPlayableIdempotent(listing[1..]);
      if IsPlayable(listing[0]) {
        var rest := FilterPlayable(listing[1..]);
        assert ([listing[0]] + rest)[1..] == rest;
      }
    }
  }

  /** The playlist is empty (and the player gives up) exactly when no entry
      has an allowed extension. */
  lemma FilterPlayableEmpty(listing: seq<string>)
    ensures FilterPlayable(listing) == [] <==> forall k :: 0 <= k < |listing| ==> !IsPlayable(listing[k])
  {
    if FilterPlayable(listing) != [] {
      var name := FilterPlayable(listing)[0];
      assert name in listing;
    }
  }

  // Python's `%` with a positive divisor floors, so its result lies in
  // [0, n) even for a negative left operand; Dafny's `%` agrees there.

  /** The index after `i`, wrapping from the last track to the first. */
  function NextIndex(i: int, n: int): (r: int)
    requires n > 0
    ensures 0 <= r < n
    ensures 0 <= i < n ==> r == if i == n - 1 then 0 else i + 1
  {
    (i + 1) % n
  }

  /** The index before `i`, wrapping from the first track to the last. */
  function PrevIndex(i: int, n: int): (r: int)
    requires n > 0
    ensures 0 <= r < n
    ensures 0 <= i < n ==> r == if i == 0 then n - 1 else i - 1
  {
    (i - 1) % n
  }

  /** Next and previous undo each other. */
  lemma NextPrevInverse(i: int, n: int)
    requires 0 <= i < n
    ensures PrevIndex(NextIndex(i, n), n) == i
    ensures NextIndex(PrevIndex(i, n), n) == i
  {
  }

  /** The index reached after `k` automatic or manual advances. */
  function Advance(i: int, n: int, k: nat): (r: int)
    requires n > 0
    ensures k > 0 ==> 0 <= r < n
  {
    if k == 0 then i else NextIndex(Advance(i, n, k - 1), n)
  }

  /** Within one lap, `k` advances from `i` move `k` places, wrapping once. */
  lemma {:induction false} AdvanceWithinLap(i: int, n: int, k: nat)
    requires 0 <= i < n && k <= n
    ensures Advance(i, n, k) == if i + k < n then i + k else i + k - n
  {
    if k > 0 {
      AdvanceWithinLap(i, n, k - 1);
    }
  }

  /** Advancing `n` times comes back to the start, after reaching every
      track on the way. */
  lemma AdvanceFullLap(i: int, n: int, j: int)
    requires 0 <= i < n && 0 <= j < n
    ensures Advance(i, n, n) == i
    ensures exists k :: 0 <= k < n && Advance(i, n, k) == j
  {
    AdvanceWithinLap(i, n, n);
    var k := if i <= j then j - i else j - i + n;
    AdvanceWithinLap(i, n, k);
  }

  /** What the random source must supply for a redraw loop to stop: values
      from randint(0, n - 1), at least one of them other than `current`. */
  predicate Drawable(draws: seq<int>, current: int, n: int) {
    && (forall k :: 0 <= k < |draws| ==> 0 <= draws[k] < n)
    && (exists k :: 0 <= k < |draws| && draws[k] != current)
  }

  /** The first drawn value that differs from `current`. */
  function FirstOther(draws: seq<int>, current: int): (r: int)
    requires exists k :: 0 <= k < |draws| && draws[k] != current
    ensures r != current && r in draws
  {
    if draws[0] != current then draws[0]
    else
      assert exists k :: 0 <= k < |draws[1..]| && draws[1..][k] != current by {
        var k :| 0 <= k < |draws| && draws[k] != current;
        assert draws[1..][k - 1] == draws[k];
      }
      FirstOther(draws[1..], current)
  }

  /** The redraw loop of random play: draw until the value differs from
      `current`. Returns that value and how many draws it took. */
  method DrawOther(current: int, n: int, draws: seq<int>) returns (r: int, used: nat)
    requires Drawable(draws, current, n)
    ensures r == FirstOther(draws, current)
    ensures 0 <= r < n && r != current
    ensures 0 < used <= |draws| && r == draws[used - 1]
    ensures forall k :: 0 <= k < used - 1 ==> draws[k] == current
  {
    r, used := current, 0;
    while r == current
      invariant used <= |draws|
      invariant r == current ==> forall k :: 0 <= k < used ==> draws[k] == current
      invariant r == current ==> FirstOther(draws[used..], current) == FirstOther(draws, current)
      invariant r != current ==> 0 < used && r == draws[used - 1] && r == FirstOther(draws, current)
      invariant r != current ==> forall k :: 0 <= k < used - 1 ==> draws[k] == current
      decreases |draws| - used
    {
      ghost var k :| 0 <= k < |draws| && draws[k] != current;
      assert used <= k;
      assert draws[used..][0] == draws[used];
      assert draws[used..][1..] == draws[used + 1..];
      r := draws[used];
      used := used + 1;
    }
  }
}
