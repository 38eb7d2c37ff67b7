/**
 * The next-song rule of the control thread as a function on values: the
 * queue, the signed current index (`-1` before anything was played) and the
 * settings. Randomness is the argument `roll`, the value the random
 * generator drew; it only matters in random mode.
 */
module Playback {
  import opened Wrappers
  import opened Paths
  import opened Settings

  /** `i64::MAX`: the index is an `i64`, and a conversion past it panics. */
  const I64Max: int := 0x7fff_ffff_ffff_ffff

  datatype Playback = Playback(queue: seq<OsStr>, index: int, settings: SettingsChanged)

  /** The state after one advance, and the file handed to the player, if any. */
  datatype Advanced = Advanced(state: Playback, started: Option<OsStr>)

  /** The settings the control thread starts with. */
  function DefaultSettings(startingDir: string): (s: SettingsChanged)
    ensures s.random && !s.repeat && !s.recursive
    ensures s.playingDir == "" && s.songPlaying == "" && s.browsingDir == startingDir && s.songTime == (0, 0)
  {
    SettingsChanged(false, false, true, "", startingDir, "", (0, 0))
  }

  /** The files a queue entry could be played from all have UTF-8 paths (`to_str().unwrap()` panics otherwise). */
  predicate AllUtf8(queue: seq<OsStr>) {
    forall k :: 0 <= k < |queue| ==> IsUtf8(queue[k])
  }

  /** The sequential successor of an index: the first entry when nothing was played yet. */
  function SequentialNext(index: int): (n: int)
    requires -1 <= index
    ensures 0 <= n && n == index + 1
  {
    if index == -1 then 0 else index + 1
  }

  /** What `play_next_song` needs in order not to panic. */
  predicate CanAdvance(p: Playback) {
    -1 <= p.index <= I64Max &&
    if p.settings.random then
      // `gen_range(0..0)` panics; the drawn index must fit an i64
      p.queue != [] && |p.queue| <= I64Max + 1 && AllUtf8(p.queue)
    else
      // `next_index.try_into().unwrap()` into an i64
      p.index < I64Max &&
      var next := SequentialNext(p.index);
      if next < |p.queue| then IsUtf8(p.queue[next])
      else p.settings.repeat ==> p.queue != [] && IsUtf8(p.queue[0])
  }

  /** A value the random generator can draw for this state. */
  predicate RollFits(p: Playback, roll: nat) {
    p.settings.random ==> roll < |p.queue|
  }

  /** `play_song` of the entry at `index`: it becomes the song playing, from second zero. */
  function Start(p: Playback, index: int): (a: Advanced)
    requires 0 <= index < |p.queue| && IsUtf8(p.queue[index])
    ensures a.state.queue == p.queue && a.state.index == index && a.started == Some(p.queue[index])
    ensures FromStr(a.state.settings.songPlaying) == p.queue[index] && a.state.settings.songTime == (0, 0)
    ensures SameExceptSong(p.settings, a.state.settings)
  {
    var song := p.queue[index];
    Advanced(Playback(p.queue, index, p.settings.(songPlaying := ToStr(song).value, songTime := (0, 0))), Some(song))
  }

  /**
   * `play_next_song`. Random mode plays the drawn entry. Sequential mode
   * plays the next entry; past the end it wraps to the first entry when
   * repeating, and otherwise leaves the index one past where it was and
   * plays nothing.
   */
  function Advance(p: Playback, roll: nat): (a: Advanced)
    requires CanAdvance(p) && RollFits(p, roll)
    ensures a.state.queue == p.queue
    ensures a.started.Some? ==>
      0 <= a.state.index < |p.queue| && a.started.value == p.queue[a.state.index] && IsUtf8(a.started.value) &&
      a.state.settings == p.settings.(songPlaying := ToStr(a.started.value).value, songTime := (0, 0))
    ensures a.started.None? <==> !p.settings.random && !p.settings.repeat && p.index + 1 >= |p.queue|
    ensures a.started.None? ==> a.state.index == p.index + 1 && a.state.settings == p.settings
    ensures !p.settings.random ==> a.state.index <= p.index + 1
    ensures p.settings.random ==> a.state.index == roll
    ensures !p.settings.random && SequentialNext(p.index) < |p.queue| ==> a.state.index == SequentialNext(p.index)
    ensures !p.settings.random && p.settings.repeat && SequentialNext(p.index) >= |p.queue| ==> a.state.index == 0
  {
    if p.settings.random then Start(p, roll)
    else
      var next := SequentialNext(p.index);
      if next < |p.queue| then Start(p, next)
      else if p.settings.repeat then Start(p, 0)
      else Advanced(p.(index := next), None)
  }

  /** In random mode every entry of the queue can be the one played next. */
  lemma RandomReachesEveryEntry(p: Playback, k: nat)
    requires CanAdvance(p) && p.settings.random && k < |p.queue|
    ensures exists roll: nat :: RollFits(p, roll) && Advance(p, roll).started == Some(p.queue[k]) && Advance(p, roll).state.index == k
  {
    assert RollFits(p, k) && Advance(p, k).state.index == k;
  }

  /** In sequential mode the draw plays no part. */
  lemma SequentialIgnoresRoll(p: Playback, roll1: nat, roll2: nat)
    requires CanAdvance(p) && !p.settings.random
    ensures Advance(p, roll1) == Advance(p, roll2)
  {
  }

  /** With repeat (or random), an advance always lands on an entry of the queue and starts it. */
  lemma RepeatAlwaysPlays(p: Playback, roll: nat)
    requires CanAdvance(p) && RollFits(p, roll) && (p.settings.random || p.settings.repeat)
    ensures 0 <= Advance(p, roll).state.index < |p.queue| && Advance(p, roll).started.Some?
  {
  }

  /** Enough room for `n` advances in a row: the flags and the queue do not change between them. */
  predicate CanAdvanceTimes(p: Playback, n: nat) {
    -1 <= p.index && AllUtf8(p.queue) &&
    (p.settings.random || p.settings.repeat ==> p.queue != []) &&
    (p.settings.random ==> |p.queue| <= I64Max + 1) &&
    (!p.settings.random ==> p.index + n < I64Max) &&
    (p.settings.random ==> p.index <= I64Max)
  }

  lemma CanAdvanceTimesStep(p: Playback, n: nat, roll: nat)
    requires CanAdvanceTimes(p, n + 1) && RollFits(p, roll)
    ensures CanAdvance(p) && CanAdvanceTimes(Advance(p, roll).state, n)
  {
  }

  /** `n` sequential advances in a row. */
  function AdvanceTimes(p: Playback, n: nat): (q: Playback)
    requires !p.settings.random && CanAdvanceTimes(p, n)
    ensures q.queue == p.queue && q.settings.random == p.settings.random && q.settings.repeat == p.settings.repeat
    ensures -1 <= q.index <= p.index + n
    decreases n
  {
    if n == 0 then p
    else
      var before := AdvanceTimes(p, n - 1);
      assert CanAdvanceTimes(before, 1);
      CanAdvanceTimesStep(before, 0, 0);
      Advance(before, 0).state
  }

  /**
   * Playing through a queue without repeat: after `n` advances from "nothing
   * played" the index is `n - 1`, even past the end of the queue, and the
   * song playing is the `n`-th entry, or the last one once the queue is
   * exhausted.
   */
  lemma {:induction false} SequentialRunsOffTheEnd(p: Playback, n: nat)
    requires !p.settings.random && !p.settings.repeat && p.index == -1 && CanAdvanceTimes(p, n)
    requires 1 <= n && p.queue != []
    ensures AdvanceTimes(p, n).index == n - 1
    ensures AdvanceTimes(p, n).settings.songPlaying == ToStr(p.queue[if n <= |p.queue| then n - 1 else |p.queue| - 1]).value
    ensures AdvanceTimes(p, n).settings.songTime == (0, 0)
  {
    if n > 1 {
      SequentialRunsOffTheEnd(p, n - 1);
    }
  }

  lemma {:induction false} MulAtLeast(k: int, len: int)
    requires 1 <= k && 0 <= len
    ensures k * len >= len
  {
    if k > 1 {
      MulAtLeast(k - 1, len);
      assert k * len == (k - 1) * len + len;
    }
  }

  lemma ModUnique(a: int, len: int, q: int, r: int)
    requires 0 < len && a == q * len + r && 0 <= r < len
    ensures a % len == r
  {
    var q0, r0 := a / len, a % len;
    assert a == q0 * len + r0;
    assert (q - q0) * len == q * len - q0 * len;
    if q > q0 {
      MulAtLeast(q - q0, len);
    } else if q < q0 {
      MulAtLeast(q0 - q, len);
    }
  }

  lemma ModSuccessor(m: nat, len: nat)
    requires 0 < len
    ensures m % len + 1 < len ==> (m + 1) % len == m % len + 1
    ensures m % len + 1 == len ==> (m + 1) % len == 0
  {
    var q, r := m / len, m % len;
    if r + 1 < len {
      ModUnique(m + 1, len, q, r + 1);
    } else {
      assert m + 1 == (q + 1) * len + 0;
      ModUnique(m + 1, len, q + 1, 0);
    }
  }

  /** One advance with repeat from a position in the queue: the next entry, or the first after the last. */
  lemma RepeatStep(q: Playback)
    requires !q.settings.random && q.settings.repeat && CanAdvance(q) && 0 <= q.index < |q.queue|
    ensures var next := if q.index + 1 < |q.queue| then q.index + 1 else 0;
      Advance(q, 0).state.index == next && Advance(q, 0).state.settings.songPlaying == ToStr(q.queue[next]).value
  {
  }

  /** With repeat, the advances cycle through the queue: the `n`-th plays entry `(n - 1) mod |queue|`. */
  lemma {:induction false} RepeatCycles(p: Playback, n: nat)
    requires !p.settings.random && p.settings.repeat && p.index == -1 && CanAdvanceTimes(p, n)
    requires 1 <= n
    ensures AdvanceTimes(p, n).index == (n - 1) % |p.queue|
    ensures AdvanceTimes(p, n).settings.songPlaying == ToStr(p.queue[(n - 1) % |p.queue|]).value
  {
    var len := |p.queue|;
    if n == 1 {
      ModUnique(0, len, 0, 0);
    } else {
      RepeatCycles(p, n - 1);
      var before := AdvanceTimes(p, n - 1);
      assert CanAdvanceTimes(before, 1);
      CanAdvanceTimesStep(before, 0, 0);
      RepeatStep(before);
      var m := (n - 2) % len;
      assert before.index == m;
      ModSuccessor(n - 2, len);
      var next := if m + 1 < len then m + 1 else 0;
      assert (n - 1) % len == next;
      assert AdvanceTimes(p, n) == Advance(before, 0).state;
    }
  }
}
