/** The snapshot of playback and browsing settings sent to every listener. */
module Settings {

  /** Rust's `u32`. */
  newtype u32 = x: int | 0 <= x < 0x1_0000_0000

  /** `SettingsChanged`; `songTime` is (elapsed seconds, total seconds). */
  datatype SettingsChanged = SettingsChanged(
    recursive: bool,
    repeat: bool,
    random: bool,
    playingDir: string,
    browsingDir: string,
    songPlaying: string,
    songTime: (u32, u32))

  /** `Clone::clone`: a field-wise copy, so the copy equals the original. */
  function Clone(s: SettingsChanged): (c: SettingsChanged)
    ensures c.recursive == s.recursive && c.repeat == s.repeat && c.random == s.random
    ensures c.playingDir == s.playingDir && c.browsingDir == s.browsingDir && c.songPlaying == s.songPlaying
    ensures c.songTime.0 == s.songTime.0 && c.songTime.1 == s.songTime.1
    ensures c == s
  {
    SettingsChanged(
      s.recursive, s.repeat, s.random,
      s.playingDir, s.browsingDir, s.songPlaying,
      (s.songTime.0, s.songTime.1))
  }

  /** The two snapshots agree on everything but the song playing and its time. */
  predicate SameExceptSong(a: SettingsChanged, b: SettingsChanged) {
    a.recursive == b.recursive && a.repeat == b.repeat && a.random == b.random &&
    a.playingDir == b.playingDir && a.browsingDir == b.browsingDir
  }

  /** Cloning a clone gives the same snapshot as cloning once. */
  lemma CloneIdempotent(s: SettingsChanged)
    ensures Clone(Clone(s)) == Clone(s)
  {
  }
}
