/**
 * The playback controller: the control thread's state object, the monitor
 * that reacts to the player's status events, and the facade that the
 * front end calls. Every facade call holds the program's one mutex for its
 * whole duration, so each facade method here is one atomic step on the
 * shared object; the monitor takes the mutex twice per event, and its
 * `HandleStatus` makes that pair one step.
 */
module Controller {
  import opened Wrappers
  import opened Paths
  import opened Settings
  import opened FileUtils
  import opened Playback

  /** `PlaybackControls`: the commands sent to the player (each carries `true`). */
  datatype PlaybackControl = Pause(on: bool) | Play(on: bool) | Stop(on: bool)

  /** `PlaybackStatus`: what the player reports on its status channel. */
  datatype PlaybackStatus = PlaybackComplete(done: bool) | PlaybackPercentage(elapsed: u32, total: u32)

  /** The files passed to the player, as a sequence (empty or one file). */
  function Requests(started: Option<OsStr>): seq<OsStr> {
    match started
    case None => []
    case Some(song) => [song]
  }

  /**
   * The audio player, as an oracle: it is asked to play a file and answers
   * whether it could. Every request is logged.
   */
  class MusicPlayer {
    ghost var requested: seq<OsStr>

    constructor ()
      ensures requested == []
    {
      requested := [];
    }

    method PlayMusicFile(file: OsStr) returns (ok: bool)
      modifies this
      ensures requested == old(requested) + [file]
    {
      requested := requested + [file];
      ok :| true;
    }
  }

  /**
   * The settings channel. `sent` is every snapshot ever sent on it, in
   * order; every listener holds a clone of one shared receiving end.
   */
  class SettingsChannel {
    ghost var sent: seq<SettingsChanged>

    constructor ()
      ensures sent == []
    {
      sent := [];
    }

    method Send(s: SettingsChanged)
      modifies this
      ensures sent == old(sent) + [s]
    {
      sent := sent + [s];
    }
  }

  /** `SongControlThread`: the queue, the current index and the settings, with the channels they feed. */
  class SongControlThread {
    var queue: seq<OsStr>
    var curIndex: int
    var settings: SettingsChanged
    /** The commands sent on the playback-control channel, in order. */
    var controlsSent: seq<PlaybackControl>
    const player: MusicPlayer
    const channel: SettingsChannel

    /** The index is an `i64` that is `-1` or more. */
    ghost predicate Valid()
      reads this
    {
      -1 <= curIndex <= I64Max
    }

    function State(): Playback
      reads this
    {
      Playback(queue, curIndex, settings)
    }

    /** `init`: an empty queue, nothing played yet, the default settings. */
    constructor (startingDir: string, player: MusicPlayer)
      ensures Valid()
      ensures queue == [] && curIndex == -1 && settings == DefaultSettings(startingDir)
      ensures controlsSent == [] && this.player == player
      ensures fresh(channel) && channel.sent == []
    {
      queue := [];
      curIndex := -1;
      settings := DefaultSettings(startingDir);
      controlsSent := [];
      this.player := player;
      channel := new SettingsChannel();
    }

    method SetRandom(isRandom: bool)
      modifies this`settings, channel
      ensures settings == old(settings).(random := isRandom)
      ensures channel.sent == old(channel.sent) + [settings]
    {
      settings := settings.(random := isRandom);
      SendSettings();
    }

    method SetRepeatAll(isRepeatAll: bool)
      modifies this`settings, channel
      ensures settings == old(settings).(repeat := isRepeatAll)
      ensures channel.sent == old(channel.sent) + [settings]
    {
      settings := settings.(repeat := isRepeatAll);
      SendSettings();
    }

    method SetRecursive(isRecursive: bool)
      modifies this`settings, channel
      ensures settings == old(settings).(recursive := isRecursive)
      ensures channel.sent == old(channel.sent) + [settings]
    {
      settings := settings.(recursive := isRecursive);
      SendSettings();
    }

    method Pause()
      modifies this`controlsSent
      ensures controlsSent == old(controlsSent) + [PlaybackControl.Pause(true)]
    {
      controlsSent := controlsSent + [PlaybackControl.Pause(true)];
    }

    method Stop()
      modifies this`controlsSent
      ensures controlsSent == old(controlsSent) + [PlaybackControl.Stop(true)]
    {
      controlsSent := controlsSent + [PlaybackControl.Stop(true)];
    }

    method Play()
      modifies this`controlsSent
      ensures controlsSent == old(controlsSent) + [PlaybackControl.Play(true)]
    {
      controlsSent := controlsSent + [PlaybackControl.Play(true)];
    }

    /** `send_settings`: publishes a clone of the current settings. */
    method SendSettings()
      modifies channel
      ensures channel.sent == old(channel.sent) + [settings]
    {
      channel.Send(Clone(settings));
    }

    /** `register_settings_listener`: every listener gets the same shared channel. */
    method RegisterSettingsListener() returns (listener: SettingsChannel)
      ensures listener == channel
    {
      listener := channel;
    }

    /**
     * `play_song`: records the song as playing from second zero and asks
     * the player to play it; the player's answer changes nothing.
     */
    method PlaySong(song: OsStr)
      requires IsUtf8(song)
      modifies this`settings, player
      ensures settings == old(settings).(songPlaying := ToStr(song).value, songTime := (0, 0))
      ensures player.requested == old(player.requested) + [song]
    {
      settings := settings.(songPlaying := ToStr(song).value);
      settings := settings.(songTime := (0, 0));
      var ok := player.PlayMusicFile(song);
    }

    /**
     * `play_next_song`: one advance. `roll` is the value the random
     * generator drew (irrelevant in sequential mode).
     */
    method PlayNextSong() returns (ghost roll: nat)
      requires CanAdvance(State())
      modifies this`curIndex, this`settings, player
      ensures RollFits(old(State()), roll)
      ensures State() == Advance(old(State()), roll).state
      ensures player.requested == old(player.requested) + Requests(Advance(old(State()), roll).started)
      ensures Valid()
    {
      if settings.random {
        var randomIndex :| 0 <= randomIndex < |queue|;
        curIndex := randomIndex;
        roll := randomIndex;
      } else {
        roll := 0;
        var nextIndex := if curIndex == -1 then 0 else curIndex + 1;
        curIndex := nextIndex;
        if nextIndex >= |queue| {
          if settings.repeat {
            curIndex := 0;
          } else {
            return;
          }
        }
      }
      var songToPlay := queue[curIndex];
      PlaySong(songToPlay);
    }

    /**
     * `play_browsing_dir`: the browsing directory becomes the playing one;
     * when it can be listed its music files replace the queue (the index is
     * kept) and one advance follows, otherwise the error is returned.
     */
    method PlayBrowsingDir(dir: Kind) returns (r: Result<(), IoError>, ghost roll: nat)
      requires Valid()
      requires var listed := MusicFilesIn(FromStr(settings.browsingDir), dir, settings.recursive);
        listed.Success? ==> CanAdvance(Playback(listed.value, curIndex, settings.(playingDir := settings.browsingDir)))
      modifies this`queue, this`curIndex, this`settings, player
      ensures Valid()
      ensures var listed := MusicFilesIn(FromStr(old(settings.browsingDir)), dir, old(settings.recursive));
        var loaded := Playback(
          if listed.Success? then listed.value else old(queue),
          old(curIndex),
          old(settings).(playingDir := old(settings.browsingDir)));
        && (r.Failure? <==> listed.Failure?)
        && (listed.Failure? ==> r.error == listed.error && State() == loaded && player.requested == old(player.requested))
        && (listed.Success? ==>
              RollFits(loaded, roll) && State() == Advance(loaded, roll).state &&
              player.requested == old(player.requested) + Requests(Advance(loaded, roll).started))
    {
      settings := settings.(playingDir := settings.browsingDir);
      var files := ListMusicFiles(settings.playingDir, dir, settings.recursive);
      match files {
        case Failure(e) =>
          return Failure(e), 0;
        case Success(musicFiles) =>
          queue := musicFiles;
      }
      roll := PlayNextSong();
      r := Success(());
    }
  }

  /** How many `recv` outcomes the monitor handles: those before the first receive error. */
  function HandledCount(events: seq<Option<PlaybackStatus>>): (n: nat)
    ensures n <= |events|
    ensures forall k :: 0 <= k < n ==> events[k].Some?
    ensures n < |events| ==> events[n].None?
  {
    if events == [] || events[0].None? then 0 else 1 + HandledCount(events[1..])
  }

  /**
   * One handled event as a step on the control thread's state: a completion
   * runs one advance with the draw `roll`, a progress report sets the song
   * time. Neither changes the queue or a flag.
   */
  function MonitorStep(p: Playback, event: PlaybackStatus, roll: nat): (q: Playback)
    requires event.PlaybackComplete? ==> CanAdvance(p) && RollFits(p, roll)
    ensures q.queue == p.queue && SameExceptSong(p.settings, q.settings)
    ensures forall m: nat :: CanAdvanceTimes(p, m + 1) ==> CanAdvanceTimes(q, m)
  {
    match event
    case PlaybackComplete(_) => Advance(p, roll).state
    case PlaybackPercentage(elapsed, total) => p.(settings := p.settings.(songTime := (elapsed, total)))
  }

  /**
   * What folding the monitor over `events` from `p` needs: none of them is
   * a receive error, each has its draw, there is room for that many
   * advances, and every completion in random mode draws inside the queue.
   */
  predicate Foldable(p: Playback, events: seq<Option<PlaybackStatus>>, rolls: seq<nat>) {
    && |rolls| == |events| && (forall k :: 0 <= k < |events| ==> events[k].Some?)
    && CanAdvanceTimes(p, |events|)
    && (forall k :: 0 <= k < |events| && events[k].value.PlaybackComplete? ==> RollFits(p, rolls[k]))
  }

  /**
   * The state after the monitor has handled `events` in order, the `k`-th
   * drawing `rolls[k]` if it is a completion.
   */
  function Monitor(p: Playback, events: seq<Option<PlaybackStatus>>, rolls: seq<nat>): (q: Playback)
    requires Foldable(p, events, rolls)
    ensures q.queue == p.queue && SameExceptSong(p.settings, q.settings)
    ensures forall m: nat :: CanAdvanceTimes(p, |events| + m) ==> CanAdvanceTimes(q, m)
    decreases |events|
  {
    if events == [] then p
    else
      var n := |events| - 1;
      var before := Monitor(p, events[..n], rolls[..n]);
      assert CanAdvanceTimes(before, 1);
      assert events[n].value.PlaybackComplete? ==> RollFits(p, rolls[n]);
      MonitorStep(before, events[n].value, rolls[n])
  }

  /** The snapshot published after each of `events`: the settings after that event and those before it. */
  function Snapshots(p: Playback, events: seq<Option<PlaybackStatus>>, rolls: seq<nat>): (s: seq<SettingsChanged>)
    requires Foldable(p, events, rolls)
    ensures |s| == |events|
    ensures events != [] ==> s[|events| - 1] == Monitor(p, events, rolls).settings
    decreases |events|
  {
    if events == [] then []
    else
      var n := |events| - 1;
      Snapshots(p, events[..n], rolls[..n]) + [Monitor(p, events, rolls).settings]
  }

  /** The `k`-th snapshot is the settings after the first `k + 1` events. */
  lemma {:induction false} SnapshotsAt(p: Playback, events: seq<Option<PlaybackStatus>>, rolls: seq<nat>, k: nat)
    requires Foldable(p, events, rolls) && k < |events|
    ensures Foldable(p, events[..k + 1], rolls[..k + 1])
    ensures Snapshots(p, events, rolls)[k] == Monitor(p, events[..k + 1], rolls[..k + 1]).settings
    decreases |events|
  {
    var n := |events| - 1;
    if k == n {
      assert events[..k + 1] == events && rolls[..k + 1] == rolls;
    } else {
      assert Foldable(p, events[..n], rolls[..n]);
      SnapshotsAt(p, events[..n], rolls[..n], k);
      assert events[..n][..k + 1] == events[..k + 1] && rolls[..n][..k + 1] == rolls[..k + 1];
    }
  }

  /**
   * Handling one more event, a completion drawing inside the queue or a
   * progress report, extends the fold by one `MonitorStep` and the
   * snapshots by the settings it reaches.
   */
  lemma MonitorExtend(p: Playback, events: seq<Option<PlaybackStatus>>, rolls: seq<nat>, i: nat, roll: nat)
    requires i < |events| && events[i].Some? && Foldable(p, events[..i], rolls)
    requires CanAdvanceTimes(p, i + 1)
    requires events[i].value.PlaybackComplete? ==> RollFits(p, roll)
    ensures Foldable(p, events[..i + 1], rolls + [roll])
    ensures CanAdvance(Monitor(p, events[..i], rolls))
    ensures var q := Monitor(p, events[..i + 1], rolls + [roll]);
      q == MonitorStep(Monitor(p, events[..i], rolls), events[i].value, roll) &&
      Snapshots(p, events[..i + 1], rolls + [roll]) == Snapshots(p, events[..i], rolls) + [q.settings]
  {
    var handled, drawn := events[..i + 1], rolls + [roll];
    assert forall k :: 0 <= k < i ==> handled[k] == events[..i][k] && drawn[k] == rolls[k];
    assert Foldable(p, handled, drawn);
    assert handled[..i] == events[..i] && drawn[..i] == rolls;
    var before := Monitor(p, events[..i], rolls);
    assert CanAdvanceTimes(before, 1);
    CanAdvanceTimesStep(before, 0, 0);
  }

  /**
   * The monitor has handled `events` from `p`, drawing `rolls`: its state
   * is `q` and the channel holds `sent0` followed by one snapshot per event.
   */
  ghost predicate Tracks(p: Playback, events: seq<Option<PlaybackStatus>>, rolls: seq<nat>,
                         q: Playback, sent0: seq<SettingsChanged>, sent: seq<SettingsChanged>)
  {
    && Foldable(p, events, rolls)
    && q == Monitor(p, events, rolls)
    && sent == sent0 + Snapshots(p, events, rolls)
  }

  /** While events remain, the state reached can advance once more. */
  lemma TracksCanAdvance(p: Playback, events: seq<Option<PlaybackStatus>>, rolls: seq<nat>, i: nat,
                         q: Playback, sent0: seq<SettingsChanged>, sent: seq<SettingsChanged>)
    requires i < |events| && CanAdvanceTimes(p, |events|)
    requires Tracks(p, events[..i], rolls, q, sent0, sent)
    ensures CanAdvance(q)
  {
    assert CanAdvanceTimes(p, i + (|events| - i - 1) + 1);
    assert CanAdvanceTimes(q, 1);
    CanAdvanceTimesStep(q, 0, 0);
  }

  /** One more handled event and its snapshot keep `Tracks`. */
  lemma TracksExtend(p: Playback, events: seq<Option<PlaybackStatus>>, rolls: seq<nat>, i: nat, roll: nat,
                     q: Playback, sent0: seq<SettingsChanged>, sent: seq<SettingsChanged>)
    requires i < |events| && events[i].Some? && CanAdvanceTimes(p, |events|)
    requires Tracks(p, events[..i], rolls, q, sent0, sent)
    requires events[i].value.PlaybackComplete? ==> CanAdvance(q) && RollFits(q, roll)
    ensures var next := MonitorStep(q, events[i].value, roll);
      Tracks(p, events[..i + 1], rolls + [roll], next, sent0, sent + [next.settings])
  {
    assert CanAdvanceTimes(p, i + 1);
    MonitorExtend(p, events, rolls, i, roll);
    var next := MonitorStep(q, events[i].value, roll);
    assert sent + [next.settings] == sent0 + (Snapshots(p, events[..i], rolls) + [next.settings]);
  }

  /** Before the first event: nothing handled, nothing published. */
  lemma TracksStart(p: Playback, events: seq<Option<PlaybackStatus>>, sent0: seq<SettingsChanged>)
    requires CanAdvanceTimes(p, |events|)
    ensures Tracks(p, events[..0], [], p, sent0, sent0)
  {
    assert events[..0] == [] && sent0 + [] == sent0;
  }

  /** Past `i` handled events, the next is handled exactly when it exists and is not a receive error. */
  lemma HandledCountAt(events: seq<Option<PlaybackStatus>>, i: nat)
    requires i <= HandledCount(events)
    ensures i < |events| && events[i].Some? <==> i < HandledCount(events)
  {
  }

  /** What `Tracks` gives once the monitor stops after `|rolls|` handled events. */
  lemma TracksEnd(p: Playback, events: seq<Option<PlaybackStatus>>, rolls: seq<nat>,
                  q: Playback, sent0: seq<SettingsChanged>, sent: seq<SettingsChanged>)
    requires |rolls| <= |events| && Tracks(p, events[..|rolls|], rolls, q, sent0, sent)
    ensures Foldable(p, events[..|rolls|], rolls)
    ensures q == Monitor(p, events[..|rolls|], rolls)
    ensures sent == sent0 + Snapshots(p, events[..|rolls|], rolls)
    ensures |sent| == |sent0| + |rolls|
    ensures rolls != [] ==> sent[|sent| - 1] == q.settings
    ensures SameExceptSong(p.settings, q.settings)
  {
  }

  /** `MonSongThread`: the loop that reacts to the player's status events. */
  class MonSongThread {
    const songCtrl: SongControlThread

    constructor (songCtrl: SongControlThread)
      ensures this.songCtrl == songCtrl
    {
      this.songCtrl := songCtrl;
    }

    /**
     * One turn of the loop, for the outcome of one `recv`: `None` is a
     * receive error, which ends the loop without publishing. A completion
     * runs one advance; a progress report sets the song time. Either way
     * one snapshot of the resulting settings is published.
     */
    method HandleStatus(received: Option<PlaybackStatus>) returns (continues: bool, ghost roll: nat)
      requires songCtrl.Valid()
      requires received.Some? && received.value.PlaybackComplete? ==> CanAdvance(songCtrl.State())
      modifies songCtrl`curIndex, songCtrl`settings, songCtrl.player, songCtrl.channel
      ensures songCtrl.Valid()
      ensures continues <==> received.Some?
      ensures received.None? ==>
        songCtrl.State() == old(songCtrl.State()) && songCtrl.channel.sent == old(songCtrl.channel.sent) &&
        songCtrl.player.requested == old(songCtrl.player.requested)
      ensures received.Some? ==> songCtrl.channel.sent == old(songCtrl.channel.sent) + [songCtrl.settings]
      ensures received.Some? && received.value.PlaybackPercentage? ==>
        songCtrl.State() == old(songCtrl.State()).(settings := old(songCtrl.settings).(songTime := (received.value.elapsed, received.value.total))) &&
        songCtrl.player.requested == old(songCtrl.player.requested)
      ensures received.Some? && received.value.PlaybackComplete? ==>
        RollFits(old(songCtrl.State()), roll) && songCtrl.State() == Advance(old(songCtrl.State()), roll).state &&
        songCtrl.player.requested == old(songCtrl.player.requested) + Requests(Advance(old(songCtrl.State()), roll).started)
      ensures received.Some? ==> songCtrl.State() == MonitorStep(old(songCtrl.State()), received.value, roll)
    {
      roll := 0;
      match received {
        case Some(PlaybackComplete(_)) =>
          roll := songCtrl.PlayNextSong();
        case Some(PlaybackPercentage(elapsed, total)) =>
          songCtrl.settings := songCtrl.settings.(songTime := (elapsed, total));
        case None =>
          return false, roll;
      }
      // notify listeners of the current settings
      songCtrl.SendSettings();
      continues := true;
    }
    /** One turn of `Run`: the turn of `HandleStatus` on the `i`-th outcome, stated on the fold. */
    method HandleNext(events: seq<Option<PlaybackStatus>>, i: nat, ghost start: Playback,
                      ghost rolls: seq<nat>, ghost sent0: seq<SettingsChanged>) returns (continues: bool, ghost roll: nat)
      requires songCtrl.Valid() && i < |events| && CanAdvanceTimes(start, |events|)
      requires Tracks(start, events[..i], rolls, songCtrl.State(), sent0, songCtrl.channel.sent)
      modifies songCtrl`curIndex, songCtrl`settings, songCtrl.player, songCtrl.channel
      ensures songCtrl.Valid()
      ensures continues <==> events[i].Some?
      ensures !continues ==> songCtrl.State() == old(songCtrl.State()) && songCtrl.channel.sent == old(songCtrl.channel.sent)
      ensures continues ==> Tracks(start, events[..i + 1], rolls + [roll], songCtrl.State(), sent0, songCtrl.channel.sent)
    {
      TracksCanAdvance(start, events, rolls, i, songCtrl.State(), sent0, songCtrl.channel.sent);
      ghost var q, sent := songCtrl.State(), songCtrl.channel.sent;
      continues, roll := HandleStatus(events[i]);
      if continues {
        TracksExtend(start, events, rolls, i, roll, q, sent0, sent);
      }
    }

    /**
     * The loop itself, over a finite run of `recv` outcomes with no other
     * call on the control thread in between: it handles events until the
     * first receive error. The state it leaves is `Monitor` of the handled
     * events, and the snapshot published after the `k`-th event is the
     * settings `Monitor` gives after the first `k + 1`. `rolls` are the
     * draws of the completions.
     */
    method Run(events: seq<Option<PlaybackStatus>>) returns (ghost rolls: seq<nat>)
      requires songCtrl.Valid() && CanAdvanceTimes(songCtrl.State(), |events|)
      modifies songCtrl`curIndex, songCtrl`settings, songCtrl.player, songCtrl.channel
      ensures songCtrl.Valid()
      ensures |rolls| == HandledCount(events) && Foldable(old(songCtrl.State()), events[..|rolls|], rolls)
      ensures songCtrl.State() == Monitor(old(songCtrl.State()), events[..|rolls|], rolls)
      ensures songCtrl.channel.sent == old(songCtrl.channel.sent) + Snapshots(old(songCtrl.State()), events[..|rolls|], rolls)
      ensures |songCtrl.channel.sent| == |old(songCtrl.channel.sent)| + HandledCount(events)
      ensures HandledCount(events) > 0 ==> songCtrl.channel.sent[|songCtrl.channel.sent| - 1] == songCtrl.settings
      ensures SameExceptSong(old(songCtrl.settings), songCtrl.settings)
    {
      ghost var start, sent0 := songCtrl.State(), songCtrl.channel.sent;
      TracksStart(start, events, sent0);
      rolls := [];
      var i := 0;
      while i < |events|
        invariant 0 <= i <= HandledCount(events) && songCtrl.Valid()
        invariant Tracks(start, events[..i], rolls, songCtrl.State(), sent0, songCtrl.channel.sent)
        decreases |events| - i
      {
        var continues;
        ghost var roll;
        continues, roll := HandleNext(events, i, start, rolls, sent0);
        HandledCountAt(events, i);
        if !continues {
          break;
        }
        rolls := rolls + [roll];
        i := i + 1;
      }
      TracksEnd(start, events, rolls, songCtrl.State(), sent0, songCtrl.channel.sent);
    }
  }

  /**
   * `Controller`: the facade the front end calls. It owns the control
   * thread's state and the monitor, which shares the same object; every
   * method takes the lock and delegates.
   */
  class Controller {
    const monSongThread: MonSongThread
    const songCtrlThread: SongControlThread

    ghost predicate Valid()
      reads songCtrlThread
    {
      monSongThread.songCtrl == songCtrlThread && songCtrlThread.Valid()
    }

    /** `init`: a fresh player, control thread and monitor, all in their initial state. */
    constructor (startingDir: string)
      ensures Valid()
      ensures fresh(songCtrlThread) && fresh(songCtrlThread.player) && fresh(songCtrlThread.channel)
      ensures songCtrlThread.State() == Playback([], -1, DefaultSettings(startingDir))
      ensures songCtrlThread.controlsSent == [] && songCtrlThread.channel.sent == []
      ensures songCtrlThread.player.requested == []
    {
      var player := new MusicPlayer();
      var sct := new SongControlThread(startingDir, player);
      songCtrlThread := sct;
      monSongThread := new MonSongThread(sct);
    }

    method SetRandom(isRandom: bool)
      requires Valid()
      modifies songCtrlThread`settings, songCtrlThread.channel
      ensures Valid()
      ensures songCtrlThread.settings == old(songCtrlThread.settings).(random := isRandom)
      ensures songCtrlThread.channel.sent == old(songCtrlThread.channel.sent) + [songCtrlThread.settings]
    {
      songCtrlThread.SetRandom(isRandom);
    }

    method SetRepeatAll(isRepeatAll: bool)
      requires Valid()
      modifies songCtrlThread`settings, songCtrlThread.channel
      ensures Valid()
      ensures songCtrlThread.settings == old(songCtrlThread.settings).(repeat := isRepeatAll)
      ensures songCtrlThread.channel.sent == old(songCtrlThread.channel.sent) + [songCtrlThread.settings]
    {
      songCtrlThread.SetRepeatAll(isRepeatAll);
    }

    method SetRecursive(isRecursive: bool)
      requires Valid()
      modifies songCtrlThread`settings, songCtrlThread.channel
      ensures Valid()
      ensures songCtrlThread.settings == old(songCtrlThread.settings).(recursive := isRecursive)
      ensures songCtrlThread.channel.sent == old(songCtrlThread.channel.sent) + [songCtrlThread.settings]
    {
      songCtrlThread.SetRecursive(isRecursive);
    }

    method RegisterSettingsListener() returns (listener: SettingsChannel)
      requires Valid()
      ensures listener == songCtrlThread.channel
    {
      listener := songCtrlThread.RegisterSettingsListener();
    }

    method PlayBrowsingDir(dir: Kind) returns (r: Result<(), IoError>, ghost roll: nat)
      requires Valid()
      requires var s := songCtrlThread.settings;
        var listed := MusicFilesIn(FromStr(s.browsingDir), dir, s.recursive);
        listed.Success? ==> CanAdvance(Playback(listed.value, songCtrlThread.curIndex, s.(playingDir := s.browsingDir)))
      modifies songCtrlThread`queue, songCtrlThread`curIndex, songCtrlThread`settings, songCtrlThread.player
      ensures Valid()
      ensures var s := old(songCtrlThread.settings);
        var listed := MusicFilesIn(FromStr(s.browsingDir), dir, s.recursive);
        var loaded := Playback(
          if listed.Success? then listed.value else old(songCtrlThread.queue),
          old(songCtrlThread.curIndex),
          s.(playingDir := s.browsingDir));
        && (r.Failure? <==> listed.Failure?)
        && (listed.Failure? ==>
              r.error == listed.error && songCtrlThread.State() == loaded &&
              songCtrlThread.player.requested == old(songCtrlThread.player.requested))
        && (listed.Success? ==>
              RollFits(loaded, roll) && songCtrlThread.State() == Advance(loaded, roll).state &&
              songCtrlThread.player.requested == old(songCtrlThread.player.requested) + Requests(Advance(loaded, roll).started))
    {
      r, roll := songCtrlThread.PlayBrowsingDir(dir);
    }

    method PlaySong(song: OsStr)
      requires Valid() && IsUtf8(song)
      modifies songCtrlThread`settings, songCtrlThread.player
      ensures Valid()
      ensures songCtrlThread.settings == old(songCtrlThread.settings).(songPlaying := ToStr(song).value, songTime := (0, 0))
      ensures songCtrlThread.player.requested == old(songCtrlThread.player.requested) + [song]
    {
      songCtrlThread.PlaySong(song);
    }

    method Play()
      requires Valid()
      modifies songCtrlThread`controlsSent
      ensures Valid()
      ensures songCtrlThread.controlsSent == old(songCtrlThread.controlsSent) + [PlaybackControl.Play(true)]
    {
      songCtrlThread.Play();
    }

    method Pause()
      requires Valid()
      modifies songCtrlThread`controlsSent
      ensures Valid()
      ensures songCtrlThread.controlsSent == old(songCtrlThread.controlsSent) + [PlaybackControl.Pause(true)]
    {
      songCtrlThread.Pause();
    }

    method Stop()
      requires Valid()
      modifies songCtrlThread`controlsSent
      ensures Valid()
      ensures songCtrlThread.controlsSent == old(songCtrlThread.controlsSent) + [PlaybackControl.Stop(true)]
    {
      songCtrlThread.Stop();
    }

    /** `next`: one advance, with nothing published. */
    method Next() returns (ghost roll: nat)
      requires Valid() && CanAdvance(songCtrlThread.State())
      modifies songCtrlThread`curIndex, songCtrlThread`settings, songCtrlThread.player
      ensures Valid()
      ensures RollFits(old(songCtrlThread.State()), roll)
      ensures songCtrlThread.State() == Advance(old(songCtrlThread.State()), roll).state
      ensures songCtrlThread.player.requested ==
        old(songCtrlThread.player.requested) + Requests(Advance(old(songCtrlThread.State()), roll).started)
    {
      roll := songCtrlThread.PlayNextSong();
    }
  }
}
