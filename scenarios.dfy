/**
 * Worked examples: the filter on a few names, and a session driven through
 * the facade the way the command-line front end drives it.
 */
module Scenarios {
  import opened Wrappers
  import opened Paths
  import opened Settings
  import opened FileUtils
  import opened Playback
  import opened Controller

  /** Lower-casing a three-letter extension, letter by letter. */
  lemma LowercaseOfThree(e: string)
    requires |e| == 3
    ensures AsciiLowercase(e) == [AsciiLower(e[0]), AsciiLower(e[1]), AsciiLower(e[2])]
  {
  }

  /** What the allow-list entries start with. */
  lemma AllowListInitials(e: string)
    requires e in AudioExtensions
    ensures |e| > 0 && (e[0] == 'm' || e[0] == 'f' || e[0] == 'w' || e[0] == 'o')
  {
  }

  /** Extensions match in any ASCII case. */
  lemma UpperCaseExample()
    ensures IsSupportedAudioFile(FromStr("song.MP3"))
  {
    SupportedByText("song.MP3", 4);
    LowercaseOfThree("MP3");
  }

  /** Only the last extension counts. */
  lemma LastExtensionExample()
    ensures IsSupportedAudioFile(FromStr("live.tar.Ogg"))
  {
    SupportedByText("live.tar.Ogg", 8);
    LowercaseOfThree("Ogg");
  }

  /** An extension off the allow-list is rejected. */
  lemma OtherExtensionExample()
    ensures !IsSupportedAudioFile(FromStr("notes.txt"))
  {
    SupportedByText("notes.txt", 5);
    LowercaseOfThree("txt");
    if AsciiLowercase("txt") in AudioExtensions {
      AllowListInitials(AsciiLowercase("txt"));
    }
  }

  /** A hidden file named after an extension has no extension, and neither has a bare `mp3`. */
  lemma DotlessExamples()
    ensures !IsSupportedAudioFile(FromStr(".mp3"))
    ensures !IsSupportedAudioFile(FromStr("mp3"))
  {
    DotlessNotSupported(".mp3");
    DotlessNotSupported("mp3");
  }

  /** A file entry `n` of a directory `d`: its path, and whether a non-recursive listing keeps it. */
  lemma FileEntryOf(d: string, n: string, i: nat)
    requires d != "" && d[|d| - 1] != '/'
    requires 0 < i < |n| && n[i] == '.' && '.' !in n[i + 1..] && '/' !in n && |n| > 2
    ensures EntryMusicFiles(FromStr(d), Good(FromStr(n), FileKind), false) ==
      if AsciiLowercase(n[i + 1..]) in AudioExtensions then Success([FromStr(d + "/" + n)]) else Success([])
  {
    var dir, name := FromStr(d), FromStr(n);
    FromStrConcat(d + "/", n);
    FromStrConcat(d, "/");
    var path := Join(dir, name);
    assert path == dir + [Slash] + name;
    assert path == FromStr(d + "/" + n);
    FromStrMembers(n, '/');
    FilterSeesOnlyName(dir, name);
    SupportedByText(n, i);
  }

  /**
   * Sequential play of a directory whose non-recursive listing is `[a, b]`,
   * through the facade: loading plays `a`; two completion events follow.
   */
  method SequentialSession(start: string, dir: Kind, a: string, b: string)
    requires MusicFilesIn(FromStr(start), dir, false) == Success([FromStr(a), FromStr(b)])
  {
    var controller := new Controller(start);
    controller.SetRandom(false);
    LoadPlaysFirst(controller, dir, a, b);
    CompletionsRunOffTheEnd(controller, b);
    assert controller.songCtrlThread.settings.songPlaying == b;
    assert controller.songCtrlThread.player.requested == [FromStr(a), FromStr(b)];
    assert |controller.songCtrlThread.channel.sent| == 3;
  }

  /**
   * Loading a directory whose listing is `[a, b]` before anything was
   * played, in sequential mode: the queue becomes the listing and `a` plays.
   * Loading publishes nothing.
   */
  method LoadPlaysFirst(c: Controller, dir: Kind, a: string, b: string)
    requires c.Valid() && c.songCtrlThread.curIndex == -1 && !c.songCtrlThread.settings.random
    requires var s := c.songCtrlThread.settings;
      MusicFilesIn(FromStr(s.browsingDir), dir, s.recursive) == Success([FromStr(a), FromStr(b)])
    modifies c.songCtrlThread`queue, c.songCtrlThread`curIndex, c.songCtrlThread`settings, c.songCtrlThread.player
    ensures c.Valid() && c.songCtrlThread.queue == [FromStr(a), FromStr(b)] && c.songCtrlThread.curIndex == 0
    ensures c.songCtrlThread.settings == old(c.songCtrlThread.settings).(
      playingDir := old(c.songCtrlThread.settings.browsingDir), songPlaying := a, songTime := (0, 0))
    ensures c.songCtrlThread.player.requested == old(c.songCtrlThread.player.requested) + [FromStr(a)]
  {
    StrRoundTrip(a);
    var r, roll := c.PlayBrowsingDir(dir);
  }

  /**
   * Two completion events at the first of two entries, in sequential mode
   * without repeat: the first plays `b`; the second runs off the end of
   * the queue, so the index moves past it while `b` stays the song shown
   * and nothing more is played. Each event publishes one snapshot.
   */
  method CompletionsRunOffTheEnd(c: Controller, b: string)
    requires c.Valid() && |c.songCtrlThread.queue| == 2 && c.songCtrlThread.queue[1] == FromStr(b)
    requires c.songCtrlThread.curIndex == 0 && !c.songCtrlThread.settings.random && !c.songCtrlThread.settings.repeat
    modifies c.songCtrlThread`curIndex, c.songCtrlThread`settings, c.songCtrlThread.player, c.songCtrlThread.channel
    ensures c.songCtrlThread.curIndex == 2 && c.songCtrlThread.settings.songPlaying == b
    ensures c.songCtrlThread.player.requested == old(c.songCtrlThread.player.requested) + [FromStr(b)]
    ensures |c.songCtrlThread.channel.sent| == |old(c.songCtrlThread.channel.sent)| + 2
  {
    StrRoundTrip(b);
    var ctrl := c.songCtrlThread;
    var more, roll := c.monSongThread.HandleStatus(Some(PlaybackComplete(true)));
    assert ctrl.curIndex == 1;
    assert ctrl.settings.songPlaying == b;
    more, roll := c.monSongThread.HandleStatus(Some(PlaybackComplete(true)));
    assert ctrl.curIndex == 2;
  }
}
