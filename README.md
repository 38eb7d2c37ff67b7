# A verified model of the music player's controller

This project is a Dafny model of the playback core of a small terminal music player, and proofs about that model. It covers three parts:

- **The control thread's state machine** (`SongControlThread`). Its state is:
  - a queue of file paths;
  - a signed current index, where `-1` means "nothing played yet";
  - a `SettingsChanged` record;
  - a channel of playback commands;
  - a channel of published settings snapshots.

  It also covers the monitor loop that reacts to the player's status events, and the `Controller` facade that the front end calls.
- **The file utilities.** This is the audio-file filter (`is_supported_audio_file`), the plain and recursive music-file listing (`list_music_files`), and `sub_directories`. They run over an abstract, finite directory tree.
- **The `SettingsChanged` snapshot** and its field-wise `Clone`.

Layout:

| file | module | contents |
|---|---|---|
| `wrappers.dfy` | `Wrappers` | `Option` and `Result` |
| `paths.dfy` | `Paths` | OS strings as sequences of units that may or may not be UTF-8. It also defines `PathBuf::push` (`Join`), `file_name` and `extension`, following the rules of Rust's standard library. |
| `settings_changed.dfy` | `Settings` | the snapshot record, `u32`, `Clone` |
| `file_utils.dfy` | `FileUtils` | the entry tree, the filter, and the listings. Each listing is a specification function plus the looping method that is proved equal to it. |
| `playback.dfy` | `Playback` | the next-song rule as a pure function on (queue, index, settings), with its properties over many steps |
| `controller.dfy` | `Controller` | the classes `SongControlThread`, `MonSongThread` and `Controller`, with the player oracle and the settings channel |
| `scenarios.dfy` | `Scenarios` | worked examples of the filter, and a sequential session driven through the facade |

Each facade call takes the program's one mutex for its whole duration, so each facade method here is one atomic step on the shared object. The monitor loop is the exception: it takes the mutex twice per event, once for the state change and once for the publish (see "Left out").

The following are modelled as inputs:

- **Random draws.** A random draw is a ghost out-parameter `roll`. The specification function `Playback.Advance` takes it as an argument and only uses it in random mode.
- **The player's answer.** `MusicPlayer.PlayMusicFile` is an oracle that logs each request and may answer either way.
- **The file system.** It is a `Kind` value passed to the operations that list it.

A panic in the program is a precondition here. The panics covered are:

- `gen_range(0..0)` on an empty queue;
- `queue[0]` at a repeat wrap on an empty queue;
- `to_str().unwrap()` on a path that is not UTF-8;
- an `i64` conversion that overflows.

### Where the code and its description differ

The model follows the code in each of these places:

- **Loading does not reset the index.** `play_browsing_dir` replaces the queue but keeps the current index. Loading a second directory therefore continues from the old position. It does not start at the first file.
- **The index runs past the end.** With repeat off, reaching the end of the queue leaves the index one past the last entry. Each further advance moves it one more. The invariant "the index is `-1` or a valid position" does not hold (`Playback.SequentialRunsOffTheEnd`).
- **A failed playback still counts.** `play_song` sets `song_playing` and `song_time` before asking the player, and ignores a failure.
- **Publishing is narrower than described.** `play_next_song` and `play_song` publish nothing. Only the three setters and the monitor loop publish a snapshot.
- **Listeners share one channel.** Every listener gets a clone of one shared receiving end. Listeners therefore compete for snapshots; there is no broadcast to each of them.
- **The default mode can panic.** The default settings have random mode on. Loading a directory with no music files in that mode panics.

## Model

| member | source | states |
|---|---|---|
| `Settings.Clone` | src/settings_changed.rs:13-24 | The clone copies the three flags, the three strings and both halves of `song_time`, so it equals the original. |
| `Settings.CloneIdempotent` | src/settings_changed.rs:13-24 | Cloning twice gives the same snapshot as cloning once. |
| `Paths.StrRoundTrip` | src/file_utils.rs:36 | A path built from a string converts back to that same string, and `to_str` succeeds on it. |
| `Paths.FileNameOfJoin` | src/file_utils.rs:50 | The file name of an entry's path (the directory joined with an entry name) is that entry name. |
| `Paths.NameExtensionAt` | src/file_utils.rs:83 | The extension of a name is the text after its last dot, when that dot is not the first character. |
| `Paths.ExtensionOfJoin` | src/file_utils.rs:83 | The extension of an entry's path is decided by the entry name alone. |
| `FileUtils.AllowListMembership` | src/file_utils.rs:87-88 | The four case-insensitive comparisons hold exactly when the lower-cased extension is one of `mp3`, `flac`, `wav`, `ogg`. |
| `FileUtils.SupportedIffAllowListed` | src/file_utils.rs:82-91 | A path is accepted if and only if it has an extension, that extension is UTF-8, and its lower-cased text is on the allow-list. |
| `FileUtils.NoExtensionNotSupported` | src/file_utils.rs:83-90 | A path with no extension, or with an extension that is not UTF-8, is rejected. |
| `FileUtils.SupportedByText` | src/file_utils.rs:82-91 | For a name whose last dot comes after its first character, the verdict depends only on the lower-cased text after that dot. |
| `FileUtils.DotlessNotSupported` | src/file_utils.rs:83-90 | A name with no dot after its first character (`mp3`, `.mp3`) is rejected. |
| `FileUtils.IsSupportedAudioFile` | src/file_utils.rs:82-91 | An accepted path has an extension, that extension is UTF-8, and it is at least three characters long. |
| `FileUtils.FilterSeesOnlyName` | src/file_utils.rs:50-61 | Whether an entry's path is accepted does not depend on the directory it sits in. |
| `FileUtils.EntryMusicFiles` | src/file_utils.rs:49-64 | Every path one entry contributes passes the filter, including the paths of a subdirectory listed recursively. |
| `FileUtils.MusicFilesAmong` | src/file_utils.rs:48-65 | Every path a run of entries contributes passes the filter. |
| `FileUtils.MusicFilesIn` | src/file_utils.rs:42-77 | Every path in a successful listing passes the filter, including paths from nested directories. |
| `FileUtils.ListMusicFiles` | src/file_utils.rs:35-38 | Listing a directory named by a string returns the listing of that path as defined by `MusicFilesIn`. |
| `FileUtils.ListMusicFilesAt` | src/file_utils.rs:42-77 | The loop returns the following: `Ok([])` for a path that is not a directory; an error for an unreadable directory, a bad entry, a failed type query or a failing subdirectory; otherwise the entries' contributions concatenated in enumeration order. |
| `FileUtils.NonRecursiveListing` | src/file_utils.rs:48-63 | A non-recursive listing fails exactly when some entry cannot be read. Otherwise it returns every entry whose path passes the filter, in enumeration order. Directories are included, because their type is never queried. |
| `FileUtils.MusicFilesAmongAppend` | src/file_utils.rs:48-65 | Listing two runs of entries gives the first run's paths followed by the second's. The first error wins. |
| `FileUtils.RecursiveSplice` | src/file_utils.rs:52-58 | In a recursive listing, a subdirectory's own recursive listing is spliced in at the subdirectory's position. |
| `FileUtils.ListingFailsIffFaulty` | src/file_utils.rs:47-55 | A listing fails exactly when a read, an entry or a type query fails somewhere in what it visits, at any depth. |
| `FileUtils.RecursiveListingIsExact` | src/file_utils.rs:52-63 | A successful recursive listing contains exactly the supported non-directory paths of the whole tree. It never contains a directory. |
| `FileUtils.SubDirectoriesOf` | src/file_utils.rs:10-28 | The listing fails exactly when the directory cannot be read or some entry's metadata fails. The error is the metadata error in the second case and the read error in the first. A successful listing has no more names than the directory has entries. |
| `FileUtils.SubDirectories` | src/file_utils.rs:10-28 | The loop returns the following: an error when the directory cannot be read or an entry's metadata fails; otherwise the UTF-8 names of the directory entries, in order, skipping bad entries. |
| `FileUtils.SubDirectoriesAreDirectories` | src/file_utils.rs:14-27 | A name is returned if and only if it is the UTF-8 name of a directory entry. |
| `Playback.DefaultSettings` | src/controller.rs:65-73 | The initial settings: random on; repeat and recursive off; no playing directory and no song; the browsing directory is the starting one; song time (0, 0). |
| `Playback.Start` | src/controller.rs:187-197 | Playing the entry at an index keeps the queue, sets the index, and starts that entry. `song_playing` becomes the entry's text and the time (0, 0). The flags and directories are untouched. |
| `Playback.SequentialNext` | src/controller.rs:159-165 | The next index is 0 after `-1`, and otherwise one more than the current index. |
| `Playback.Advance` | src/controller.rs:148-184 | The queue never changes. When a song starts, it is the queue entry at the new index, `song_playing` shows it, and the time is reset. Nothing starts exactly when the mode is sequential, repeat is off and the next index is past the end. In that case the index still moves one on and the settings are untouched. Where the index lands: on the draw in random mode; in sequential mode on the next index when it is inside the queue, and on 0 at a repeat wrap. A sequential step never moves the index by more than one. |
| `Playback.RandomReachesEveryEntry` | src/controller.rs:149-154 | In random mode, every entry of the queue can be the one played next. |
| `Playback.SequentialIgnoresRoll` | src/controller.rs:155-180 | In sequential mode the random draw plays no part. |
| `Playback.RepeatAlwaysPlays` | src/controller.rs:168-171 | With repeat or random on, an advance always lands inside the queue and starts a song. |
| `Playback.AdvanceTimes` | src/controller.rs:148-184 | Repeated sequential advances keep the queue and the mode flags, and move the index by at most one per step. |
| `Playback.SequentialRunsOffTheEnd` | src/controller.rs:160-175 | Without repeat, after `n` advances from `-1` the index is `n - 1`, even past the end. The song shown is the `n`-th entry, or the last one once the queue is exhausted. |
| `Playback.RepeatCycles` | src/controller.rs:166-171 | With repeat, the `n`-th advance from `-1` plays entry `(n - 1) mod length`. |
| `Controller.SongControlThread.constructor` | src/controller.rs:63-89 | The queue is empty, the index is `-1` and the settings are the defaults. Nothing has been sent on either channel. |
| `Controller.SongControlThread.SetRandom` | src/controller.rs:92-95 | Only the random flag changes, and exactly one snapshot equal to the new settings is published. |
| `Controller.SongControlThread.SetRepeatAll` | src/controller.rs:97-100 | Only the repeat flag changes, and exactly one snapshot equal to the new settings is published. |
| `Controller.SongControlThread.SetRecursive` | src/controller.rs:102-105 | Only the recursive flag changes, and exactly one snapshot equal to the new settings is published. |
| `Controller.SongControlThread.Pause` | src/controller.rs:107-109 | Exactly one `Pause(true)` command is sent. The queue, the index and the settings are untouched, and nothing is published. |
| `Controller.SongControlThread.Stop` | src/controller.rs:111-113 | Exactly one `Stop(true)` command is sent. Nothing else changes. |
| `Controller.SongControlThread.Play` | src/controller.rs:115-117 | Exactly one `Play(true)` command is sent. Nothing else changes. |
| `Controller.SongControlThread.SendSettings` | src/controller.rs:119-121 | Exactly one snapshot is published, and it equals the current settings. |
| `Controller.SongControlThread.RegisterSettingsListener` | src/controller.rs:123-125 | Every listener receives the one shared settings channel. |
| `Controller.SongControlThread.PlaySong` | src/controller.rs:187-197 | `song_playing` becomes the song's text and the time becomes (0, 0), whatever the player answers. The player is asked exactly once. |
| `Controller.SongControlThread.PlayNextSong` | src/controller.rs:148-184 | The new state is `Playback.Advance` of the old state. The player is asked for exactly the song that starts, or for nothing. Nothing is published. |
| `Controller.SongControlThread.PlayBrowsingDir` | src/controller.rs:131-145 | The playing directory becomes the browsing directory, even when listing fails. On an error, the error is returned, the queue and index are kept, and nothing is played. On success, the listing replaces the queue, the index is kept, and exactly one advance follows. |
| `Controller.HandledCount` | src/controller.rs:20-34 | The number of events the monitor handles: every event before the first receive error, and none after it. |
| `Controller.MonitorStep` | src/controller.rs:21-28 | One handled event keeps the queue and changes only the song fields of the settings, and uses up at most one of the advances there is room for. |
| `Controller.Monitor` | src/controller.rs:20-37 | Folding the monitor over a run of handled events keeps the queue and changes only the song fields of the settings. Room for `n` more advances than the run has events leaves room for `n` after it. |
| `Controller.Snapshots` | src/controller.rs:35-36 | One snapshot per handled event. The last is the settings after the whole run. |
| `Controller.SnapshotsAt` | src/controller.rs:20-37 | The `k`-th snapshot of a run is the settings after the first `k + 1` events of that run. |
| `Controller.MonitorExtend` | src/controller.rs:20-37 | Handling one more event extends the fold by exactly one `MonitorStep`, and the snapshots by the settings it reaches. |
| `Controller.MonSongThread.HandleStatus` | src/controller.rs:21-36 | A progress event sets only the song time. A completion runs exactly one advance. Either way the new state is `MonitorStep` of the old one, and one snapshot of the resulting settings is published. A receive error stops the loop, changes nothing and publishes nothing. |
| `Controller.MonSongThread.Run` | src/controller.rs:20-37 | The loop handles exactly the events before the first receive error. The state it leaves is `Monitor` of the old state over those events. The channel gains exactly `Snapshots` of them: the `k`-th new snapshot is the settings after the first `k + 1` events. The last snapshot equals the final settings, and only the song fields of the settings change. |
| `Controller.Controller.constructor` | src/controller.rs:206-219 | It creates a fresh player, a fresh control thread in its initial state, and a monitor that shares that control thread. |
| `Controller.Controller.SetRandom` | src/controller.rs:221-223 | Delegates: the same change and the same single snapshot as the control thread's setter. |
| `Controller.Controller.SetRepeatAll` | src/controller.rs:225-227 | Delegates: the same change and the same single snapshot as the control thread's setter. |
| `Controller.Controller.SetRecursive` | src/controller.rs:229-231 | Delegates: the same change and the same single snapshot as the control thread's setter. |
| `Controller.Controller.RegisterSettingsListener` | src/controller.rs:233-236 | Returns the control thread's one shared settings channel. |
| `Controller.Controller.PlayBrowsingDir` | src/controller.rs:246-248 | Has the same outcome as the control thread's `play_browsing_dir`. |
| `Controller.Controller.PlaySong` | src/controller.rs:250-252 | Has the same outcome as the control thread's `play_song`. |
| `Controller.Controller.Play` | src/controller.rs:254-256 | Exactly one `Play(true)` command is sent. |
| `Controller.Controller.Pause` | src/controller.rs:258-260 | Exactly one `Pause(true)` command is sent. |
| `Controller.Controller.Stop` | src/controller.rs:262-264 | Exactly one `Stop(true)` command is sent. |
| `Controller.Controller.Next` | src/controller.rs:266-268 | Exactly one advance, with nothing published. |
| `Scenarios.UpperCaseExample` | src/file_utils.rs:82-89 | `song.MP3` is accepted: the comparison ignores ASCII case. |
| `Scenarios.LastExtensionExample` | src/file_utils.rs:82-89 | `live.tar.Ogg` is accepted: only the text after the last dot is the extension. |
| `Scenarios.OtherExtensionExample` | src/file_utils.rs:82-91 | `notes.txt` is rejected. |
| `Scenarios.DotlessExamples` | src/file_utils.rs:83-90 | `.mp3` and `mp3` are rejected. |
| `Scenarios.LoadPlaysFirst` | src/controller.rs:131-145 | Loading a two-file directory in sequential mode, before anything was played, queues both files, plays the first and sets the index to 0. |
| `Scenarios.CompletionsRunOffTheEnd` | src/controller.rs:160-175 | Two completion events at the first of two entries: the second file plays, then the index moves to 2 while the second file stays shown. One snapshot is published per event. |
| `Scenarios.FileEntryOf` | src/file_utils.rs:50-63 | A file entry of a directory contributes its path to a non-recursive listing exactly when its lower-cased extension is on the allow-list. |

## Left out

- Threads, `Arc<Mutex<…>>` and the `unsafe impl Send/Sync` on the control thread: each method is one step on the shared object, and interleavings between threads are not modelled.
- `Controller.MonSongThread.HandleStatus`: the program takes the lock twice per event, once for the change (src/controller.rs:24 or :28) and once for the publish (src/controller.rs:36). A front-end call that runs in between, such as a setter, would have its change appear in the monitor's snapshot. The model makes the pair one step and does not capture that.
- Delivery on the crossbeam settings channel: publishing is an append-only log of snapshots. Which listener receives which snapshot is not modelled.
- The audio player (decoding, the output device, its polling thread): `MusicPlayer.PlayMusicFile` is an oracle. Its status events are the input of the monitor. The player's module is not part of this model.
- `rand::thread_rng`: the drawn index is the ghost `roll`, constrained only to lie in range.
- The command-line menu and the program's entry point are not part of this model.
- `println!`/`eprintln!` logging, including the "recursively" note of the listing: it has no effect on state.
- Real file-system access: what a path resolves to is given as a `Kind`. Symbolic links are not told apart from what they point to. The program's `is_dir` follows links, while an entry's `file_type` does not, and the model does not reflect that difference.
- `Controller.get_available_dirs` and `SongControlThread.get_browsing_dir`: a thin wrapper that passes the browsing directory to `sub_directories`, and a getter. `FileUtils.SubDirectories` models the former's result for a given tree.
- `Paths.FileName`: does not model the normalisation of a trailing separator or a trailing `.` component. Entry paths, the only ones the listing builds, never have either.
- `Controller.MonSongThread.Run`: the blocking loop without end becomes a loop over a finite run of events, with no other call on the control thread in between.
- `Controller.MonSongThread.Run`: the requires is a sufficient condition (every queue entry UTF-8, and room in `i64` for every step), not the weakest one. The program only panics on the entries it actually plays.
- `Controller.SongControlThread.PlayNextSong`: the index conversions into `i64` and `usize` are modelled only as the precondition that they do not overflow. A wrap-around is not modelled, because the program panics instead.
- `Scenarios.SequentialSession` takes the directory's listing as a precondition, rather than computing it from a concrete tree of named entries.
