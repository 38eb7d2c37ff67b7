/**
 * The music-file filter and directory listings of the player.
 *
 * The file system is an abstract finite tree: what a path resolves to is a
 * `Kind`; a readable directory holds the entries `read_dir` enumerates, in
 * enumeration order, each of which either fails to read or has a name and a
 * kind. An entry whose type cannot be queried has kind `UnknownKind`.
 */
module FileUtils {
  import opened Wrappers
  import opened Paths

  datatype Kind = FileKind | DirKind(listing: Listing) | UnknownKind

  datatype Listing = Entries(items: seq<Item>) | Unreadable

  datatype Item = Good(name: OsStr, kind: Kind) | BadEntry

  /** Which `io::Error` ended a listing. */
  datatype IoError = ReadDirError | DirEntryError | FileTypeError | MetadataError

  // ---------------------------------------------------------------------------
  // The extension allow-list
  // ---------------------------------------------------------------------------

  /** The extensions rodio decodes, in lower case. */
  const AudioExtensions: set<string> := {"mp3", "flac", "wav", "ogg"}

  /** `char::to_ascii_lowercase`. */
  function AsciiLower(c: char): char {
    if 'A' <= c <= 'Z' then (c as int + 32) as char else c
  }

  function AsciiLowercase(s: string): string {
    seq(|s|, k requires 0 <= k < |s| => AsciiLower(s[k]))
  }

  /** `str::eq_ignore_ascii_case`. */
  predicate EqIgnoreAsciiCase(a: string, b: string) {
    |a| == |b| && forall k :: 0 <= k < |a| ==> AsciiLower(a[k]) == AsciiLower(b[k])
  }

  /** `is_supported_audio_file`: the path's UTF-8 extension is one of four, in any ASCII case. */
  predicate IsSupportedAudioFile(p: OsStr)
    ensures IsSupportedAudioFile(p) ==> Extension(p).Some? && IsUtf8(Extension(p).value) && |Extension(p).value| >= 3
  {
    match Extension(p)
    case None => false
    case Some(ext) =>
      match ToStr(ext)
      case None => false
      case Some(e) =>
        EqIgnoreAsciiCase(e, "mp3") || EqIgnoreAsciiCase(e, "flac") ||
        EqIgnoreAsciiCase(e, "wav") || EqIgnoreAsciiCase(e, "ogg")
  }

  lemma {:induction false} EqIgnoreCaseAgainstLower(a: string, b: string)
    requires AsciiLowercase(b) == b
    ensures EqIgnoreAsciiCase(a, b) <==> AsciiLowercase(a) == b
  {
    if EqIgnoreAsciiCase(a, b) {
      forall k | 0 <= k < |a| ensures AsciiLowercase(a)[k] == b[k] {
        assert AsciiLowercase(b)[k] == AsciiLower(b[k]);
      }
    }
    if AsciiLowercase(a) == b {
      forall k | 0 <= k < |a| ensures AsciiLower(a[k]) == AsciiLower(b[k]) {
        assert AsciiLowercase(a)[k] == AsciiLower(a[k]);
      }
    }
  }

  /** The four comparisons of `is_supported_audio_file` are membership of the lower-cased text in the allow-list. */
  lemma {:induction false} AllowListMembership(e: string)
    ensures (EqIgnoreAsciiCase(e, "mp3") || EqIgnoreAsciiCase(e, "flac") ||
             EqIgnoreAsciiCase(e, "wav") || EqIgnoreAsciiCase(e, "ogg")) <==> AsciiLowercase(e) in AudioExtensions
  {
    forall x | x in AudioExtensions ensures AsciiLowercase(x) == x {
      assert forall k :: 0 <= k < |x| ==> 'a' <= x[k] <= 'z' || '0' <= x[k] <= '9';
    }
    EqIgnoreCaseAgainstLower(e, "mp3");
    EqIgnoreCaseAgainstLower(e, "flac");
    EqIgnoreCaseAgainstLower(e, "wav");
    EqIgnoreCaseAgainstLower(e, "ogg");
  }

  /** The filter accepts exactly the paths whose lower-cased UTF-8 extension is on the allow-list. */
  lemma SupportedIffAllowListed(p: OsStr)
    ensures IsSupportedAudioFile(p) <==>
      Extension(p).Some? && IsUtf8(Extension(p).value) &&
      AsciiLowercase(ToStr(Extension(p).value).value) in AudioExtensions
  {
    if Extension(p).Some? && IsUtf8(Extension(p).value) {
      AllowListMembership(ToStr(Extension(p).value).value);
    }
  }

  /** A path without an extension, or whose extension is not UTF-8, is never accepted. */
  lemma NoExtensionNotSupported(p: OsStr)
    requires Extension(p).None? || !IsUtf8(Extension(p).value)
    ensures !IsSupportedAudioFile(p)
  {
  }

  /**
   * For a name written as text with a dot at position `i > 0` and none
   * after it, the filter decides on the lower-cased text after that dot.
   */
  lemma SupportedByText(t: string, i: nat)
    requires 0 < i < |t| && t[i] == '.' && '.' !in t[i + 1..] && '/' !in t
    ensures IsSupportedAudioFile(FromStr(t)) <==> AsciiLowercase(t[i + 1..]) in AudioExtensions
  {
    var name := FromStr(t);
    FromStrMembers(t, '/');
    FromStrSuffix(t, i + 1);
    FromStrMembers(t[i + 1..], '.');
    if IsEntryName(name) {
      ExtensionOfName(name);
      NameExtensionAt(name, i);
      StrRoundTrip(t[i + 1..]);
      SupportedIffAllowListed(name);
    } else {
      // only the name `..` gets here, and its extension is empty
      assert FileName(name).None?;
      assert |t| == 2 && t[i + 1..] == "";
    }
  }

  /** A name without a dot after its first character is never accepted (`.mp3` and `mp3` alike). */
  lemma DotlessNotSupported(t: string)
    requires '/' !in t && forall k :: 0 < k < |t| ==> t[k] != '.'
    ensures !IsSupportedAudioFile(FromStr(t))
  {
    var name := FromStr(t);
    FromStrMembers(t, '/');
    if IsEntryName(name) {
      ExtensionOfName(name);
    } else {
      assert FileName(name).None?;
    }
  }

  /** Only the entry's own name matters: the directory it sits in does not. */
  lemma FilterSeesOnlyName(dir: OsStr, name: OsStr)
    requires IsEntryName(name)
    ensures IsSupportedAudioFile(Join(dir, name)) == IsSupportedAudioFile(name)
  {
    ExtensionOfJoin(dir, name);
    ExtensionOfJoin([], name);
    assert Join([], name) == name;
  }

  // ---------------------------------------------------------------------------
  // list_music_files
  // ---------------------------------------------------------------------------

  /** Appends `fs` in front of a successful listing; an error passes through. */
  function Prepend(fs: seq<OsStr>, r: Result<seq<OsStr>, IoError>): Result<seq<OsStr>, IoError> {
    match r
    case Success(rest) => Success(fs + rest)
    case Failure(e) => Failure(e)
  }

  /** Sequencing of two listings: the first error wins, otherwise the paths are concatenated. */
  function Then(a: Result<seq<OsStr>, IoError>, b: Result<seq<OsStr>, IoError>): Result<seq<OsStr>, IoError> {
    match a
    case Success(fs) => Prepend(fs, b)
    case Failure(e) => Failure(e)
  }

  lemma ThenAssociative(a: Result<seq<OsStr>, IoError>, b: Result<seq<OsStr>, IoError>, c: Result<seq<OsStr>, IoError>)
    ensures Then(Then(a, b), c) == Then(a, Then(b, c))
  {
    if a.Success? && b.Success? && c.Success? {
      assert (a.value + b.value) + c.value == a.value + (b.value + c.value);
    }
  }

  /** One loop step: the entry's contribution moves from the pending listing to the collected paths. */
  lemma PrependStep(collected: seq<OsStr>, entry: Result<seq<OsStr>, IoError>, rest: Result<seq<OsStr>, IoError>)
    ensures Prepend(collected, Then(entry, rest)) ==
      if entry.Failure? then Failure(entry.error) else Prepend(collected + entry.value, rest)
  {
    if entry.Success? && rest.Success? {
      assert collected + (entry.value + rest.value) == (collected + entry.value) + rest.value;
    }
  }

  lemma PrependNothing(r: Result<seq<OsStr>, IoError>)
    ensures Prepend([], r) == r
  {
    if r.Success? {
      assert [] + r.value == r.value;
    }
  }

  /**
   * What `_list_music_files` returns for the path `dir`, which resolves to
   * `kind`: nothing when it is not a directory, an error when it cannot be
   * read, otherwise what its entries contribute, in enumeration order.
   */
  function MusicFilesIn(dir: OsStr, kind: Kind, recursive: bool): (r: Result<seq<OsStr>, IoError>)
    ensures r.Success? ==> forall k :: 0 <= k < |r.value| ==> IsSupportedAudioFile(r.value[k])
    decreases kind
  {
    match kind
    case DirKind(Unreadable) => Failure(ReadDirError)
    case DirKind(Entries(items)) => MusicFilesAmong(dir, items, recursive)
    case _ => Success([])
  }

  function MusicFilesAmong(dir: OsStr, items: seq<Item>, recursive: bool): (r: Result<seq<OsStr>, IoError>)
    ensures r.Success? ==> forall k :: 0 <= k < |r.value| ==> IsSupportedAudioFile(r.value[k])
    decreases items
  {
    if items == [] then Success([])
    else Then(EntryMusicFiles(dir, items[0], recursive), MusicFilesAmong(dir, items[1..], recursive))
  }

  /**
   * One entry: a read error aborts; with `recursive`, a failing type query
   * aborts and a directory contributes its own recursive listing; otherwise
   * (files, and directories when not recursive) the entry's path is kept
   * when it passes the filter.
   */
  function EntryMusicFiles(dir: OsStr, item: Item, recursive: bool): (r: Result<seq<OsStr>, IoError>)
    ensures r.Success? ==> forall k :: 0 <= k < |r.value| ==> IsSupportedAudioFile(r.value[k])
    decreases item
  {
    match item
    case BadEntry => Failure(DirEntryError)
    case Good(name, kind) =>
      var path := Join(dir, name);
      if recursive && kind.UnknownKind? then Failure(FileTypeError)
      else if recursive && kind.DirKind? then MusicFilesIn(path, kind, true)
      else if IsSupportedAudioFile(path) then Success([path])
      else Success([])
  }

  /** `list_music_files`: lists the directory named by the string `dirToScan`. */
  method ListMusicFiles(dirToScan: string, root: Kind, recursive: bool) returns (r: Result<seq<OsStr>, IoError>)
    ensures r == MusicFilesIn(FromStr(dirToScan), root, recursive)
  {
    r := ListMusicFilesAt(FromStr(dirToScan), root, recursive);
  }

  /** `_list_music_files`: the loop over the entries, recursing into subdirectories. */
  method ListMusicFilesAt(dir: OsStr, kind: Kind, recursive: bool) returns (r: Result<seq<OsStr>, IoError>)
    ensures r == MusicFilesIn(dir, kind, recursive)
    decreases kind
  {
    var musicFiles: seq<OsStr> := [];
    if kind.DirKind? {
      if kind.listing.Unreadable? {
        return Failure(ReadDirError);
      }
      var items := kind.listing.items;
      assert items[0..] == items;
      PrependNothing(MusicFilesAmong(dir, items, recursive));
      for i := 0 to |items|
        invariant Prepend(musicFiles, MusicFilesAmong(dir, items[i..], recursive)) == MusicFilesAmong(dir, items, recursive)
      {
        assert items[i..][1..] == items[i + 1..];
        var item := items[i];
        var entry := EntryMusicFiles(dir, item, recursive);
        var rest := MusicFilesAmong(dir, items[i + 1..], recursive);
        assert MusicFilesAmong(dir, items[i..], recursive) == Then(entry, rest);
        PrependStep(musicFiles, entry, rest);
        if item.BadEntry? {
          return Failure(DirEntryError);
        }
        var path := Join(dir, item.name);
        if recursive && item.kind.UnknownKind? {
          return Failure(FileTypeError);
        }
        if recursive && item.kind.DirKind? {
          var sub := ListMusicFilesAt(path, item.kind, true);
          if sub.Failure? {
            return Failure(sub.error);
          }
          assert entry == sub;
          musicFiles := musicFiles + sub.value;
        } else if IsSupportedAudioFile(path) {
          assert entry == Success([path]);
          musicFiles := musicFiles + [path];
        } else {
          assert entry == Success([]);
          assert musicFiles + [] == musicFiles;
        }
      }
      assert items[|items|..] == [];
    }
    assert musicFiles + [] == musicFiles;
    return Success(musicFiles);
  }

  // ---------------------------------------------------------------------------
  // Properties of the listing
  // ---------------------------------------------------------------------------

  /** Keeps `f(x)` for every `x` with a value, in order. */
  function FilterMap<T, U>(xs: seq<T>, f: T -> Option<U>): (ys: seq<U>)
    ensures |ys| <= |xs|
  {
    if xs == [] then []
    else (match f(xs[0]) case Some(y) => [y] case None => []) + FilterMap(xs[1..], f)
  }

  lemma {:induction false} FilterMapAppend<T, U>(xs: seq<T>, zs: seq<T>, f: T -> Option<U>)
    ensures FilterMap(xs + zs, f) == FilterMap(xs, f) + FilterMap(zs, f)
  {
    if xs != [] {
      assert (xs + zs)[1..] == xs[1..] + zs;
      FilterMapAppend(xs[1..], zs, f);
    } else {
      assert xs + zs == zs;
    }
  }

  /** One more element of a prefix adds its value, if it has one, at the end. */
  lemma FilterMapExtend<T, U>(xs: seq<T>, i: nat, f: T -> Option<U>)
    requires i < |xs|
    ensures FilterMap(xs[..i + 1], f) == FilterMap(xs[..i], f) + if f(xs[i]).Some? then [f(xs[i]).value] else []
  {
    assert xs[..i + 1] == xs[..i] + [xs[i]];
    FilterMapAppend(xs[..i], [xs[i]], f);
    assert [xs[i]][1..] == [];
  }

  lemma {:induction false} FilterMapMembers<T, U>(xs: seq<T>, f: T -> Option<U>, y: U)
    ensures y in FilterMap(xs, f) <==> exists k :: 0 <= k < |xs| && f(xs[k]) == Some(y)
  {
    if xs != [] {
      FilterMapMembers(xs[1..], f, y);
      if exists k :: 0 <= k < |xs[1..]| && f(xs[1..][k]) == Some(y) {
        var k :| 0 <= k < |xs[1..]| && f(xs[1..][k]) == Some(y);
        assert f(xs[k + 1]) == Some(y);
      }
      if exists k :: 0 <= k < |xs| && f(xs[k]) == Some(y) {
        var k :| 0 <= k < |xs| && f(xs[k]) == Some(y);
        if k > 0 {
          assert f(xs[1..][k - 1]) == Some(y);
        }
      }
    }
  }

  /** The path an entry contributes to a non-recursive listing, if any. */
  function SupportedPath(dir: OsStr, item: Item): Option<OsStr> {
    if item.Good? && IsSupportedAudioFile(Join(dir, item.name)) then Some(Join(dir, item.name)) else None
  }

  /**
   * A non-recursive listing fails exactly when some entry cannot be read;
   * otherwise it is every entry whose path passes the filter, in
   * enumeration order, directories included (their kind is never asked).
   */
  lemma {:induction false} NonRecursiveListing(dir: OsStr, items: seq<Item>)
    ensures MusicFilesAmong(dir, items, false) ==
      if BadEntry in items then Failure(DirEntryError)
      else Success(FilterMap(items, item => SupportedPath(dir, item)))
  {
    if items != [] {
      NonRecursiveListing(dir, items[1..]);
      assert items == [items[0]] + items[1..];
    }
  }

  /** Listing a concatenation of entries is the first part's listing followed by the second's. */
  lemma {:induction false} MusicFilesAmongAppend(dir: OsStr, xs: seq<Item>, ys: seq<Item>, recursive: bool)
    ensures MusicFilesAmong(dir, xs + ys, recursive) ==
      Then(MusicFilesAmong(dir, xs, recursive), MusicFilesAmong(dir, ys, recursive))
  {
    if xs == [] {
      assert xs + ys == ys;
      PrependNothing(MusicFilesAmong(dir, ys, recursive));
    } else {
      assert (xs + ys)[1..] == xs[1..] + ys;
      MusicFilesAmongAppend(dir, xs[1..], ys, recursive);
      ThenAssociative(EntryMusicFiles(dir, xs[0], recursive),
        MusicFilesAmong(dir, xs[1..], recursive), MusicFilesAmong(dir, ys, recursive));
    }
  }

  /**
   * In a recursive listing a subdirectory's own recursive listing is spliced
   * in at the subdirectory's position.
   */
  lemma RecursiveSplice(dir: OsStr, before: seq<Item>, name: OsStr, sub: Listing, after: seq<Item>)
    ensures MusicFilesAmong(dir, before + [Good(name, DirKind(sub))] + after, true) ==
      Then(MusicFilesAmong(dir, before, true),
           Then(MusicFilesIn(Join(dir, name), DirKind(sub), true), MusicFilesAmong(dir, after, true)))
  {
    var d := Good(name, DirKind(sub));
    MusicFilesAmongAppend(dir, before, [d] + after, true);
    assert before + [d] + after == before + ([d] + after);
    assert ([d] + after)[1..] == after;
  }

  /** Something in the tree that makes a listing fail. */
  predicate Faulty(kind: Kind, recursive: bool)
    decreases kind
  {
    match kind
    case DirKind(Unreadable) => true
    case DirKind(Entries(items)) => exists k :: 0 <= k < |items| && EntryFaulty(items[k], recursive)
    case _ => false
  }

  predicate EntryFaulty(item: Item, recursive: bool)
    decreases item
  {
    match item
    case BadEntry => true
    case Good(_, kind) => recursive && (kind.UnknownKind? || (kind.DirKind? && Faulty(kind, true)))
  }

  /** A listing fails exactly when some read, entry or type query it makes fails, at any depth. */
  lemma {:induction false} ListingFailsIffFaulty(dir: OsStr, kind: Kind, recursive: bool)
    ensures MusicFilesIn(dir, kind, recursive).Failure? <==> Faulty(kind, recursive)
    decreases kind
  {
    match kind
    case DirKind(Entries(items)) => AmongFailsIffFaulty(dir, items, recursive);
    case _ =>
  }

  /** Some entry is faulty exactly when the first one is or some later one is. */
  lemma SomeEntryFaulty(items: seq<Item>, recursive: bool)
    requires items != []
    ensures (exists k :: 0 <= k < |items| && EntryFaulty(items[k], recursive)) <==>
      EntryFaulty(items[0], recursive) || exists k :: 0 <= k < |items[1..]| && EntryFaulty(items[1..][k], recursive)
  {
    if exists k :: 0 <= k < |items[1..]| && EntryFaulty(items[1..][k], recursive) {
      var k :| 0 <= k < |items[1..]| && EntryFaulty(items[1..][k], recursive);
      assert EntryFaulty(items[k + 1], recursive);
    }
    if !EntryFaulty(items[0], recursive) && exists k :: 0 <= k < |items| && EntryFaulty(items[k], recursive) {
      var k :| 0 <= k < |items| && EntryFaulty(items[k], recursive);
      assert EntryFaulty(items[1..][k - 1], recursive);
    }
  }

  lemma {:induction false} AmongFailsIffFaulty(dir: OsStr, items: seq<Item>, recursive: bool)
    ensures MusicFilesAmong(dir, items, recursive).Failure? <==>
      exists k :: 0 <= k < |items| && EntryFaulty(items[k], recursive)
    decreases items
  {
    if items != [] {
      var head := items[0];
      if head.Good? && recursive && head.kind.DirKind? {
        ListingFailsIffFaulty(Join(dir, head.name), head.kind, true);
      }
      AmongFailsIffFaulty(dir, items[1..], recursive);
      SomeEntryFaulty(items, recursive);
    }
  }

  /** The paths of every non-directory entry reachable from `dir`. */
  ghost function FilePaths(dir: OsStr, kind: Kind): set<OsStr>
    decreases kind
  {
    match kind
    case DirKind(Entries(items)) => FilePathsAmong(dir, items)
    case _ => {}
  }

  ghost function FilePathsAmong(dir: OsStr, items: seq<Item>): set<OsStr>
    decreases items
  {
    if items == [] then {}
    else
      (match items[0]
       case BadEntry => {}
       case Good(name, kind) => if kind.DirKind? then FilePaths(Join(dir, name), kind) else {Join(dir, name)})
      + FilePathsAmong(dir, items[1..])
  }

  /**
   * A successful recursive listing holds exactly the supported files of the
   * whole tree: no directory is ever listed as a file.
   */
  lemma {:induction false} RecursiveListingIsExact(dir: OsStr, kind: Kind, p: OsStr)
    requires MusicFilesIn(dir, kind, true).Success?
    ensures p in MusicFilesIn(dir, kind, true).value <==> p in FilePaths(dir, kind) && IsSupportedAudioFile(p)
    decreases kind
  {
    match kind
    case DirKind(Entries(items)) => RecursiveAmongIsExact(dir, items, p);
    case _ =>
  }

  lemma {:induction false} RecursiveAmongIsExact(dir: OsStr, items: seq<Item>, p: OsStr)
    requires MusicFilesAmong(dir, items, true).Success?
    ensures p in MusicFilesAmong(dir, items, true).value <==> p in FilePathsAmong(dir, items) && IsSupportedAudioFile(p)
    decreases items
  {
    if items != [] {
      var head := items[0];
      if head.Good? && head.kind.DirKind? {
        RecursiveListingIsExact(Join(dir, head.name), head.kind, p);
      }
      RecursiveAmongIsExact(dir, items[1..], p);
    }
  }

  // ---------------------------------------------------------------------------
  // sub_directories
  // ---------------------------------------------------------------------------

  /** The name a directory entry contributes: only directories, and only UTF-8 names. */
  function DirName(item: Item): Option<string> {
    if item.Good? && item.kind.DirKind? then ToStr(item.name) else None
  }

  predicate MetadataFails(item: Item) {
    item.Good? && item.kind.UnknownKind?
  }

  /**
   * What `sub_directories` returns for a starting directory that resolves
   * to `dir`: an error when it cannot be read or some entry's metadata
   * cannot be queried; otherwise the UTF-8 names of its directory entries,
   * in enumeration order (unreadable entries are skipped).
   */
  function SubDirectoriesOf(dir: Kind): (r: Result<seq<string>, IoError>)
    ensures r.Failure? <==> (!(dir.DirKind? && dir.listing.Entries?) ||
      exists k :: 0 <= k < |dir.listing.items| && MetadataFails(dir.listing.items[k]))
    ensures r.Failure? ==> r.error == (if dir.DirKind? && dir.listing.Entries? then MetadataError else ReadDirError)
    ensures r.Success? ==> |r.value| <= |dir.listing.items|
  {
    match dir
    case DirKind(Entries(items)) =>
      if exists k :: 0 <= k < |items| && MetadataFails(items[k]) then Failure(MetadataError)
      else Success(FilterMap(items, DirName))
    case _ => Failure(ReadDirError)
  }

  /** `sub_directories`: the loop over the entries. */
  method SubDirectories(dir: Kind) returns (r: Result<seq<string>, IoError>)
    ensures r == SubDirectoriesOf(dir)
  {
    if !(dir.DirKind? && dir.listing.Entries?) {
      return Failure(ReadDirError);
    }
    var items := dir.listing.items;
    var subdirs: seq<string> := [];
    for i := 0 to |items|
      invariant forall k :: 0 <= k < i ==> !MetadataFails(items[k])
      invariant subdirs == FilterMap(items[..i], DirName)
    {
      var item := items[i];
      FilterMapExtend(items, i, DirName);
      if item.Good? {
        if item.kind.UnknownKind? {
          return Failure(MetadataError);
        }
        if item.kind.DirKind? {
          match ToStr(item.name) {
            case Some(finalDirName) =>
              assert DirName(item) == Some(finalDirName);
              subdirs := subdirs + [finalDirName];
            case None =>
              assert DirName(item) == None;
          }
        } else {
          assert DirName(item) == None;
        }
      } else {
        assert DirName(item) == None;
      }
    }
    assert items[..|items|] == items;
    return Success(subdirs);
  }

  /** Every returned name is the UTF-8 name of a directory entry, and every such name is returned. */
  lemma SubDirectoriesAreDirectories(dir: Kind, s: string)
    requires SubDirectoriesOf(dir).Success?
    ensures s in SubDirectoriesOf(dir).value <==>
      exists k :: 0 <= k < |dir.listing.items| && dir.listing.items[k].Good? &&
        dir.listing.items[k].kind.DirKind? && ToStr(dir.listing.items[k].name) == Some(s)
  {
    FilterMapMembers(dir.listing.items, DirName, s);
  }
}
