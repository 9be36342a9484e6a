/**
 * yt-dlp post-processor SavePlaylistPP: after each download it appends the
 * downloaded file's base name, one per line, to `<dir>/<playlist title>.m3u`
 * beside the file. The filesystem is a map from path to file contents.
 */
module PlaylistPlugin {
  import opened Wrappers
  import opened PosixPath

  /** How a key of yt-dlp's info dictionary is present: missing, mapped to None, or mapped to a value. */
  datatype Field<T> = Missing | Null | Present(value: T)

  /** `d.get(key)`: the value, or None for a missing key and for a key mapped to None. */
  function Get<T>(f: Field<T>): Option<T> {
    if f.Present? then Some(f.value) else None
  }

  /** One element of `requested_downloads`. */
  datatype Download = Download(filepath: Field<string>)

  /** The keys of the info dictionary that `run` consults. */
  datatype Info = Info(
    playlistTitle: Field<string>,                 // 'playlist_title'
    kind: Field<string>,                          // '_type'
    filepath: Field<string>,                      // 'filepath'
    requestedDownloads: Field<seq<Download>>,     // 'requested_downloads'
    filename: Field<string>)                      // '_filename'

  type Files = map<string, string>

  /** What `run` hands back: the files to delete and the info dictionary, or a raised TypeError. */
  datatype RunResult = Returned(filesToDelete: seq<string>, info: Info) | RaisedTypeError

  /** Filesystem after a sequence of appends, and whether the last of them raised. */
  datatype Effect = Effect(files: Files, raised: bool)

  /** `info.get('playlist_title', 'playlist')`, as the f-string renders it (None prints as "None"). */
  function PlaylistTitle(info: Info): string {
    match info.playlistTitle
    case Missing => "playlist"
    case Null => "None"
    case Present(t) => t
  }

  /** `info.get('_type', 'video') == 'video'`. */
  predicate IsVideo(info: Info) {
    match info.kind
    case Missing => true
    case Null => false
    case Present(k) => k == "video"
  }

  /** Python truthiness of `info.get('filepath')`. */
  predicate HasFilepath(info: Info) {
    info.filepath.Present? && info.filepath.value != ""
  }

  /** Python truthiness of `info.get('requested_downloads')`. */
  predicate HasDownloads(info: Info) {
    info.requestedDownloads.Present? && info.requestedDownloads.value != []
  }

  /** `[f.get('filepath') for f in downloads]`. */
  function DownloadPaths(ds: seq<Download>): seq<Option<string>> {
    seq(|ds|, i requires 0 <= i < |ds| => Get(ds[i].filepath))
  }

  /** The paths `run` passes to append_to_playlist_file, in call order. */
  function RecordedPaths(info: Info): seq<Option<string>> {
    if !IsVideo(info) then []
    else if HasFilepath(info) then [Some(info.filepath.value)]
    else if HasDownloads(info) then DownloadPaths(info.requestedDownloads.value)
    else [Get(info.filename)]
  }

  /** `os.path.join(os.path.dirname(filepath), f'{title}.m3u')`. */
  function PlaylistPath(title: string, filepath: string): string {
    Join(DirName(filepath), title + ".m3u")
  }

  /** The line written for a file: its base name and a newline. */
  function Entry(filepath: string): string {
    BaseName(filepath) + "\n"
  }

  /** What a file opened in append mode starts with: its contents, or nothing when it does not exist. */
  function Contents(files: Files, path: string): string {
    if path in files then files[path] else ""
  }

  /** Writing `text` to `path` opened with mode 'a+'. */
  function Appended(files: Files, path: string, text: string): (r: Files)
    ensures r.Keys == files.Keys + {path}
    ensures r[path] == Contents(files, path) + text
    ensures forall q :: q in files && q != path ==> r[q] == files[q]
  {
    files[path := Contents(files, path) + text]
  }

  /**
   * The effect of calling append_to_playlist_file on each path in turn; the
   * first None raises TypeError inside os.path.dirname, after the earlier
   * appends have been written.
   */
  function AppendEach(files: Files, title: string, paths: seq<Option<string>>): Effect
    decreases |paths|
  {
    if paths == [] then Effect(files, false)
    else match paths[0]
      case None => Effect(files, true)
      case Some(p) => AppendEach(Appended(files, PlaylistPath(title, p), Entry(p)), title, paths[1..])
  }

  /** The effect of `run(info)` on the filesystem. */
  function RunEffect(files: Files, info: Info): Effect {
    AppendEach(files, PlaylistTitle(info), RecordedPaths(info))
  }

  /** The playlist files the appends of a path sequence write to, up to the first None. */
  function Targets(title: string, paths: seq<Option<string>>): set<string> {
    if paths == [] || paths[0].None? then {}
    else {PlaylistPath(title, paths[0].value)} + Targets(title, paths[1..])
  }

  /** The text the appends of a sequence of present paths write, in order. */
  function Lines(paths: seq<string>): string {
    if paths == [] then "" else Entry(paths[0]) + Lines(paths[1..])
  }

  function NewlineCount(s: string): nat {
    if s == [] then 0 else (if s[0] == '\n' then 1 else 0) + NewlineCount(s[1..])
  }

  // ---------------------------------------------------------------------
  // Properties of the appends

  /** Appending never shrinks or rewrites a file: every existing file keeps its contents as a prefix. */
  lemma {:induction false} AppendEachOnlyGrows(files: Files, title: string, paths: seq<Option<string>>)
    ensures forall q :: q in files ==> q in AppendEach(files, title, paths).files
    ensures forall q :: q in files ==> files[q] <= AppendEach(files, title, paths).files[q]
    decreases |paths|
  {
    if paths != [] && paths[0].Some? {
      var p := paths[0].value;
      var next := Appended(files, PlaylistPath(title, p), Entry(p));
      AppendEachOnlyGrows(next, title, paths[1..]);
      forall q | q in files
        ensures files[q] <= AppendEach(files, title, paths).files[q]
      {
        assert files[q] <= next[q];
      }
    }
  }

  /** Only the playlist files of the recorded paths are created or changed. */
  lemma {:induction false} AppendEachFrame(files: Files, title: string, paths: seq<Option<string>>)
    ensures AppendEach(files, title, paths).files.Keys == files.Keys + Targets(title, paths)
    ensures forall q :: q in files && q !in Targets(title, paths) ==> AppendEach(files, title, paths).files[q] == files[q]
    decreases |paths|
  {
    if paths != [] && paths[0].Some? {
      var p := paths[0].value;
      AppendEachFrame(Appended(files, PlaylistPath(title, p), Entry(p)), title, paths[1..]);
    }
  }

  /** The appends raise exactly when some recorded path is None. */
  lemma {:induction false} AppendEachRaises(files: Files, title: string, paths: seq<Option<string>>)
    ensures AppendEach(files, title, paths).raised <==> exists i :: 0 <= i < |paths| && paths[i].None?
    decreases |paths|
  {
    if paths == [] {
    } else if paths[0].None? {
      assert AppendEach(files, title, paths).raised;
    } else {
      var p := paths[0].value;
      var next := Appended(files, PlaylistPath(title, p), Entry(p));
      var rest := paths[1..];
      assert AppendEach(files, title, paths) == AppendEach(next, title, rest);
      AppendEachRaises(next, title, rest);
      assert forall i :: 0 <= i < |rest| ==> rest[i] == paths[i + 1];
      if exists i :: 0 <= i < |paths| && paths[i].None? {
        var i :| 0 <= i < |paths| && paths[i].None?;
        assert rest[i - 1].None?;
      }
    }
  }

  function Somes(ps: seq<string>): (r: seq<Option<string>>)
    ensures |r| == |ps| && forall i :: 0 <= i < |ps| ==> r[i] == Some(ps[i])
  {
    seq(|ps|, i requires 0 <= i < |ps| => Some(ps[i]))
  }

  /** Two appends to one file are one append of both texts. */
  lemma AppendedTwice(files: Files, path: string, a: string, b: string)
    ensures Appended(Appended(files, path, a), path, b) == Appended(files, path, a + b)
  {
    assert Contents(files, path) + a + b == Contents(files, path) + (a + b);
  }

  /**
   * Files whose playlist is the same file `target` add their lines to it in
   * order, one line per file, and nothing raises.
   */
  lemma {:induction false} AppendEachSamePlaylist(files: Files, title: string, ps: seq<string>, target: string)
    requires ps != []
    requires forall i :: 0 <= i < |ps| ==> PlaylistPath(title, ps[i]) == target
    ensures AppendEach(files, title, Somes(ps)) == Effect(Appended(files, target, Lines(ps)), false)
    decreases |ps|
  {
    var e := Entry(ps[0]);
    var next := Appended(files, target, e);
    assert Somes(ps)[1..] == Somes(ps[1..]);
    assert Lines(ps) == e + Lines(ps[1..]);
    if |ps| == 1 {
      assert Lines(ps[1..]) == "";
      assert e + "" == e;
    } else {
      AppendEachSamePlaylist(next, title, ps[1..], target);
      AppendedTwice(files, target, e, Lines(ps[1..]));
    }
  }

  /** The elements of `ps` that `keep` accepts, in their order in `ps`. */
  function Filter(ps: seq<string>, keep: string -> bool): (r: seq<string>)
    ensures |r| <= |ps|
    ensures forall i :: 0 <= i < |r| ==> keep(r[i]) && r[i] in ps
    decreases |ps|
  {
    if ps == [] then [] else (if keep(ps[0]) then [ps[0]] else []) + Filter(ps[1..], keep)
  }

  /** Nothing accepted is lost. */
  lemma {:induction false} FilterKeeps(ps: seq<string>, keep: string -> bool, i: nat)
    requires i < |ps| && keep(ps[i])
    ensures ps[i] in Filter(ps, keep)
    decreases i
  {
    if i > 0 {
      assert ps[1..][i - 1] == ps[i];
      FilterKeeps(ps[1..], keep, i - 1);
    }
  }

  /** When `keep` accepts every element, the whole sequence is kept. */
  lemma {:induction false} FilterAll(ps: seq<string>, keep: string -> bool)
    requires forall i :: 0 <= i < |ps| ==> keep(ps[i])
    ensures Filter(ps, keep) == ps
    decreases |ps|
  {
    if ps != [] {
      assert forall i :: 0 <= i < |ps[1..]| ==> ps[1..][i] == ps[i + 1];
      FilterAll(ps[1..], keep);
      assert [ps[0]] + ps[1..] == ps;
    }
  }

  /** Order is kept: the filter of a concatenation is the filter of each part, first part first. */
  lemma {:induction false} FilterConcat(a: seq<string>, b: seq<string>, keep: string -> bool)
    ensures Filter(a + b, keep) == Filter(a, keep) + Filter(b, keep)
    decreases |a|
  {
    if a == [] {
      assert a + b == b;
    } else {
      assert (a + b)[0] == a[0];
      assert (a + b)[1..] == a[1..] + b;
      FilterConcat(a[1..], b, keep);
      var mine := if keep(a[0]) then [a[0]] else [];
      assert mine + (Filter(a[1..], keep) + Filter(b, keep)) == (mine + Filter(a[1..], keep)) + Filter(b, keep);
    }
  }

  /** The files of `ps` whose playlist is `target`, in their order in `ps`. */
  function OnPlaylist(title: string, ps: seq<string>, target: string): seq<string> {
    Filter(ps, p => PlaylistPath(title, p) == target)
  }

  /**
   * Files spread over any number of playlists: every file path `t` ends up
   * holding what it held before, followed by the lines of exactly the files
   * whose playlist is `t`, in their order; nothing raises.
   */
  lemma {:induction false} AppendEachPerPlaylist(files: Files, title: string, ps: seq<string>, t: string)
    ensures !AppendEach(files, title, Somes(ps)).raised
    ensures Contents(AppendEach(files, title, Somes(ps)).files, t) == Contents(files, t) + Lines(OnPlaylist(title, ps, t))
    decreases |ps|
  {
    if ps == [] {
      assert Contents(files, t) + "" == Contents(files, t);
    } else {
      var p := ps[0];
      var q := PlaylistPath(title, p);
      var next := Appended(files, q, Entry(p));
      var rest := OnPlaylist(title, ps[1..], t);
      AppendEachSomesStep(files, title, ps);
      AppendEachPerPlaylist(next, title, ps[1..], t);
      ContentsAppended(files, q, Entry(p), t);
      var after := AppendEach(next, title, Somes(ps[1..])).files;
      if q == t {
        OnPlaylistHere(title, ps, t);
        LinesCons(p, rest);
        Chain(Contents(files, t), Entry(p), Lines(rest), Contents(next, t), Contents(after, t));
      } else {
        OnPlaylistElsewhere(title, ps, t);
        Chain(Contents(files, t), "", Lines(rest), Contents(next, t), Contents(after, t));
      }
    }
  }

  lemma OnPlaylistHere(title: string, ps: seq<string>, t: string)
    requires ps != [] && PlaylistPath(title, ps[0]) == t
    ensures OnPlaylist(title, ps, t) == [ps[0]] + OnPlaylist(title, ps[1..], t)
  {
    var keep := p => PlaylistPath(title, p) == t;
    assert keep(ps[0]);
  }

  lemma OnPlaylistElsewhere(title: string, ps: seq<string>, t: string)
    requires ps != [] && PlaylistPath(title, ps[0]) != t
    ensures OnPlaylist(title, ps, t) == OnPlaylist(title, ps[1..], t)
  {
    assert [] + OnPlaylist(title, ps[1..], t) == OnPlaylist(title, ps[1..], t);
  }

  lemma Chain(before: string, first: string, others: string, middle: string, end: string)
    requires middle == before + first && end == middle + others
    ensures end == before + (first + others)
  {
  }

  lemma LinesCons(p: string, rest: seq<string>)
    ensures Lines([p] + rest) == Entry(p) + Lines(rest)
  {
    assert ([p] + rest)[1..] == rest;
  }

  /** The appends of present paths, one step unfolded. */
  lemma AppendEachSomesStep(files: Files, title: string, ps: seq<string>)
    requires ps != []
    ensures AppendEach(files, title, Somes(ps)) ==
      AppendEach(Appended(files, PlaylistPath(title, ps[0]), Entry(ps[0])), title, Somes(ps[1..]))
  {
    assert Somes(ps)[0] == Some(ps[0]);
    assert Somes(ps)[1..] == Somes(ps[1..]);
  }

  /** What an append leaves at any one path. */
  lemma ContentsAppended(files: Files, path: string, text: string, t: string)
    ensures Contents(Appended(files, path, text), t) == Contents(files, t) + (if path == t then text else "")
  {
    if path != t {
      assert Contents(files, t) + "" == Contents(files, t);
    }
  }

  lemma {:induction false} NewlineCountConcat(a: string, b: string)
    ensures NewlineCount(a + b) == NewlineCount(a) + NewlineCount(b)
    decreases |a|
  {
    if a == [] {
      assert a + b == b;
    } else {
      assert (a + b)[1..] == a[1..] + b;
      NewlineCountConcat(a[1..], b);
    }
  }

  /** n files whose names hold no newline add exactly n lines. */
  lemma {:induction false} LinesCount(ps: seq<string>)
    requires forall i :: 0 <= i < |ps| ==> '\n' !in BaseName(ps[i])
    ensures NewlineCount(Lines(ps)) == |ps|
    decreases |ps|
  {
    if ps != [] {
      var b := BaseName(ps[0]);
      LinesCount(ps[1..]);
      NewlineCountConcat(b, "\n");
      NewlineCountConcat(b + "\n", Lines(ps[1..]));
      assert NewlineCount(b) == 0 by {
        NoNewline(b);
      }
    }
  }

  lemma {:induction false} NoNewline(s: string)
    requires '\n' !in s
    ensures NewlineCount(s) == 0
    decreases |s|
  {
    if s != [] {
      assert s[0] in s;
      NoNewline(s[1..]);
    }
  }

  // ---------------------------------------------------------------------
  // Properties of run

  /** The title is "playlist" when the info has none, and the given title otherwise. */
  lemma PlaylistTitleDefault(info: Info)
    ensures info.playlistTitle.Missing? ==> PlaylistTitle(info) == "playlist"
    ensures info.playlistTitle.Present? ==> PlaylistTitle(info) == info.playlistTitle.value
  {
  }

  /**
   * When the info is not a video's (a `_type` other than "video", or None),
   * nothing is written and nothing raises, whatever paths the info holds.
   */
  lemma NotVideoWritesNothing(files: Files, info: Info)
    requires !IsVideo(info)
    ensures RunEffect(files, info) == Effect(files, false)
  {
  }

  /**
   * A video's non-empty `filepath` yields exactly one appended line, its base
   * name, in the playlist beside it; `requested_downloads` and `_filename`
   * play no part.
   */
  lemma FilepathRecorded(files: Files, info: Info, downloads: Field<seq<Download>>, filename: Field<string>)
    requires IsVideo(info) && HasFilepath(info)
    ensures var fp := info.filepath.value;
      RunEffect(files, info) == Effect(Appended(files, PlaylistPath(PlaylistTitle(info), fp), Entry(fp)), false)
    ensures RunEffect(files, info) == RunEffect(files, info.(requestedDownloads := downloads, filename := filename))
  {
    var fp := info.filepath.value;
    var next := Appended(files, PlaylistPath(PlaylistTitle(info), fp), Entry(fp));
    assert RecordedPaths(info) == [Some(fp)];
    assert [Some(fp)][1..] == [];
    assert AppendEach(files, PlaylistTitle(info), [Some(fp)]) == AppendEach(next, PlaylistTitle(info), []);
  }

  /**
   * Without a `filepath`, the downloads of a video are recorded one line per
   * download, in list order; when they share a directory they all go to one
   * playlist file, which grows by one line per download.
   */
  lemma DownloadsRecorded(files: Files, info: Info, ps: seq<string>)
    requires IsVideo(info) && !HasFilepath(info) && HasDownloads(info)
    requires |ps| == |info.requestedDownloads.value|
    requires forall i :: 0 <= i < |ps| ==> info.requestedDownloads.value[i].filepath == Present(ps[i])
    requires forall i :: 0 <= i < |ps| ==> DirName(ps[i]) == DirName(ps[0])
    requires forall i :: 0 <= i < |ps| ==> '\n' !in BaseName(ps[i])
    ensures var target := PlaylistPath(PlaylistTitle(info), ps[0]);
      && RunEffect(files, info) == Effect(Appended(files, target, Lines(ps)), false)
      && NewlineCount(Lines(ps)) == |ps|
  {
    var title := PlaylistTitle(info);
    assert RecordedPaths(info) == Somes(ps);
    AppendEachSamePlaylist(files, title, ps, PlaylistPath(title, ps[0]));
    LinesCount(ps);
  }

  /**
   * Without a `filepath`, each download adds its line to the playlist beside
   * it, wherever that is: every playlist grows by exactly the lines of its
   * own downloads, one per download, in download order.
   */
  lemma DownloadsRecordedPerPlaylist(files: Files, info: Info, ps: seq<string>, t: string)
    requires IsVideo(info) && !HasFilepath(info) && HasDownloads(info)
    requires |ps| == |info.requestedDownloads.value|
    requires forall i :: 0 <= i < |ps| ==> info.requestedDownloads.value[i].filepath == Present(ps[i])
    ensures var mine := OnPlaylist(PlaylistTitle(info), ps, t);
      && !RunEffect(files, info).raised
      && Contents(RunEffect(files, info).files, t) == Contents(files, t) + Lines(mine)
      && ((forall i :: 0 <= i < |ps| ==> '\n' !in BaseName(ps[i])) ==> NewlineCount(Lines(mine)) == |mine|)
  {
    var title := PlaylistTitle(info);
    var mine := OnPlaylist(title, ps, t);
    assert RecordedPaths(info) == Somes(ps);
    AppendEachPerPlaylist(files, title, ps, t);
    if forall i :: 0 <= i < |ps| ==> '\n' !in BaseName(ps[i]) {
      forall i | 0 <= i < |mine|
        ensures '\n' !in BaseName(mine[i])
      {
        var j :| 0 <= j < |ps| && ps[j] == mine[i];
      }
      LinesCount(mine);
    }
  }

  /**
   * Otherwise the single recorded path is `_filename`; a missing or None
   * `_filename` raises TypeError before anything is written.
   */
  lemma FilenameRecorded(files: Files, info: Info)
    requires IsVideo(info) && !HasFilepath(info) && !HasDownloads(info)
    ensures info.filename.Present? ==> var fn := info.filename.value;
      RunEffect(files, info) == Effect(Appended(files, PlaylistPath(PlaylistTitle(info), fn), Entry(fn)), false)
    ensures !info.filename.Present? ==> RunEffect(files, info) == Effect(files, true)
  {
    assert RecordedPaths(info) == [Get(info.filename)];
    assert [Get(info.filename)][1..] == [];
    if info.filename.Present? {
      var fn := info.filename.value;
      var next := Appended(files, PlaylistPath(PlaylistTitle(info), fn), Entry(fn));
      assert AppendEach(files, PlaylistTitle(info), [Some(fn)]) == AppendEach(next, PlaylistTitle(info), []);
    }
  }

  /**
   * The playlist lies in the directory of the recorded file and is named
   * after the title; the line written is relative (a bare file name) and,
   * read from the playlist's directory, names the recorded file again.
   */
  lemma EntryBesidePlaylist(title: string, filepath: string)
    requires Sep !in title
    ensures DirName(PlaylistPath(title, filepath)) == DirName(filepath)
    ensures BaseName(PlaylistPath(title, filepath)) == title + ".m3u"
    ensures Sep !in BaseName(filepath)
    ensures NoDoubledSeps(filepath) ==> Join(DirName(PlaylistPath(title, filepath)), BaseName(filepath)) == filepath
  {
    assert Sep !in title + ".m3u";
    DirNameOfJoin(DirName(filepath), title + ".m3u");
    if NoDoubledSeps(filepath) {
      JoinDirBase(filepath);
    }
  }

  /**
   * The title is not sanitised: a title that starts with a separator makes
   * the playlist path absolute, wherever the recorded file lies.
   */
  lemma AbsoluteTitleEscapes(title: string, filepath: string)
    requires title != [] && title[0] == Sep
    ensures PlaylistPath(title, filepath) == title + ".m3u"
  {
    assert (title + ".m3u")[0] == title[0];
  }

  /**
   * A separator inside the title splits it: the playlist file is no longer
   * named `title.m3u`, so the part of the title before the last separator
   * becomes directories below (or, for a leading one, instead of) the
   * recorded file's directory.
   */
  lemma SeparatorTitleSplits(title: string, filepath: string)
    requires Sep in title
    ensures BaseName(PlaylistPath(title, filepath)) != title + ".m3u"
  {
    var i :| 0 <= i < |title| && title[i] == Sep;
    assert (title + ".m3u")[i] == Sep;
  }

  // ---------------------------------------------------------------------
  // The imperative plugin, over a mutable filesystem

  class FileSystem {
    var files: Files

    constructor (files: Files)
      ensures this.files == files
    {
      this.files := files;
    }

    /** `open(path, 'a+').write(text)`. */
    method Append(path: string, text: string)
      modifies this
      ensures files == Appended(old(files), path, text)
    {
      files := files[path := Contents(files, path) + text];
    }
  }

  /** `SavePlaylistPP.append_to_playlist_file(title, filepath)`; false when it raised TypeError. */
  method AppendToPlaylistFile(fs: FileSystem, title: string, filepath: Option<string>) returns (ok: bool)
    modifies fs
    ensures ok == filepath.Some?
    ensures fs.files == AppendEach(old(fs.files), title, [filepath]).files
  {
    if filepath.None? {
      return false;
    }
    var playlistPath := Join(DirName(filepath.value), title + ".m3u");
    fs.Append(playlistPath, BaseName(filepath.value) + "\n");
    ok := true;
    assert [filepath][1..] == [];
  }

  /** `SavePlaylistPP.run(info)`. */
  method Run(fs: FileSystem, info: Info) returns (r: RunResult)
    modifies fs
    ensures fs.files == RunEffect(old(fs.files), info).files
    ensures r == if RunEffect(old(fs.files), info).raised then RaisedTypeError else Returned([], info)
  {
    var title := PlaylistTitle(info);
    var ok := true;
    if !IsVideo(info) {
      // Called for a playlist: only a warning is reported.
    } else if HasFilepath(info) {
      ok := AppendToPlaylistFile(fs, title, Some(info.filepath.value));
    } else if HasDownloads(info) {
      var filepaths := DownloadPaths(info.requestedDownloads.value);
      var i := 0;
      while i < |filepaths|
        invariant 0 <= i <= |filepaths|
        invariant AppendEach(old(fs.files), title, filepaths) == AppendEach(fs.files, title, filepaths[i..])
      {
        assert filepaths[i..][1..] == filepaths[i + 1..];
        ok := AppendToPlaylistFile(fs, title, filepaths[i]);
        if !ok {
          return RaisedTypeError;
        }
        i := i + 1;
      }
    } else {
      ok := AppendToPlaylistFile(fs, title, Get(info.filename));
    }
    if !ok {
      return RaisedTypeError;
    }
    r := Returned([], info);
  }
}
