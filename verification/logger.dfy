/**
 * pkg/logger: caller formatting, the daily-rotating file writer (its file names,
 * its rotation rule and the cleanup of old files) and the XORM logger adapter.
 *
 * Dates are the "YYYY-MM-DD" strings the code formats from the clock; they are
 * parameters here. File-system calls are parameters that stand for their
 * outcomes, and each log file's contents are a map entry of the writer.
 */
module Logger {

  import opened Wrappers
  import opened Strings
  import opened Errs

  type byte = x: int | 0 <= x < 256

  // ---------------------------------------------------------------- formatCaller

  const ProjectMarker: string := "godex/"

  /** The file path after the last "godex/", or the whole path when there is none. */
  function AfterProject(file: string): (r: string)
    ensures HasSuffix(file, r)
    ensures !Contains(r, ProjectMarker)
    ensures Contains(file, ProjectMarker) ==> HasSuffix(file, ProjectMarker + r)
    ensures !Contains(file, ProjectMarker) ==> r == file
  {
    var idx := LastIndex(file, ProjectMarker);
    if idx == -1 then file
    else
      var r := file[idx + |ProjectMarker|..];
      assert file[idx..] == ProjectMarker + r;
      forall j | 0 <= j <= |r| - |ProjectMarker|
        ensures !OccursAt(r, ProjectMarker, j)
      {
        if OccursAt(r, ProjectMarker, j) {
          OccursInSuffix(file, idx + |ProjectMarker|, ProjectMarker, j);
        }
      }
      r
  }

  /** At most the last two '/'-separated parts of the path after the project
      directory. */
  function CallerPath(file: string): (p: string)
    ensures HasSuffix(AfterProject(file), p)
    ensures CountChar(p, '/') <= 1
    ensures CountChar(AfterProject(file), '/') <= 1 ==> p == AfterProject(file)
  {
    LastTwoParts(AfterProject(file))
  }

  /** The last two '/'-separated parts of a path, or the whole path when it has
      at most two. */
  function LastTwoParts(f: string): (p: string)
    ensures HasSuffix(f, p)
    ensures CountChar(p, '/') <= 1
    ensures CountChar(f, '/') <= 1 ==> p == f
    ensures CountChar(f, '/') >= 2 ==> CountChar(p, '/') == 1 && |p| < |f| && f[|f| - |p| - 1] == '/'
  {
    var parts := Split(f, '/');
    if |parts| > 2 then
      var k := |parts| - 2;
      var p := Join(parts[k..], '/');
      LastTwoPartsShape(f, parts, k, p);
      p
    else
      FewParts(f);
      f
  }

  /** A path of at most two parts holds at most one '/' and is its own suffix. */
  lemma FewParts(f: string)
    requires |Split(f, '/')| <= 2
    ensures CountChar(f, '/') <= 1 && HasSuffix(f, f)
  {
    SplitCount(f, '/');
    assert f[|f| - |f|..] == f;
  }

  lemma LastTwoPartsShape(f: string, parts: seq<string>, k: nat, p: string)
    requires parts == Split(f, '/') && |parts| > 2 && k == |parts| - 2 && p == Join(parts[k..], '/')
    ensures CountChar(f, '/') >= 2
    ensures HasSuffix(f, p) && CountChar(p, '/') == 1 && |p| < |f| && f[|f| - |p| - 1] == '/'
  {
    SplitCount(f, '/');
    JoinSplit(f, '/');
    JoinAt(parts, '/', k);
    var head := Join(parts[..k], '/');
    assert f == head + ['/'] + p;
    assert parts[k..][1..] == [parts[k + 1]];
    assert p == parts[k] + ['/'] + parts[k + 1];
    CountCharAbsent(parts[k], '/');
    CountCharAbsent(parts[k + 1], '/');
    CountCharAppend(parts[k] + ['/'], parts[k + 1], '/');
    CountCharAppend(parts[k], ['/'], '/');
    assert f[|f| - |p| - 1] == (head + ['/'] + p)[|head|];
    assert f[|f| - |p|..] == p;
  }

  /** formatCaller: "" for an unknown file; otherwise the shortened path, a colon
      and the line number. The shortened path is a suffix of the file path and
      never holds "godex/". */
  function FormatCaller(file: string, line: int): (r: string)
    ensures r == "" <==> file == ""
    ensures file != "" ==> r == CallerPath(file) + ":" + IntToString(line)
    ensures file != "" ==> HasSuffix(file, CallerPath(file)) && !Contains(CallerPath(file), ProjectMarker)
  {
    if file == "" then ""
    else
      var p := CallerPath(file);
      var f := AfterProject(file);
      assert file[|file| - |p|..] == f[|f| - |p|..];
      SuffixAvoids(f, p, ProjectMarker);
      p + ":" + IntToString(line)
  }

  // ---------------------------------------------------------------- path helpers

  /** filepath.Dir of a clean path: everything before the last '/', "/" for a file
      in the root and "." for a bare name. */
  function Dir(path: string): string {
    var i := LastIndexChar(path, '/');
    if i == -1 then "." else if i == 0 then "/" else path[..i]
  }

  lemma DirSpec(path: string)
    ensures '/' !in path ==> Dir(path) == "."
    ensures '/' in path && LastIndexChar(path, '/') == 0 ==> Dir(path) == "/"
    ensures '/' in path && LastIndexChar(path, '/') > 0 ==>
              var d := Dir(path);
              d == path[..LastIndexChar(path, '/')] && '/' !in path[|d| + 1..]
  {
    var i := LastIndexChar(path, '/');
    if i > 0 {
      var rest := path[i + 1..];
      forall k | 0 <= k < |rest|
        ensures rest[k] != '/'
      {
        assert rest[k] == path[i + 1 + k];
      }
    }
  }

  /** filepath.Base: the last element after trailing slashes are dropped, "." for
      the empty path and "/" for a path of slashes. */
  function Base(path: string): string {
    if path == "" then "."
    else if path[|path| - 1] != '/' then path[LastIndexChar(path, '/') + 1..]
    else
      var t := TrimRightChar(path, '/');
      if t == "" then "/" else t[LastIndexChar(t, '/') + 1..]
  }

  lemma BaseSpec(path: string)
    ensures path == "" ==> Base(path) == "."
    ensures path != "" && path[|path| - 1] != '/' ==>
              Base(path) == path[LastIndexChar(path, '/') + 1..]
    ensures path != "" && path[|path| - 1] != '/' ==>
              var b := Base(path);
              HasSuffix(path, b) && '/' !in b && b != [] &&
              (|b| == |path| || path[|path| - |b| - 1] == '/')
  {
    if path != "" && path[|path| - 1] != '/' {
      AfterLastSlash(path);
    }
  }

  /** What follows the last '/' of a path that does not end in one. */
  lemma AfterLastSlash(path: string)
    requires path != "" && path[|path| - 1] != '/'
    ensures var b := path[LastIndexChar(path, '/') + 1..];
            HasSuffix(path, b) && '/' !in b && b != [] &&
            (|b| == |path| || path[|path| - |b| - 1] == '/')
  {
    var i := LastIndexChar(path, '/');
    var b := path[i + 1..];
    assert forall j :: 0 <= j < |b| ==> b[j] == path[i + 1 + j];
    assert path[|path| - |b|..] == b;
  }

  /** filepath.Ext: the suffix from the last '.' of the final element, or "". */
  function Ext(path: string): string {
    var i := LastIndexChar(path, '.');
    if i > LastIndexChar(path, '/') then path[i..] else ""
  }

  lemma ExtSpec(path: string)
    ensures var e := Ext(path);
            e == [] || (e[0] == '.' && HasSuffix(path, e) && '/' !in e && '.' !in e[1..])
    ensures Ext(path) == [] ==> forall j :: LastIndexChar(path, '/') < j < |path| ==> path[j] != '.'
  {
    var i := LastIndexChar(path, '.');
    if i > LastIndexChar(path, '/') {
      FromLastDot(path, i);
    }
  }

  /** The suffix from the last '.' of a path, when that '.' follows its last '/'. */
  lemma FromLastDot(path: string, i: int)
    requires i == LastIndexChar(path, '.') && i > LastIndexChar(path, '/')
    ensures var e := path[i..];
            e != [] && e[0] == '.' && HasSuffix(path, e) && '/' !in e && '.' !in e[1..]
  {
    var e := path[i..];
    forall k | 0 <= k < |e|
      ensures e[k] != '/' && (k > 0 ==> e[k] != '.')
    {
      assert e[k] == path[i + k];
    }
    assert path[|path| - |e|..] == e;
  }

  /** filepath.Join of a clean directory and a name without '/'. */
  function JoinPath(dir: string, name: string): string {
    if dir == "" || dir == "." then name
    else if dir == "/" then "/" + name
    else dir + "/" + name
  }

  /** Dir and Base split a clean path so that JoinPath puts it back together. */
  lemma DirBaseJoin(path: string)
    requires path != "" && path[|path| - 1] != '/' && !HasPrefix(path, "./")
    requires !Contains(path, "//")
    ensures JoinPath(Dir(path), Base(path)) == path
  {
    var i := LastIndexChar(path, '/');
    if i == -1 {
      JoinBareName(path);
    } else if i == 0 {
      JoinRootFile(path);
    } else {
      if i == 1 {
        FirstOfClean(path);
        assert path[..i] == [path[0]];
      }
      JoinInDirectory(path, i);
    }
  }

  lemma JoinBareName(path: string)
    requires path != "" && path[|path| - 1] != '/' && LastIndexChar(path, '/') == -1
    ensures JoinPath(Dir(path), Base(path)) == path
  {
    assert Dir(path) == ".";
    assert Base(path) == path[0..] == path;
  }

  lemma JoinRootFile(path: string)
    requires path != "" && path[|path| - 1] != '/' && LastIndexChar(path, '/') == 0
    ensures JoinPath(Dir(path), Base(path)) == path
  {
    var b := path[1..];
    assert Dir(path) == "/";
    assert Base(path) == b by {
      BaseSpec(path);
    }
    assert path == [path[0]] + b && path[0] == '/';
    assert JoinPath("/", b) == "/" + b;
  }

  lemma JoinInDirectory(path: string, i: int)
    requires path != "" && path[|path| - 1] != '/'
    requires i == LastIndexChar(path, '/') && i > 0 && path[..i] != "." && path[..i] != "/"
    ensures JoinPath(Dir(path), Base(path)) == path
  {
    var d, b := path[..i], path[i + 1..];
    assert Dir(path) == d;
    assert Base(path) == b by {
      BaseSpec(path);
    }
    assert JoinPath(d, b) == d + "/" + b;
    AroundSlash(path, i);
  }

  /** A path is what comes before one of its slashes, that slash and what
      follows it. */
  lemma AroundSlash(path: string, i: int)
    requires 0 <= i < |path| && path[i] == '/'
    ensures path == path[..i] + "/" + path[i + 1..]
  {
    assert [path[i]] == "/";
    assert path == path[..i] + [path[i]] + path[i + 1..];
  }

  /** A clean relative path whose second character is '/' starts with neither
      '/' nor '.'. */
  lemma FirstOfClean(path: string)
    requires |path| >= 2 && path[1] == '/'
    requires !HasPrefix(path, "./") && !Contains(path, "//")
    ensures path[0] != '/' && path[0] != '.'
  {
    assert !OccursAt(path, "//", 0);
    assert path[0..2] == [path[0], '/'] && path[..2] == path[0..2];
    assert [path[0], '/'] != "//" && [path[0], '/'] != "./";
  }

  /** The file name of a log file without its extension. */
  function NameWithoutExt(filename: string): string {
    TrimSuffix(Base(filename), Ext(Base(filename)))
  }

  /** The name without extension and the extension make up the base name. */
  lemma NameWithoutExtSpec(filename: string)
    ensures NameWithoutExt(filename) + Ext(Base(filename)) == Base(filename)
  {
    ExtSpec(Base(filename));
  }

  // ---------------------------------------------------------------- rotated names

  /** The base name rotate gives a day's file: name-YYYY-MM-DD.ext. */
  function RotatedName(nameWithoutExt: string, date: string, ext: string): (r: string)
    ensures HasPrefix(r, nameWithoutExt + "-") && HasSuffix(r, date + ext)
  {
    var r := nameWithoutExt + "-" + date + ext;
    assert r[..|nameWithoutExt| + 1] == nameWithoutExt + "-";
    assert r[|r| - |date + ext|..] == date + ext;
    r
  }

  /** The path rotate opens for `date`, from the parts of the configured name. */
  function RotatedPath(dir: string, nameWithoutExt: string, ext: string, date: string): string {
    JoinPath(dir, RotatedName(nameWithoutExt, date, ext))
  }

  /** The path rotate opens for `date`. */
  function RotatedFilename(filename: string, date: string): string {
    RotatedPath(Dir(filename), NameWithoutExt(filename), Ext(Base(filename)), date)
  }

  /** Different dates give different file names. */
  lemma RotatedNameInjective(n: string, d1: string, d2: string, e: string)
    requires RotatedName(n, d1, e) == RotatedName(n, d2, e)
    ensures d1 == d2
  {
    var r := RotatedName(n, d1, e);
    assert |r| == |n| + 1 + |d1| + |e| == |n| + 1 + |d2| + |e|;
    assert d1 == r[|n| + 1..|n| + 1 + |d1|];
    assert d2 == RotatedName(n, d2, e)[|n| + 1..|n| + 1 + |d2|];
  }

  // ---------------------------------------------------------------- cleanup filter

  /**
   * The date part cleanupOldLogs reads from a file name AS WRITTEN: the name must
   * start with the name without extension and a '.', end with the extension, and
   * what lies between must be 10 characters long.
   */
  function DateOfAsWritten(fileName: string, nameWithoutExt: string, ext: string): Option<string> {
    if !HasPrefix(fileName, nameWithoutExt + ".") || !HasSuffix(fileName, ext) then None
    else
      var d := TrimPrefix(TrimSuffix(fileName, ext), nameWithoutExt + ".");
      if |d| != 10 then None else Some(d)
  }

  /** As written, the filter never accepts a file that rotate created, so no
      rotated log is ever deleted. */
  lemma RotatedNeverCleanedAsWritten(nameWithoutExt: string, date: string, ext: string)
    ensures DateOfAsWritten(RotatedName(nameWithoutExt, date, ext), nameWithoutExt, ext) == None
  {
    var r := RotatedName(nameWithoutExt, date, ext);
    var p := nameWithoutExt + ".";
    if |p| <= |r| {
      assert r[..|p|][|nameWithoutExt|] == '-';
      assert p[|nameWithoutExt|] == '.';
    }
  }

  /** The filter with the separator rotate uses: name-YYYY-MM-DD.ext. */
  function DateOf(fileName: string, nameWithoutExt: string, ext: string): Option<string> {
    if !HasPrefix(fileName, nameWithoutExt + "-") || !HasSuffix(fileName, ext) then None
    else
      var d := TrimPrefix(TrimSuffix(fileName, ext), nameWithoutExt + "-");
      if |d| != 10 then None else Some(d)
  }

  /** The corrected filter reads back the date of every rotated file whose date
      has the 10 characters of YYYY-MM-DD. */
  lemma RotatedCleaned(nameWithoutExt: string, date: string, ext: string)
    requires |date| == 10
    ensures DateOf(RotatedName(nameWithoutExt, date, ext), nameWithoutExt, ext) == Some(date)
  {
    var r := RotatedName(nameWithoutExt, date, ext);
    var p := nameWithoutExt + "-";
    assert r == (p + date) + ext;
    assert TrimSuffix(r, ext) == p + date;
    assert (p + date)[..|p|] == p;
    assert TrimPrefix(p + date, p) == date;
  }

  /** A directory entry as os.ReadDir returns it. */
  datatype DirEntry = DirEntry(name: string, isDir: bool)

  /** Whether the entry is a log file of this writer whose date has expired;
      `expired` stands for "time.Parse accepts the date and it lies before the
      cut-off day". */
  predicate Removes(e: DirEntry, nameWithoutExt: string, ext: string, expired: string -> bool) {
    !e.isDir && DateOf(e.name, nameWithoutExt, ext).Some? && expired(DateOf(e.name, nameWithoutExt, ext).value)
  }

  /** The paths removed for the entries `es`, in directory order. */
  function RemovedPaths(dir: string, nameWithoutExt: string, ext: string, es: seq<DirEntry>, expired: string -> bool): seq<string> {
    if es == [] then []
    else
      var e := es[|es| - 1];
      RemovedPaths(dir, nameWithoutExt, ext, es[..|es| - 1], expired) +
      (if Removes(e, nameWithoutExt, ext, expired) then [JoinPath(dir, e.name)] else [])
  }

  /** The k-th entry is removed, and `p` is its path. */
  predicate RemovedAt(dir: string, nwe: string, ext: string, es: seq<DirEntry>, expired: string -> bool, k: int, p: string) {
    0 <= k < |es| && Removes(es[k], nwe, ext, expired) && p == JoinPath(dir, es[k].name)
  }

  /** Every removed path belongs to an entry the filter accepts and whose date
      has expired. */
  lemma {:induction false} RemovedPathsSound(dir: string, nwe: string, ext: string, es: seq<DirEntry>, expired: string -> bool, p: string)
    requires p in RemovedPaths(dir, nwe, ext, es, expired)
    ensures exists k :: RemovedAt(dir, nwe, ext, es, expired, k, p)
  {
    var init, last := es[..|es| - 1], |es| - 1;
    if p in RemovedPaths(dir, nwe, ext, init, expired) {
      RemovedPathsSound(dir, nwe, ext, init, expired, p);
      var k :| RemovedAt(dir, nwe, ext, init, expired, k, p);
      assert es[k] == init[k];
      assert RemovedAt(dir, nwe, ext, es, expired, k, p);
    } else {
      assert RemovedAt(dir, nwe, ext, es, expired, last, p);
    }
  }

  /** The path of every entry the filter accepts and whose date has expired is
      removed. */
  lemma {:induction false} RemovedPathsComplete(dir: string, nwe: string, ext: string, es: seq<DirEntry>, expired: string -> bool, k: int, p: string)
    requires RemovedAt(dir, nwe, ext, es, expired, k, p)
    ensures p in RemovedPaths(dir, nwe, ext, es, expired)
  {
    var init, last := es[..|es| - 1], |es| - 1;
    if k < last {
      assert init[k] == es[k];
      RemovedPathsComplete(dir, nwe, ext, init, expired, k, p);
    }
  }

  /** A path is removed exactly when it belongs to an entry the filter accepts and
      whose date has expired. */
  lemma RemovedPathsMembers(dir: string, nwe: string, ext: string, es: seq<DirEntry>, expired: string -> bool, p: string)
    ensures p in RemovedPaths(dir, nwe, ext, es, expired) <==>
            exists k :: RemovedAt(dir, nwe, ext, es, expired, k, p)
  {
    if p in RemovedPaths(dir, nwe, ext, es, expired) {
      RemovedPathsSound(dir, nwe, ext, es, expired, p);
    }
    if exists k :: RemovedAt(dir, nwe, ext, es, expired, k, p) {
      var k :| RemovedAt(dir, nwe, ext, es, expired, k, p);
      RemovedPathsComplete(dir, nwe, ext, es, expired, k, p);
    }
  }

  /** The loop of cleanupOldLogs over the directory listing, with the corrected
      filter: a file is this writer's log when DateOf finds a date after the
      `-` the rotated names carry (the code as written looks for `.`; see
      RotatedNeverCleanedAsWritten). */
  method RemoveExpired(dir: string, nwe: string, ext: string, files: seq<DirEntry>, expired: string -> bool)
    returns (removed: seq<string>)
    ensures removed == RemovedPaths(dir, nwe, ext, files, expired)
  {
    removed := [];
    var i := 0;
    while i < |files|
      invariant 0 <= i <= |files|
      invariant removed == RemovedPaths(dir, nwe, ext, files[..i], expired)
    {
      var file := files[i];
      assert files[..i + 1][..i] == files[..i];
      if !file.isDir {
        var date := DateOf(file.name, nwe, ext);
        if date.Some? && expired(date.value) {
          removed := removed + [JoinPath(dir, file.name)];
        }
      }
      i := i + 1;
    }
    assert files[..i] == files;
  }

  /**
   * cleanupOldLogs, with the corrected filter: lists the log directory (None when
   * os.ReadDir fails, which ends the cleanup) and removes every expired log file
   * of this writer.
   */
  method CleanupOldLogs(filename: string, listing: Option<seq<DirEntry>>, expired: string -> bool)
    returns (removed: seq<string>)
    ensures listing.None? ==> removed == []
    ensures listing.Some? ==>
              removed == RemovedPaths(Dir(filename), NameWithoutExt(filename), Ext(Base(filename)), listing.value, expired)
  {
    if listing.None? {
      return [];
    }
    removed := RemoveExpired(Dir(filename), NameWithoutExt(filename), Ext(Base(filename)), listing.value, expired);
  }

  // ---------------------------------------------------------------- RotatingFileWriter

  /** An *os.File: its path, and whether it is still open. */
  datatype FileHandle = FileHandle(path: string, open: bool)

  /** The handle after Close: the pointer stays, the file is closed. */
  function Closed(f: Option<FileHandle>): Option<FileHandle> {
    if f.None? then None else Some(f.value.(open := false))
  }


  /**
   * The writer's state: the configured file name and retention, the current file
   * and its date, the bytes each log file it opened holds, and how many cleanups
   * it has started. `dir`, `nameWithoutExt` and `ext` are the parts rotate
   * derives from the file name each time; they never change, so they are kept.
   */
  class RotatingFileWriter {
    const filename: string
    const maxDays: int
    const dir: string
    const nameWithoutExt: string
    const ext: string
    var currentFile: Option<FileHandle>
    var currentDate: string
    var files: map<string, seq<byte>>
    var cleanups: nat

    /** The current file, open or closed, is the one for the current date. */
    predicate Valid()
      reads this
    {
      currentFile.Some? ==>
        currentFile.value.path == RotatedPath(dir, nameWithoutExt, ext, currentDate) && currentFile.value.path in files
    }

    /** The directory rotate creates before opening; none for "." or "". */
    predicate NeedsMkdir() {
      dir != "." && dir != ""
    }

    constructor (filename: string, maxDays: int)
      ensures this.filename == filename && this.maxDays == maxDays
      ensures dir == Dir(filename) && nameWithoutExt == NameWithoutExt(filename) && ext == Ext(Base(filename))
      ensures currentFile == None && currentDate == "" && files == map[] && cleanups == 0
      ensures Valid()
    {
      this.filename := filename;
      this.maxDays := maxDays;
      dir, nameWithoutExt, ext := Dir(filename), NameWithoutExt(filename), Ext(Base(filename));
      currentFile := None;
      currentDate := "";
      files := map[];
      cleanups := 0;
    }

    /**
     * rotate for the day `newDate`. Nothing happens when the date is unchanged
     * and a file is held. Otherwise the held file is closed (its pointer stays),
     * the directory is created when there is one (`mkdirErr` is its outcome),
     * the day's file is opened for appending (`openErr` is its outcome) and
     * becomes current; a cleanup starts when maxDays is positive.
     */
    method Rotate(newDate: string, mkdirErr: GoError, openErr: GoError) returns (err: GoError)
      requires Valid()
      modifies this
      ensures Valid()
      ensures old(newDate == currentDate && currentFile.Some?) ==>
                err == Nil && currentFile == old(currentFile) && currentDate == old(currentDate) &&
                files == old(files) && cleanups == old(cleanups)
      ensures !old(newDate == currentDate && currentFile.Some?) && NeedsMkdir() && mkdirErr != Nil ==>
                err == Foreign("failed to create log directory: " + ErrorText(mkdirErr)) &&
                currentFile == Closed(old(currentFile)) && currentDate == old(currentDate) &&
                files == old(files) && cleanups == old(cleanups)
      ensures !old(newDate == currentDate && currentFile.Some?) && !(NeedsMkdir() && mkdirErr != Nil) && openErr != Nil ==>
                err == Foreign("failed to open log file " + RotatedPath(dir, nameWithoutExt, ext, newDate) + ": " + ErrorText(openErr)) &&
                currentFile == Closed(old(currentFile)) && currentDate == old(currentDate) &&
                files == old(files) && cleanups == old(cleanups)
      ensures !old(newDate == currentDate && currentFile.Some?) && !(NeedsMkdir() && mkdirErr != Nil) && openErr == Nil ==>
                var name := RotatedPath(dir, nameWithoutExt, ext, newDate);
                err == Nil && currentFile == Some(FileHandle(name, true)) && currentDate == newDate &&
                files == (if name in old(files) then old(files) else old(files)[name := []]) &&
                cleanups == old(cleanups) + (if maxDays > 0 then 1 else 0)
    {
      if newDate == currentDate && currentFile.Some? {
        return Nil;
      }
      currentFile := Closed(currentFile);
      var name := RotatedPath(dir, nameWithoutExt, ext, newDate);
      if NeedsMkdir() && mkdirErr != Nil {
        return Foreign("failed to create log directory: " + ErrorText(mkdirErr));
      }
      if openErr != Nil {
        return Foreign("failed to open log file " + name + ": " + ErrorText(openErr));
      }
      files := if name in files then files else files[name := []];
      currentFile := Some(FileHandle(name, true));
      currentDate := newDate;
      if maxDays > 0 {
        cleanups := cleanups + 1;
      }
      err := Nil;
    }

    /**
     * Write on day `nowDate`: rotate first when the day changed, then append to
     * the current file. With no file the write fails; a file left closed by a
     * failed rotation or by Close fails the write as os.File does. A write to an
     * open file takes all of `p`.
     */
    method Write(p: seq<byte>, nowDate: string, mkdirErr: GoError, openErr: GoError) returns (n: int, err: GoError)
      requires Valid()
      modifies this
      ensures Valid()
      ensures err == Nil ==>
                var name := RotatedPath(dir, nameWithoutExt, ext, nowDate);
                n == |p| && currentDate == nowDate && currentFile == Some(FileHandle(name, true)) &&
                files == old(files)[name := (if name in old(files) then old(files)[name] else []) + p]
      ensures err != Nil ==> n == 0 && files == old(files)
      ensures nowDate == old(currentDate) ==> currentFile == old(currentFile) && cleanups == old(cleanups)
      ensures nowDate == old(currentDate) && old(currentFile).None? ==> err == Foreign("no current log file")
      ensures nowDate == old(currentDate) && old(currentFile).Some? ==>
                (err == Nil <==> old(currentFile).value.open)
      ensures nowDate != old(currentDate) && NeedsMkdir() && mkdirErr != Nil ==>
                err == Foreign("failed to create log directory: " + ErrorText(mkdirErr)) &&
                currentFile == Closed(old(currentFile)) && cleanups == old(cleanups)
      ensures nowDate != old(currentDate) && !(NeedsMkdir() && mkdirErr != Nil) && openErr != Nil ==>
                err == Foreign("failed to open log file " + RotatedPath(dir, nameWithoutExt, ext, nowDate) + ": " + ErrorText(openErr)) &&
                currentFile == Closed(old(currentFile)) && cleanups == old(cleanups)
      ensures nowDate != old(currentDate) && !(NeedsMkdir() && mkdirErr != Nil) && openErr == Nil ==>
                err == Nil && cleanups == old(cleanups) + (if maxDays > 0 then 1 else 0)
    {
      if nowDate != currentDate {
        err := Rotate(nowDate, mkdirErr, openErr);
        if err != Nil {
          return 0, err;
        }
      }
      if currentFile.None? {
        return 0, Foreign("no current log file");
      }
      var f := currentFile.value;
      if !f.open {
        return 0, Foreign("write " + f.path + ": file already closed");
      }
      files := files[f.path := files[f.path] + p];
      n, err := |p|, Nil;
    }

    /** Close: closes the current file; closing it twice fails as os.File does. */
    method Close() returns (err: GoError)
      requires Valid()
      modifies this
      ensures Valid()
      ensures currentFile == Closed(old(currentFile)) && currentDate == old(currentDate)
      ensures files == old(files) && cleanups == old(cleanups)
      ensures err == Nil <==> old(currentFile).None? || old(currentFile).value.open
      ensures err != Nil ==> err == Foreign("close " + old(currentFile).value.path + ": file already closed")
    {
      if currentFile.None? {
        return Nil;
      }
      var f := currentFile.value;
      currentFile := Closed(currentFile);
      if f.open {
        err := Nil;
      } else {
        err := Foreign("close " + f.path + ": file already closed");
      }
    }
  }

  /**
   * NewRotatingFileWriter: an empty time-zone name means the local zone;
   * otherwise `zoneErr` is the outcome of loading the zone. The first rotation
   * happens at once, and the writer is returned only when it succeeds.
   */
  method NewRotatingFileWriter(filename: string, maxDays: int, timeZone: string, zoneErr: GoError,
                               today: string, mkdirErr: GoError, openErr: GoError)
    returns (w: RotatingFileWriter?, err: GoError)
    ensures w == null <==> err != Nil
    ensures timeZone != "" && zoneErr != Nil ==>
              err == Foreign("invalid timezone " + timeZone + ": " + ErrorText(zoneErr))
    ensures !(timeZone != "" && zoneErr != Nil) && Dir(filename) != "." && Dir(filename) != "" && mkdirErr != Nil ==>
              err == Foreign("failed to create log directory: " + ErrorText(mkdirErr))
    ensures !(timeZone != "" && zoneErr != Nil) && !(Dir(filename) != "." && Dir(filename) != "" && mkdirErr != Nil) ==>
              (openErr == Nil ==> w != null) &&
              (openErr != Nil ==> err == Foreign("failed to open log file " + RotatedFilename(filename, today) + ": " + ErrorText(openErr)))
    ensures w != null ==>
              fresh(w) && w.Valid() && w.filename == filename && w.maxDays == maxDays &&
              w.currentFile == Some(FileHandle(RotatedFilename(filename, today), true)) &&
              w.currentDate == today && w.files == map[RotatedFilename(filename, today) := []]
  {
    if timeZone != "" && zoneErr != Nil {
      return null, Foreign("invalid timezone " + timeZone + ": " + ErrorText(zoneErr));
    }
    w := new RotatingFileWriter(filename, maxDays);
    err := w.Rotate(today, mkdirErr, openErr);
    if err != Nil {
      w := null;
    }
  }

  // ---------------------------------------------------------------- XormLoggerAdapter

  const PingDatabase: string := "PING DATABASE"

  /** The adapter XORM logs through: its level, whether SQL is shown, and the
      Info formats it passed on to logrus. */
  class XormLoggerAdapter {
    var level: int
    var showSQL: bool
    var infoLog: seq<string>

    /** GetXormLogger: the zero level and SQL hidden. */
    constructor ()
      ensures level == 0 && !showSQL && infoLog == []
    {
      level := 0;
      showSQL := false;
      infoLog := [];
    }

    function Level(): int
      reads this
    {
      level
    }

    method SetLevel(l: int)
      modifies this
      ensures level == l && showSQL == old(showSQL) && infoLog == old(infoLog)
    {
      level := l;
    }

    /** ShowSQL(show...): the first argument when there is one; none leaves the
        setting as it was. */
    method ShowSQL(show: seq<bool>)
      modifies this
      ensures show == [] ==> showSQL == old(showSQL)
      ensures show != [] ==> showSQL == show[0]
      ensures level == old(level) && infoLog == old(infoLog)
    {
      if |show| > 0 {
        showSQL := show[0];
      }
    }

    function IsShowSQL(): bool
      reads this
    {
      showSQL
    }

    /** Infof drops every format that mentions "PING DATABASE" and passes the
        others on. */
    method Infof(format: string)
      modifies this
      ensures Contains(format, PingDatabase) ==> infoLog == old(infoLog)
      ensures !Contains(format, PingDatabase) ==> infoLog == old(infoLog) + [format]
      ensures level == old(level) && showSQL == old(showSQL)
    {
      if Contains(format, PingDatabase) {
        return;
      }
      infoLog := infoLog + [format];
    }
  }
}
