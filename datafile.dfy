/** The credential store of datafile.c: where the API key file lives, how the
    key is loaded at startup and how a new key is saved.

    The environment is two strings (HOME, which is taken to be set, and an optional
    XDG_DATA_HOME); the file system is a set of directories `stat` finds, a map
    from path to file contents, and the paths where fopen(…, "w") or fputs fail.
    Every call the code makes into the file system is appended to a log. */
module DataFile {
  import opened CStrings
  import opened Errors

  const PATH_BUF_SIZE: nat := 4096
  const API_KEY_BUF_SIZE: nat := 40
  /** The mode directories are made with: 0700, owner only. */
  const DIR_MODE: nat := 448
  const HOME_DATA_DIR: string := ".local/share"
  const DATA_FILE_SUFFIX: string := "/tshotkeysctl/api_key"

  datatype Env = Env(home: CStr, xdgDataHome: Option<CStr>)

  /** The file-system calls the store makes, in order. */
  datatype FsOp =
    | Stat(path: string)
    | Mkdir(path: string, mode: nat)
    | Open(path: string, openMode: string)
    | Puts(path: string, text: string)
    | Close(path: string)

  datatype FsState = FsState(
    dirs: set<string>,
    files: map<string, string>,
    openFails: set<string>,
    writeFails: set<string>,
    ops: seq<FsOp>)

  // ---------------------------------------------------------------------------
  // Path of the API key file (load_api_key_file_path)

  /** XDG_DATA_HOME is used when it is set and not empty. */
  predicate UsesXdg(env: Env)
  {
    env.xdgDataHome.Some? && env.xdgDataHome.value != []
  }

  /** The text the first lws_snprintf renders: XDG_DATA_HOME, or HOME and
      ".local/share" joined by "%s/%s". */
  function BaseText(env: Env): CStr
  {
    if UsesXdg(env) then env.xdgDataHome.value else env.home + "/" + HOME_DATA_DIR
  }

  datatype PathResult = PathResult(code: ErrorCode, buffer: seq<char>)

  /** load_api_key_file_path as written: the returned code and the path buffer
      afterwards, given the buffer before. Only the HOME branch checks the base's
      length; the second check looks at the length lws_snprintf returns for the
      appended segment alone. */
  function ResolveFilePath(env: Env, buf: seq<char>): PathResult
    requires |buf| == PATH_BUF_SIZE
  {
    var base := BaseText(env);
    var b1 := Written(buf, 0, PATH_BUF_SIZE, base);
    var used := SnprintfResult(|base|, PATH_BUF_SIZE);
    if !UsesXdg(env) && used >= PATH_BUF_SIZE - 1 then
      PathResult(ErrDataPathExceedMaxPath, b1)
    else
      var b2 := Written(b1, used, PATH_BUF_SIZE - used, DATA_FILE_SUFFIX);
      var segment := SnprintfResult(|DATA_FILE_SUFFIX|, PATH_BUF_SIZE - used);
      if segment >= PATH_BUF_SIZE - 1 then PathResult(ErrDataFileExceedMaxPath, b2)
      else PathResult(NoError, b2)
  }

  /** What the code computes: it fails only for a HOME-derived base of 4095 or
      more characters, and otherwise reports success with the base and the
      "/tshotkeysctl/api_key" suffix cut to 4095 characters. */
  lemma ResolveFilePathAsWritten(env: Env, buf: seq<char>)
    requires |buf| == PATH_BUF_SIZE
    ensures var r := ResolveFilePath(env, buf);
      && (r.code == ErrDataPathExceedMaxPath <==>
            !UsesXdg(env) && |BaseText(env)| >= PATH_BUF_SIZE - 1)
      && (r.code != ErrDataPathExceedMaxPath ==>
            r.code == NoError &&
            CString(r.buffer) == Truncate(BaseText(env) + DATA_FILE_SUFFIX, PATH_BUF_SIZE - 1))
  {
    var base := BaseText(env);
    if |base| >= PATH_BUF_SIZE {
      BaseFillsBuffer(buf, base);
    } else {
      SuffixAfterBase(buf, base);
    }
  }

  /** A base that fills the whole buffer leaves the second call no room: the
      buffer holds the base cut to 4095 characters. */
  lemma BaseFillsBuffer(buf: seq<char>, base: CStr)
    requires |buf| == PATH_BUF_SIZE && |base| >= PATH_BUF_SIZE
    ensures CString(Written(buf, 0, PATH_BUF_SIZE, base)) == Truncate(base + DATA_FILE_SUFFIX, PATH_BUF_SIZE - 1)
  {
    WrittenHolds(buf, PATH_BUF_SIZE, base);
    assert (base + DATA_FILE_SUFFIX)[..PATH_BUF_SIZE - 1] == base[..PATH_BUF_SIZE - 1];
  }

  /** A shorter base is followed directly by as much of the suffix as fits. */
  lemma SuffixAfterBase(buf: seq<char>, base: CStr)
    requires |buf| == PATH_BUF_SIZE && |base| < PATH_BUF_SIZE
    ensures var b1 := Written(buf, 0, PATH_BUF_SIZE, base);
      CString(Written(b1, |base|, PATH_BUF_SIZE - |base|, DATA_FILE_SUFFIX))
        == Truncate(base + DATA_FILE_SUFFIX, PATH_BUF_SIZE - 1)
  {
    var used := |base|;
    var b1 := Written(buf, 0, PATH_BUF_SIZE, base);
    var b2 := Written(b1, used, PATH_BUF_SIZE - used, DATA_FILE_SUFFIX);
    var k := Stored(|DATA_FILE_SUFFIX|, PATH_BUF_SIZE - used);
    var t := base + DATA_FILE_SUFFIX[..k];
    assert b1[..used] == base;
    assert b2[..|t|] == t;
    assert b2[|t|] == '\0';
    CStringIs(b2, t);
    assert t == Truncate(base + DATA_FILE_SUFFIX, PATH_BUF_SIZE - 1);
  }

  /** A path long enough to show that the length checks let a cut path
      through: an XDG_DATA_HOME of 4080 characters. */
  lemma LongXdgPathIsCut()
    ensures var env := Env("/home/user", Some(seq(4080, _ => 'a')));
      var r := ResolveFilePath(env, Zeros(PATH_BUF_SIZE));
      r.code == NoError && CString(r.buffer) != BaseText(env) + DATA_FILE_SUFFIX
  {
    var env := Env("/home/user", Some(seq(4080, _ => 'a')));
    ResolveFilePathAsWritten(env, Zeros(PATH_BUF_SIZE));
    assert |BaseText(env) + DATA_FILE_SUFFIX| == 4101;
  }

  datatype PathOutcome = PathOk(path: CStr) | PathErr(code: ErrorCode)

  /** The evidently intended resolution: the same base directory rule, but a
      path that does not fit the buffer with room to spare is refused instead
      of being cut. */
  function IntendedFilePath(env: Env): (r: PathOutcome)
    ensures r.PathOk? <==> |BaseText(env) + DATA_FILE_SUFFIX| < PATH_BUF_SIZE - 1
    ensures r.PathOk? ==>
      r.path == (if UsesXdg(env) then env.xdgDataHome.value else env.home + "/.local/share")
                + "/tshotkeysctl/api_key"
    ensures r.PathErr? ==> r.code in {ErrDataPathExceedMaxPath, ErrDataFileExceedMaxPath}
  {
    var base := BaseText(env);
    if !UsesXdg(env) && |base| >= PATH_BUF_SIZE - 1 then PathErr(ErrDataPathExceedMaxPath)
    else if |base + DATA_FILE_SUFFIX| >= PATH_BUF_SIZE - 1 then PathErr(ErrDataFileExceedMaxPath)
    else PathOk(base + DATA_FILE_SUFFIX)
  }

  /** The code and the intended resolution agree on every environment whose
      path fits, and on every HOME too long for the buffer. */
  lemma IntendedAgreesWhenPathFits(env: Env, buf: seq<char>)
    requires |buf| == PATH_BUF_SIZE
    ensures var r := ResolveFilePath(env, buf);
      && (IntendedFilePath(env).PathOk? ==>
            r.code == NoError && CString(r.buffer) == IntendedFilePath(env).path)
      && (IntendedFilePath(env) == PathErr(ErrDataPathExceedMaxPath) <==>
            r.code == ErrDataPathExceedMaxPath)
  {
    ResolveFilePathAsWritten(env, buf);
  }

  /** load_api_key_file_path with its second check corrected to compare the
      length of the whole path, not of the appended segment alone: it succeeds
      exactly when the intended resolution does, with the intended path. */
  function CheckedFilePath(env: Env, buf: seq<char>): (r: PathResult)
    requires |buf| == PATH_BUF_SIZE
    ensures r.code == NoError <==> IntendedFilePath(env).PathOk?
    ensures r.code == NoError ==> CString(r.buffer) == IntendedFilePath(env).path
    ensures r.code != NoError ==> IntendedFilePath(env) == PathErr(r.code)
  {
    var base := BaseText(env);
    var b1 := Written(buf, 0, PATH_BUF_SIZE, base);
    var used := SnprintfResult(|base|, PATH_BUF_SIZE);
    if !UsesXdg(env) && used >= PATH_BUF_SIZE - 1 then
      PathResult(ErrDataPathExceedMaxPath, b1)
    else
      var b2 := Written(b1, used, PATH_BUF_SIZE - used, DATA_FILE_SUFFIX);
      var segment := SnprintfResult(|DATA_FILE_SUFFIX|, PATH_BUF_SIZE - used);
      if used + segment >= PATH_BUF_SIZE - 1 then PathResult(ErrDataFileExceedMaxPath, b2)
      else
        IntendedAgreesWhenPathFits(env, buf);
        PathResult(NoError, b2)
  }

  // ---------------------------------------------------------------------------
  // Directory creation (ensure_data_dir_present)

  /** The prefixes of path that end at one of its first k characters that is
      a '/', in increasing length, each including its '/'. */
  function DirPrefixesUpTo(path: string, k: nat): seq<string>
    requires k <= |path|
  {
    if k == 0 then []
    else DirPrefixesUpTo(path, k - 1) + (if path[k - 1] == '/' then [path[..k]] else [])
  }

  /** The directories ensure_data_dir_present considers for path. */
  function DirPrefixes(path: string): seq<string>
  {
    DirPrefixesUpTo(path, |path|)
  }

  /** Number of '/' characters among the first k of path. */
  function SlashCount(path: string, k: nat): nat
    requires k <= |path|
  {
    if k == 0 then 0 else SlashCount(path, k - 1) + (if path[k - 1] == '/' then 1 else 0)
  }

  /** One prefix per '/', each a prefix of path that ends with its '/', no
      longer than k, in strictly increasing length; and a prefix is considered
      exactly when it ends at a '/'. */
  lemma {:induction false} DirPrefixesShape(path: string, k: nat)
    requires k <= |path|
    ensures var ps := DirPrefixesUpTo(path, k);
      && |ps| == SlashCount(path, k)
      && (forall i :: 0 <= i < |ps| ==>
            0 < |ps[i]| <= k && ps[i] == path[..|ps[i]|] && ps[i][|ps[i]| - 1] == '/')
      && (forall i, j :: 0 <= i < j < |ps| ==> |ps[i]| < |ps[j]|)
      && (forall j :: 0 <= j < k && path[j] == '/' ==> path[..j + 1] in ps)
  {
    if k > 0 {
      DirPrefixesShape(path, k - 1);
      var ps := DirPrefixesUpTo(path, k);
      var prev := DirPrefixesUpTo(path, k - 1);
      assert forall i :: 0 <= i < |prev| ==> ps[i] == prev[i];
      forall j | 0 <= j < k && path[j] == '/'
        ensures path[..j + 1] in ps
      {
        if j < k - 1 {
          assert path[..j + 1] in prev;
        } else {
          assert ps[|ps| - 1] == path[..k];
        }
      }
    }
  }

  /** The final component of a path that does not end with '/' is never
      considered. */
  lemma FinalComponentNotConsidered(path: string)
    requires path != [] && path[|path| - 1] != '/'
    ensures path !in DirPrefixes(path)
  {
    DirPrefixesShape(path, |path|);
  }

  /** No prefix is added while no '/' is passed. */
  lemma {:induction false} NoSlashNoPrefix(path: string, from: nat, upto: nat)
    requires from <= upto <= |path|
    requires forall i :: from <= i < upto ==> path[i] != '/'
    ensures DirPrefixesUpTo(path, upto) == DirPrefixesUpTo(path, from)
    decreases upto
  {
    if from < upto {
      NoSlashNoPrefix(path, from, upto - 1);
    }
  }

  /** The calls made for prefixes ps when dirs are present before: each prefix
      is stat'ed and, when stat does not find it, made with mode 0700. */
  function DirOps(ps: seq<string>, dirs: set<string>): seq<FsOp>
  {
    if ps == [] then []
    else
      var last := ps[|ps| - 1];
      DirOps(ps[..|ps| - 1], dirs) + [Stat(last)] + (if last in dirs then [] else [Mkdir(last, DIR_MODE)])
  }

  function Elements(ps: seq<string>): set<string>
  {
    set p | p in ps
  }

  /** The file system after ensure_data_dir_present(path). */
  function EnsureDirs(path: string, s: FsState): FsState
  {
    var ps := DirPrefixes(path);
    s.(dirs := s.dirs + Elements(ps), ops := s.ops + DirOps(ps, s.dirs))
  }

  /** Exactly the prefixes stat does not find are made, each once; nothing
      else is made and no file changes. */
  lemma {:induction false} DirOpsMakesMissing(ps: seq<string>, dirs: set<string>, q: string)
    ensures Mkdir(q, DIR_MODE) in DirOps(ps, dirs) <==> q in ps && q !in dirs
    ensures forall op :: op in DirOps(ps, dirs) ==> op.Stat? || (op.Mkdir? && op.mode == DIR_MODE)
  {
    if ps != [] {
      DirOpsMakesMissing(ps[..|ps| - 1], dirs, q);
      assert ps == ps[..|ps| - 1] + [ps[|ps| - 1]];
    }
  }

  // ---------------------------------------------------------------------------
  // Saving a key (df_save_api_key)

  datatype SaveStep = KeyUnchanged | KeyTooLong | WriteKey

  /** Which way df_save_api_key goes: an equal key is not saved again, a key of
      API_KEY_BUF_SIZE characters or more is refused, any other is written. */
  function SaveDecision(current: CStr, newKey: CStr): (d: SaveStep)
    ensures d == KeyUnchanged <==> newKey == current
    ensures d == WriteKey <==> newKey != current && |newKey| < API_KEY_BUF_SIZE
  {
    if current == newKey then KeyUnchanged
    else if |newKey| >= API_KEY_BUF_SIZE then KeyTooLong
    else WriteKey
  }

  datatype SaveOutcome = SaveOutcome(code: ErrorCode, fs: FsState)

  /** df_save_api_key(data, newKey) where data holds current and path. */
  function Save(current: CStr, newKey: CStr, path: CStr, s: FsState): (r: SaveOutcome)
    ensures current == newKey ==> r == SaveOutcome(NoError, s)
    ensures current != newKey && |newKey| >= API_KEY_BUF_SIZE ==>
      r == SaveOutcome(ErrApiKeyExceedMaxLen, s)
    ensures r.code == NoError && current != newKey ==>
      path in r.fs.files && r.fs.files[path] == newKey
    ensures r.code in {NoError, ErrApiKeyExceedMaxLen, ErrDataFileOpen, ErrDataFileWrite}
    ensures forall q :: q != path ==> (q in r.fs.files <==> q in s.files)
    ensures forall q :: q != path && q in s.files ==> q in r.fs.files && r.fs.files[q] == s.files[q]
    ensures s.dirs <= r.fs.dirs && r.fs.openFails == s.openFails && r.fs.writeFails == s.writeFails
    ensures current != newKey && |newKey| < API_KEY_BUF_SIZE ==>
      && r.code == (if path in s.openFails then ErrDataFileOpen
                    else if path in s.writeFails then ErrDataFileWrite else NoError)
      && r.fs.dirs == EnsureDirs(path, s).dirs
      && r.fs.ops == EnsureDirs(path, s).ops + [Open(path, "w")]
                     + (if path in s.openFails then [] else [Puts(path, newKey), Close(path)])
      && (path !in s.openFails ==> path in r.fs.files && r.fs.files[path] == (if path in s.writeFails then "" else newKey))
    ensures current != newKey && |newKey| < API_KEY_BUF_SIZE && path in s.openFails ==> r.fs.files == s.files
  {
    match SaveDecision(current, newKey)
    case KeyUnchanged => SaveOutcome(NoError, s)
    case KeyTooLong => SaveOutcome(ErrApiKeyExceedMaxLen, s)
    case WriteKey =>
      var s1 := EnsureDirs(path, s);
      var s2 := s1.(ops := s1.ops + [Open(path, "w")]);
      if path in s.openFails then SaveOutcome(ErrDataFileOpen, s2)
      else
        var ok := path !in s.writeFails;
        // fopen(…, "w") empties the file; a failed fputs is taken to leave it empty
        var s3 := s2.(files := s2.files[path := if ok then newKey else ""],
                      ops := s2.ops + [Puts(path, newKey), Close(path)]);
        SaveOutcome(if ok then NoError else ErrDataFileWrite, s3)
  }

  // ---------------------------------------------------------------------------
  // Loading a key (load_api_key, df_init)

  /** The api_key buffer after load_api_key: the file's first line read with
      fgets into API_KEY_BUF_SIZE bytes when the file opens, unchanged when it
      does not. */
  function LoadedKeyBuffer(buf: seq<char>, path: string, files: map<string, string>): (r: seq<char>)
    requires |buf| == API_KEY_BUF_SIZE
    ensures |r| == API_KEY_BUF_SIZE
  {
    if path in files then FgetsBuffer(buf, API_KEY_BUF_SIZE, files[path]) else buf
  }

  /** The calls load_api_key makes. */
  function LoadOps(path: string, files: map<string, string>): seq<FsOp>
  {
    [Open(path, "r")] + (if path in files then [Close(path)] else [])
  }

  /** The key load_api_key leaves: the file's first line, newline included when
      it fits, cut to API_KEY_BUF_SIZE - 1 characters (and read up to its first
      NUL); the previous key when the file is absent or empty. */
  lemma LoadedKey(buf: seq<char>, path: string, files: map<string, string>)
    requires |buf| == API_KEY_BUF_SIZE
    ensures path in files && files[path] != [] ==>
      var line := files[path][..LineLength(files[path], API_KEY_BUF_SIZE - 1)];
      CString(LoadedKeyBuffer(buf, path, files)) == CString(line)
    ensures path !in files || files[path] == [] ==>
      LoadedKeyBuffer(buf, path, files) == buf
  {
    if path in files && files[path] != [] {
      var line := files[path][..LineLength(files[path], API_KEY_BUF_SIZE - 1)];
      var w := LoadedKeyBuffer(buf, path, files);
      assert w == Written(buf, 0, API_KEY_BUF_SIZE, line);
      WrittenStarts(buf, API_KEY_BUF_SIZE, line);
      CStringPrefix(w, line);
    }
  }

  /** Reading a buffer that starts with t followed by a NUL reads t up to its
      own first NUL. */
  lemma {:induction false} CStringPrefix(s: seq<char>, t: string)
    requires |t| < |s| && s[..|t|] == t && s[|t|] == '\0'
    ensures CString(s) == CString(t)
  {
    if t != [] && t[0] != '\0' {
      assert s[1..][..|t| - 1] == t[1..];
      CStringPrefix(s[1..], t[1..]);
    }
  }

  /** A key that was saved loads back unchanged into a fresh store: any
      newline-free key accepted by df_save_api_key round-trips through the next
      df_init. */
  lemma SavedKeyLoadsBack(current: CStr, key: CStr, path: CStr, s: FsState)
    requires '\n' !in key
    requires Save(current, key, path, s).code == NoError && current != key
    ensures CString(LoadedKeyBuffer(Zeros(API_KEY_BUF_SIZE), path, Save(current, key, path, s).fs.files)) == key
  {
    var files := Save(current, key, path, s).fs.files;
    LoadedKey(Zeros(API_KEY_BUF_SIZE), path, files);
    if key != [] {
      var n := LineLength(key, API_KEY_BUF_SIZE - 1);
      assert n == |key|;
      assert key[..n] == key;
    } else {
      CStringIs(Zeros(API_KEY_BUF_SIZE), []);
    }
  }

  // ---------------------------------------------------------------------------
  // The abstract file system and the store's record (df_data_t)

  class FileSystem {
    var dirs: set<string>
    var files: map<string, string>
    var openFails: set<string>
    var writeFails: set<string>
    ghost var ops: seq<FsOp>

    ghost function State(): FsState
      reads this
    {
      FsState(dirs, files, openFails, writeFails, ops)
    }

    /** The file system as a process finds it. Startup.RunClient is handed
        one rather than making it, since opening the real one is I/O. */
    constructor (dirs: set<string>, files: map<string, string>, openFails: set<string>, writeFails: set<string>)
      ensures State() == FsState(dirs, files, openFails, writeFails, [])
    {
      this.dirs := dirs;
      this.files := files;
      this.openFails := openFails;
      this.writeFails := writeFails;
      this.ops := [];
    }

    /** One prefix: stat it, and make it with mode 0700 when stat does not
        find it. */
    method VisitDir(dir: string)
      modifies this`dirs, this`ops
      ensures dirs == old(dirs) + {dir}
      ensures ops == old(ops) + [Stat(dir)] + (if dir in old(dirs) then [] else [Mkdir(dir, DIR_MODE)])
    {
      if dir !in dirs {
        dirs := dirs + {dir};
        ops := ops + [Stat(dir), Mkdir(dir, DIR_MODE)];
      } else {
        ops := ops + [Stat(dir)];
      }
    }

    /** ensure_data_dir_present(path): walks the '/' characters of path with
        strchr and makes every prefix up to one of them that stat does not find. */
    method EnsureDataDirPresent(path: CStr)
      modifies this`dirs, this`ops
      ensures State() == EnsureDirs(path, old(State()))
    {
      var pos := 0;
      while pos < |path|
        invariant pos <= |path|
        invariant dirs == old(dirs) + Elements(DirPrefixesUpTo(path, pos))
        invariant ops == old(ops) + DirOps(DirPrefixesUpTo(path, pos), old(dirs))
      {
        var found := Strchr(path, pos, '/');
        if found.None? {
          NoSlashNoPrefix(path, pos, |path|);
          break;
        }
        var index := found.value;
        var dir := path[..index + 1];
        PrefixStep(path, pos, index, old(dirs));
        VisitDir(dir);
        pos := index + 1;
      }
    }
  }

  /** One turn of ensure_data_dir_present's loop: the next '/' at index adds
      the one prefix path[..index + 1], which is new, so stat finds it exactly
      when it was there before the walk began. */
  lemma PrefixStep(path: string, pos: nat, index: nat, dirs: set<string>)
    requires pos <= index < |path| && path[index] == '/'
    requires forall i :: pos <= i < index ==> path[i] != '/'
    ensures var before := DirPrefixesUpTo(path, pos);
      var dir := path[..index + 1];
      && DirPrefixesUpTo(path, index + 1) == before + [dir]
      && dir !in before
      && Elements(before + [dir]) == Elements(before) + {dir}
      && (dir in dirs + Elements(before) <==> dir in dirs)
      && DirOps(before + [dir], dirs) ==
           DirOps(before, dirs) + [Stat(dir)] + (if dir in dirs then [] else [Mkdir(dir, DIR_MODE)])
  {
    var before := DirPrefixesUpTo(path, pos);
    var dir := path[..index + 1];
    NoSlashNoPrefix(path, pos, index);
    PrefixIsNew(path, pos, index);
    ElementsSnoc(before, dir);
    DirOpsSnoc(before, dir, dirs);
  }

  /** A prefix ending past the first pos characters is not among those
      considered in them. */
  lemma PrefixIsNew(path: string, pos: nat, index: nat)
    requires pos <= index < |path|
    ensures path[..index + 1] !in DirPrefixesUpTo(path, pos)
  {
    DirPrefixesShape(path, pos);
  }

  lemma ElementsSnoc(ps: seq<string>, x: string)
    ensures Elements(ps + [x]) == Elements(ps) + {x}
  {
  }

  lemma DirOpsSnoc(ps: seq<string>, x: string, dirs: set<string>)
    ensures DirOps(ps + [x], dirs) == DirOps(ps, dirs) + [Stat(x)] + (if x in dirs then [] else [Mkdir(x, DIR_MODE)])
  {
    assert (ps + [x])[..|ps|] == ps;
  }

  /** df_data_t: the key file's path and the key, each a fixed-size buffer
      holding a C string. */
  class DataFile {
    const apiKeyFilePath: array<char>
    const apiKey: array<char>

    ghost predicate Valid()
      reads this, apiKey
    {
      && apiKeyFilePath.Length == PATH_BUF_SIZE
      && apiKey.Length == API_KEY_BUF_SIZE
      && apiKeyFilePath != apiKey
      && '\0' in apiKey[..]
    }

    /** A zero-filled record, as the static df_data starts. */
    constructor ()
      ensures Valid() && fresh(apiKeyFilePath) && fresh(apiKey)
      ensures apiKeyFilePath[..] == Zeros(PATH_BUF_SIZE) && apiKey[..] == Zeros(API_KEY_BUF_SIZE)
    {
      apiKeyFilePath := new char[PATH_BUF_SIZE](_ => '\0');
      apiKey := new char[API_KEY_BUF_SIZE](_ => '\0');
      new;
      assert apiKey[..][0] == '\0';
    }

    /** df_get_api_key: the key the record holds, at most 39 characters. */
    function ApiKey(): (k: CStr)
      reads this, apiKey
      requires Valid()
      ensures |k| < API_KEY_BUF_SIZE
    {
      CString(apiKey[..])
    }

    /** The path the record holds. */
    function FilePath(): CStr
      reads this, apiKeyFilePath
    {
      CString(apiKeyFilePath[..])
    }

    /** load_api_key_file_path(data->api_key_file_path, PATH_BUF_SIZE), with
        the whole path's length checked. */
    method LoadApiKeyFilePath(env: Env) returns (code: ErrorCode)
      requires Valid()
      modifies apiKeyFilePath
      ensures PathResult(code, apiKeyFilePath[..]) == CheckedFilePath(env, old(apiKeyFilePath[..]))
    {
      ghost var b0 := apiKeyFilePath[..];
      var used := 0;
      if !UsesXdg(env) {
        used := Snprintf(apiKeyFilePath, 0, PATH_BUF_SIZE, env.home + "/" + HOME_DATA_DIR);
        if used >= PATH_BUF_SIZE - 1 {
          return ErrDataPathExceedMaxPath;
        }
      } else {
        used := Snprintf(apiKeyFilePath, 0, PATH_BUF_SIZE, env.xdgDataHome.value);
      }
      assert apiKeyFilePath[..] == Written(b0, 0, PATH_BUF_SIZE, BaseText(env));
      assert used == SnprintfResult(|BaseText(env)|, PATH_BUF_SIZE);
      var segment := Snprintf(apiKeyFilePath, used, PATH_BUF_SIZE - used, DATA_FILE_SUFFIX);
      if used + segment >= PATH_BUF_SIZE - 1 {
        return ErrDataFileExceedMaxPath;
      }
      return NoError;
    }

    /** load_api_key(data->api_key_file_path, data->api_key, API_KEY_BUF_SIZE). */
    method LoadApiKey(fs: FileSystem)
      requires Valid()
      modifies apiKey, fs`ops
      ensures Valid()
      ensures apiKey[..] == LoadedKeyBuffer(old(apiKey[..]), FilePath(), fs.files)
      ensures fs.ops == old(fs.ops) + LoadOps(FilePath(), fs.files)
    {
      var path := FilePath();
      fs.ops := fs.ops + [Open(path, "r")];
      if path in fs.files {
        var _ := Fgets(apiKey, API_KEY_BUF_SIZE, fs.files[path]);
        fs.ops := fs.ops + [Close(path)];
        assert apiKey[..][Stored(|fs.files[path][..LineLength(fs.files[path], API_KEY_BUF_SIZE - 1)]|, API_KEY_BUF_SIZE)] == '\0'
          || fs.files[path] == [];
      }
    }

    /** df_init: resolves the path and, only when that succeeds, loads the key. */
    method DfInit(env: Env, fs: FileSystem) returns (code: ErrorCode)
      requires Valid()
      modifies apiKeyFilePath, apiKey, fs`ops
      ensures Valid()
      ensures PathResult(code, apiKeyFilePath[..]) == CheckedFilePath(env, old(apiKeyFilePath[..]))
      ensures code != NoError ==> apiKey[..] == old(apiKey[..]) && fs.ops == old(fs.ops)
      ensures code == NoError ==>
        && apiKey[..] == LoadedKeyBuffer(old(apiKey[..]), FilePath(), fs.files)
        && fs.ops == old(fs.ops) + LoadOps(FilePath(), fs.files)
    {
      code := LoadApiKeyFilePath(env);
      if code != NoError {
        return;
      }
      LoadApiKey(fs);
      code := NoError;
    }

    /** df_save_api_key(data, newKey): the record itself never changes. */
    method SaveApiKey(fs: FileSystem, newKey: CStr) returns (code: ErrorCode)
      requires Valid()
      modifies fs`dirs, fs`files, fs`ops
      ensures SaveOutcome(code, fs.State()) == Save(ApiKey(), newKey, FilePath(), old(fs.State()))
    {
      if ApiKey() == newKey {
        return NoError;
      }
      if |newKey| >= API_KEY_BUF_SIZE {
        return ErrApiKeyExceedMaxLen;
      }
      var path := FilePath();
      fs.EnsureDataDirPresent(path);
      fs.ops := fs.ops + [Open(path, "w")];
      if path in fs.openFails {
        code := ErrDataFileOpen;
      } else {
        if path in fs.writeFails {
          fs.files := fs.files[path := ""];
          code := ErrDataFileWrite;
        } else {
          fs.files := fs.files[path := newKey];
          code := NoError;
        }
        fs.ops := fs.ops + [Puts(path, newKey), Close(path)];
      }
    }
  }
}
