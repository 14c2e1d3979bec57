/** The behaviour of one rotating local stream (`LocalFileHandler` together
    with `upload_file` and `archive_file`), stated as functions of the local
    files, the remote directories and the stream's current path. The class in
    FileStore.dfy is proved to follow these functions step by step. */
module Storage {
  import opened Wrappers
  import opened Text
  import opened JsonData
  import opened Naming
  import opened Paths

  /** What a local file holds. A file written by `json.dump` holds a JSON
      value; any other content (generated sentences, or a damaged JSON file)
      is text, which `json.load` rejects. */
  datatype FileBody = JsonDoc(value: Json) | Text(text: string)

  type Files = map<string, FileBody>

  /** Remote directory path to the names `listdir` reports there. */
  type RemoteDirs = map<string, seq<string>>

  /** The constructor arguments of one `LocalFileHandler`, with the two
      configuration entries it reads (`files.base_filename`, `sftp.remote_path`).
      `baseName` is stored by the source but never used. */
  datatype StreamConfig = StreamConfig(
    baseName: string,
    localDir: string,
    fileType: string,
    sizeLimit: int,
    remoteSubdir: string,
    baseFilename: string,
    remotePath: string,
    languageCode: string)

  function RemoteDir(cfg: StreamConfig): string
  {
    Join(cfg.remotePath, cfg.remoteSubdir)
  }

  /** Everything a stream operation can read or change: the local files, the
      remote directories and the stream's current file (None once allocation failed). */
  datatype StreamState = StreamState(files: Files, remote: RemoteDirs, current: Option<string>)

  /** What the outside world does during one possible rotation: whether the
      SFTP transfer goes through, the two `datetime.now()` readings, and
      whether the server can be reached for the suffix listing. */
  datatype Conditions = Conditions(
    transferOk: bool,
    archiveStamp: Stamp,
    createStamp: Stamp,
    listingReachable: bool)

  /** Which branch of `_check_size_and_rotate` ran. */
  datatype Rotation = NotDue | UploadFailed | Rotated

  /** Whether an append wrote to the current file (and then which rotation
      branch ran) or was abandoned. */
  datatype AppendOutcome = NotWritten | Written(rotation: Rotation)

  // ---------------------------------------------------------------------
  // New files
  // ---------------------------------------------------------------------

  /** What `_get_next_suffix` gets from listing the stream's remote directory. */
  function ListingOf(remote: RemoteDirs, dir: string, reachable: bool): Listing
  {
    if !reachable then Unreachable
    else if dir in remote then Listed(remote[dir])
    else ListingFailed
  }

  /** The path `_create_new_file` returns. */
  function NewFilePath(cfg: StreamConfig, remote: RemoteDirs, stamp: Stamp, reachable: bool): (path: Option<string>)
    // no connection, no file
    ensures !reachable ==> path.None?
    // a remote directory that cannot be listed counts as empty, so a file is always allocated
    ensures reachable && RemoteDir(cfg) !in remote ==> path.Some?
  {
    var prefix := FullPrefix(cfg.baseFilename, StreamTag(cfg.fileType, cfg.languageCode), stamp);
    match NextSuffix(ListingOf(remote, RemoteDir(cfg), reachable), prefix)
    case None => None
    case Some(suffix) => Some(Join(cfg.localDir, NewFileName(prefix, suffix, Extension(cfg.fileType))))
  }

  /** The local files after `_create_new_file`: a new JSON file starts as `[]`;
      a text file is not created until its first append. */
  function CreatedFiles(cfg: StreamConfig, files: Files, path: Option<string>): Files
  {
    if cfg.fileType == "json" && path.Some? then files[path.value := JsonDoc(JArray([]))] else files
  }

  /** A new file's path ends in `.json` or `.txt` right after a suffix digit,
      and its base name is the name the allocator built, so the remote
      directory did not hold it when it was chosen. */
  lemma NewFilePathShape(cfg: StreamConfig, remote: RemoteDirs, stamp: Stamp, reachable: bool)
    requires NewFilePath(cfg, remote, stamp, reachable).Some?
    requires '/' !in cfg.baseFilename && '/' !in StreamTag(cfg.fileType, cfg.languageCode)
    ensures reachable
    ensures var path := NewFilePath(cfg, remote, stamp, reachable).value;
            && HasExtension(path, Extension(cfg.fileType))
            && (RemoteDir(cfg) in remote && reachable ==> Basename(path) !in remote[RemoteDir(cfg)])
  {
    var prefix, suffix := NewFilePathParts(cfg, remote, stamp, reachable);
    var listing := ListingOf(remote, RemoteDir(cfg), reachable);
    var ext := Extension(cfg.fileType);
    var name := NewFileName(prefix, suffix, ext);
    NameHasNoSlash(cfg.baseFilename, StreamTag(cfg.fileType, cfg.languageCode), stamp, suffix, ext);
    BasenameOfJoin(cfg.localDir, name);
    NewFileNameIsFresh(listing, prefix, ext);
    JoinedNameHasExtension(cfg.localDir, prefix, suffix, ext);
  }

  /** A file name built from slash-free parts, a timestamp and a suffix holds no `/`. */
  lemma NameHasNoSlash(baseFilename: string, tag: string, stamp: Stamp, suffix: string, ext: string)
    requires '/' !in baseFilename && '/' !in tag && '/' !in ext && AllDigits(suffix)
    ensures '/' !in NewFileName(FullPrefix(baseFilename, tag, stamp), suffix, ext)
  {
    assert '/' !in stamp by {
      forall j | 0 <= j < |stamp| ensures stamp[j] != '/' { assert IsDigit(stamp[j]); }
    }
    assert '/' !in suffix by {
      forall j | 0 <= j < |suffix| ensures suffix[j] != '/' { assert IsDigit(suffix[j]); }
    }
    assert NewFileName(FullPrefix(baseFilename, tag, stamp), suffix, ext)
           == baseFilename + "-" + tag + "-" + stamp + "-" + suffix + "." + ext;
  }

  /** The joined path ends with `.ext` right after the suffix's last digit. */
  lemma JoinedNameHasExtension(dir: string, prefix: string, suffix: string, ext: string)
    requires |suffix| == SuffixWidth && AllDigits(suffix)
    ensures HasExtension(Join(dir, NewFileName(prefix, suffix, ext)), ext)
  {
    var name := NewFileName(prefix, suffix, ext);
    var path := Join(dir, name);
    JoinEndsWithName(dir, name);
    assert path[|path| - |name|..] == name;
    assert name[|name| - |ext|..] == ext;
    assert name[|name| - |ext| - 2] == suffix[SuffixWidth - 1];
    assert IsDigit(suffix[SuffixWidth - 1]);
  }

  // ---------------------------------------------------------------------
  // Upload and archive
  // ---------------------------------------------------------------------

  /** `upload_file`: the file is put into the remote directory (created if
      missing) under its own base name. It fails, changing nothing, when the
      transfer does not go through or the local file is missing. */
  function Upload(files: Files, remote: RemoteDirs, path: string, dir: string, transferOk: bool): (r: (bool, RemoteDirs))
    ensures r.0 <==> transferOk && path in files
    ensures !r.0 ==> r.1 == remote
    ensures r.0 ==> r.1.Keys == remote.Keys + {dir} && Basename(path) in r.1[dir]
    ensures r.0 ==> forall d :: d in remote && d != dir ==> r.1[d] == remote[d]
    ensures r.0 ==> dir in remote ==> forall n :: n in remote[dir] ==> n in r.1[dir]
  {
    if !transferOk || path !in files then (false, remote)
    else
      var listed := if dir in remote then remote[dir] else [];
      var name := Basename(path);
      (true, remote[dir := if name in listed then listed else listed + [name]])
  }

  /** An upload adds the file's base name to the directory listing, once,
      and nothing else. */
  lemma UploadAddsOnlyTheName(files: Files, remote: RemoteDirs, path: string, dir: string)
    requires path in files
    ensures var listed := if dir in remote then remote[dir] else [];
            Upload(files, remote, path, dir, true).1[dir]
            == listed + (if Basename(path) in listed then [] else [Basename(path)])
  {
  }

  /** `archive_file`: the file is moved to its archive name; if it is missing
      the error is swallowed and nothing changes. */
  function Archive(files: Files, path: string, stamp: Stamp): (r: Files)
    ensures path in files ==> path !in r && ArchiveName(path, stamp) in r
                              && r[ArchiveName(path, stamp)] == files[path]
    ensures path in files ==> r.Keys == files.Keys - {path} + {ArchiveName(path, stamp)}
    ensures path !in files ==> r == files
    ensures forall p :: p in files && p != path && p != ArchiveName(path, stamp) ==> p in r && r[p] == files[p]
  {
    if path in files then (files - {path})[ArchiveName(path, stamp) := files[path]] else files
  }

  // ---------------------------------------------------------------------
  // Rotation
  // ---------------------------------------------------------------------

  /** `_check_size_and_rotate`. */
  function Rotate(cfg: StreamConfig, sizeOf: FileBody -> nat, s: StreamState, cond: Conditions): (r: (StreamState, Rotation))
    // rotation is attempted exactly when the current file has reached the limit
    ensures r.1 != NotDue <==> (s.current.Some? && s.current.value in s.files
                                && sizeOf(s.files[s.current.value]) >= cfg.sizeLimit)
    // archiving and a new file happen exactly when the upload succeeded
    ensures r.1 == Rotated <==> (r.1 != NotDue && cond.transferOk)
    // otherwise nothing changes, in particular the current path
    ensures r.1 != Rotated ==> r.0 == s
    ensures r.1 == Rotated ==>
      var path := s.current.value;
      && r.0.remote == Upload(s.files, s.remote, path, RemoteDir(cfg), true).1
      && Basename(path) in r.0.remote[RemoteDir(cfg)]
      && r.0.current == NewFilePath(cfg, r.0.remote, cond.createStamp, cond.listingReachable)
      && r.0.files == CreatedFiles(cfg, Archive(s.files, path, cond.archiveStamp), r.0.current)
  {
    if s.current.None? then (s, NotDue)
    else
      var path := s.current.value;
      if path !in s.files then (s, NotDue)  // getsize raises OSError, which is caught
      else if sizeOf(s.files[path]) < cfg.sizeLimit then (s, NotDue)
      else
        var (ok, remote) := Upload(s.files, s.remote, path, RemoteDir(cfg), cond.transferOk);
        if !ok then (s, UploadFailed)
        else
          var archived := Archive(s.files, path, cond.archiveStamp);
          var next := NewFilePath(cfg, remote, cond.createStamp, cond.listingReachable);
          (StreamState(CreatedFiles(cfg, archived, next), remote, next), Rotated)
  }

  // ---------------------------------------------------------------------
  // Appends
  // ---------------------------------------------------------------------

  /** `append_record`. */
  function AppendRecord(cfg: StreamConfig, sizeOf: FileBody -> nat, s: StreamState, record: Json, cond: Conditions)
    : (r: (StreamState, AppendOutcome))
    // a wrong file type, an unset path, a missing file or a stored non-list writes nothing
    ensures r.1.Written? <==> (&& cfg.fileType == "json" && s.current.Some? && s.current.value in s.files
                               && !(s.files[s.current.value].JsonDoc? && !s.files[s.current.value].value.JArray?))
    ensures r.1 == NotWritten ==> r.0 == s
    // without a rotation, the record is added at the end of the stored list (or of [])
    ensures r.1.Written? && r.1.rotation != Rotated ==>
      var path := s.current.value;
      var before := if s.files[path].JsonDoc? then s.files[path].value.items else [];
      r.0 == s.(files := s.files[path := JsonDoc(JArray(before + [record]))])
    // a rotation starts from the file with the record added
    ensures r.1 == Written(Rotated) ==>
      var path := s.current.value;
      var before := if s.files[path].JsonDoc? then s.files[path].value.items else [];
      Rotate(cfg, sizeOf, s.(files := s.files[path := JsonDoc(JArray(before + [record]))]), cond) == (r.0, Rotated)
  {
    if cfg.fileType != "json" || s.current.None? then (s, NotWritten)
    else
      var path := s.current.value;
      if path !in s.files then (s, NotWritten)  // opening with 'r+' fails
      else
        var body := s.files[path];
        if body.JsonDoc? && !body.value.JArray? then (s, NotWritten)  // a non-list has no append
        else
          // unparseable content is replaced by [] before the record is added
          var before := if body.JsonDoc? then body.value.items else [];
          var (s', rot) := Rotate(cfg, sizeOf, s.(files := s.files[path := JsonDoc(JArray(before + [record]))]), cond);
          (s', Written(rot))
  }

  /** `append_text`. */
  function AppendText(cfg: StreamConfig, sizeOf: FileBody -> nat, s: StreamState, text: string, cond: Conditions)
    : (r: (StreamState, AppendOutcome))
    // a wrong file type, an unset path or a file holding JSON writes nothing
    ensures r.1.Written? <==> (&& cfg.fileType == "txt" && s.current.Some?
                               && !(s.current.value in s.files && s.files[s.current.value].JsonDoc?))
    ensures r.1 == NotWritten ==> r.0 == s
    // without a rotation, exactly text + "\n" is added at the end (a missing file is created)
    ensures r.1.Written? && r.1.rotation != Rotated ==>
      var path := s.current.value;
      var before := if path in s.files then s.files[path].text else "";
      r.0 == s.(files := s.files[path := Text(before + text + "\n")])
    ensures r.1 == Written(Rotated) ==>
      var path := s.current.value;
      var before := if path in s.files then s.files[path].text else "";
      Rotate(cfg, sizeOf, s.(files := s.files[path := Text(before + text + "\n")]), cond) == (r.0, Rotated)
  {
    if cfg.fileType != "txt" || s.current.None? then (s, NotWritten)
    else
      var path := s.current.value;
      if path in s.files && s.files[path].JsonDoc? then (s, NotWritten)
      else
        // mode 'a' creates a missing file
        var before := if path in s.files then s.files[path].text else "";
        var (s', rot) := Rotate(cfg, sizeOf, s.(files := s.files[path := Text(before + text + "\n")]), cond);
        (s', Written(rot))
  }

  // ---------------------------------------------------------------------
  // What rotation and appending guarantee
  // ---------------------------------------------------------------------

  /** No data loss across a rotation: the uploaded file is in the remote
      directory and has been moved (not deleted) to its archive name, and the
      stream continues in a file whose name differs from every name in the
      remote directory, the one just uploaded included. */
  lemma RotationLosesNothing(cfg: StreamConfig, sizeOf: FileBody -> nat, s: StreamState, cond: Conditions)
    requires Rotate(cfg, sizeOf, s, cond).1 == Rotated
    requires HasExtension(s.current.value, Extension(cfg.fileType))
    requires '/' !in cfg.baseFilename && '/' !in StreamTag(cfg.fileType, cfg.languageCode)
    ensures var r := Rotate(cfg, sizeOf, s, cond).0;
            var path := s.current.value;
            var archive := ArchiveName(path, cond.archiveStamp);
            && Basename(path) in r.remote[RemoteDir(cfg)]
            && archive in r.files && r.files[archive] == s.files[path]
            && path !in r.files
            && r.current != Some(path)
            && (r.current.Some? ==>
                  && HasExtension(r.current.value, Extension(cfg.fileType))
                  && Basename(r.current.value) !in r.remote[RemoteDir(cfg)])
  {
    var path := s.current.value;
    var dir := RemoteDir(cfg);
    var remote := Upload(s.files, s.remote, path, dir, true).1;
    var next := NewFilePath(cfg, remote, cond.createStamp, cond.listingReachable);
    var archived := Archive(s.files, path, cond.archiveStamp);
    var archive := ArchiveName(path, cond.archiveStamp);
    assert Rotate(cfg, sizeOf, s, cond).0 == StreamState(CreatedFiles(cfg, archived, next), remote, next);
    if next.Some? {
      NextPathAvoidsOldOnes(cfg, remote, cond.createStamp, cond.listingReachable, path, cond.archiveStamp);
    }
  }

  /** A path allocated after `path` was uploaded is neither `path` nor its
      archive name, and is fresh on the server. */
  lemma NextPathAvoidsOldOnes(
    cfg: StreamConfig, remote: RemoteDirs, stamp: Stamp, reachable: bool, path: string, archiveStamp: Stamp)
    requires NewFilePath(cfg, remote, stamp, reachable).Some?
    requires RemoteDir(cfg) in remote && Basename(path) in remote[RemoteDir(cfg)]
    requires HasExtension(path, Extension(cfg.fileType))
    requires '/' !in cfg.baseFilename && '/' !in StreamTag(cfg.fileType, cfg.languageCode)
    ensures var next := NewFilePath(cfg, remote, stamp, reachable).value;
            && next != path && next != ArchiveName(path, archiveStamp)
            && HasExtension(next, Extension(cfg.fileType))
            && Basename(next) !in remote[RemoteDir(cfg)]
  {
    NewFilePathShape(cfg, remote, stamp, reachable);
    NewPathIsNotArchive(cfg, remote, stamp, reachable, path, archiveStamp);
  }

  /** The parts a new path is built from. */
  lemma NewFilePathParts(cfg: StreamConfig, remote: RemoteDirs, stamp: Stamp, reachable: bool)
    returns (prefix: string, suffix: string)
    requires NewFilePath(cfg, remote, stamp, reachable).Some?
    ensures prefix == FullPrefix(cfg.baseFilename, StreamTag(cfg.fileType, cfg.languageCode), stamp)
    ensures NextSuffix(ListingOf(remote, RemoteDir(cfg), reachable), prefix) == Some(suffix)
    ensures |suffix| == SuffixWidth && AllDigits(suffix)
    ensures NewFilePath(cfg, remote, stamp, reachable).value
            == Join(cfg.localDir, NewFileName(prefix, suffix, Extension(cfg.fileType)))
  {
    prefix := FullPrefix(cfg.baseFilename, StreamTag(cfg.fileType, cfg.languageCode), stamp);
    suffix := NextSuffix(ListingOf(remote, RemoteDir(cfg), reachable), prefix).value;
  }

  /** Six places before the dot a new name has the `-` that ends its prefix. */
  lemma DashBeforeSuffix(dir: string, prefix: string, suffix: string, ext: string)
    requires EndsWith(prefix, "-") && |suffix| == SuffixWidth
    ensures var p := Join(dir, NewFileName(prefix, suffix, ext));
            |p| >= |ext| + 7 && p[|p| - |ext| - 7] == '-'
  {
    var name := NewFileName(prefix, suffix, ext);
    var p := Join(dir, name);
    assert name == prefix + (suffix + "." + ext);
    assert name[|name| - |ext| - 7] == prefix[|prefix| - 1];
    assert p[|p| - |ext| - 7] == name[|name| - |ext| - 7];
  }

  /** Six places before the dot an archive name has a digit of its timestamp. */
  lemma DigitBeforeArchiveExtension(path: string, stamp: Stamp, ext: string)
    requires '.' !in ext && '/' !in ext
    requires HasExtension(path, ext)
    ensures var a := ArchiveName(path, stamp);
            |a| >= |ext| + 7 && IsDigit(a[|a| - |ext| - 7])
  {
    ArchiveNameKeepsExtension(path, stamp, ext);
    var a := ArchiveName(path, stamp);
    var root := path[..|path| - |ext| - 1];
    assert a == (root + "_") + stamp + "." + ext;
    assert a[|a| - |ext| - 7] == stamp[8];
    assert IsDigit(stamp[8]);
  }

  /** A freshly allocated path never coincides with an archive name. */
  lemma NewPathIsNotArchive(cfg: StreamConfig, remote: RemoteDirs, stamp: Stamp, reachable: bool, path: string, archiveStamp: Stamp)
    requires NewFilePath(cfg, remote, stamp, reachable).Some?
    requires HasExtension(path, Extension(cfg.fileType))
    ensures NewFilePath(cfg, remote, stamp, reachable).value != ArchiveName(path, archiveStamp)
  {
    var prefix, suffix := NewFilePathParts(cfg, remote, stamp, reachable);
    var ext := Extension(cfg.fileType);
    DashBeforeSuffix(cfg.localDir, prefix, suffix, ext);
    DigitBeforeArchiveExtension(path, archiveStamp, ext);
    var newPath := Join(cfg.localDir, NewFileName(prefix, suffix, ext));
    var archive := ArchiveName(path, archiveStamp);
    assert !IsDigit('-');
    assert |newPath| != |archive| || newPath[|newPath| - |ext| - 7] != archive[|archive| - |ext| - 7];
  }

  /** Appending several records, one after the other. */
  function AppendRecords(cfg: StreamConfig, sizeOf: FileBody -> nat, s: StreamState, records: seq<Json>, conds: seq<Conditions>)
    : StreamState
    requires |conds| == |records|
    decreases |records|
  {
    if records == [] then s
    else AppendRecords(cfg, sizeOf, AppendRecord(cfg, sizeOf, s, records[0], conds[0]).0, records[1..], conds[1..])
  }

  /** While uploads keep failing the stream keeps its file, whatever its size,
      and every record lands in it, in order; the remote side is untouched. */
  lemma {:induction false} FailedUploadsKeepAppending(
    cfg: StreamConfig, sizeOf: FileBody -> nat, s: StreamState, items: seq<Json>, records: seq<Json>, conds: seq<Conditions>)
    requires cfg.fileType == "json" && s.current.Some? && s.current.value in s.files
    requires s.files[s.current.value] == JsonDoc(JArray(items))
    requires |conds| == |records| && forall i :: 0 <= i < |conds| ==> !conds[i].transferOk
    ensures AppendRecords(cfg, sizeOf, s, records, conds)
            == s.(files := s.files[s.current.value := JsonDoc(JArray(items + records))])
    decreases |records|
  {
    var path := s.current.value;
    if records == [] {
      assert items + records == items;
      assert s.files[path := JsonDoc(JArray(items))] == s.files;
    } else {
      var s1 := AppendRecord(cfg, sizeOf, s, records[0], conds[0]).0;
      assert s1 == s.(files := s.files[path := JsonDoc(JArray(items + [records[0]]))]);
      FailedUploadsKeepAppending(cfg, sizeOf, s1, items + [records[0]], records[1..], conds[1..]);
      assert items + [records[0]] + records[1..] == items + records;
    }
  }

  /** A size measure under which every stored record takes 40 bytes. */
  function FortyBytesPerRecord(b: FileBody): nat
  {
    if b.JsonDoc? && b.value.JArray? then 40 * |b.value.items| else 0
  }

  /** With a 100-byte limit and 40 bytes per record, the third record crosses
      the limit and triggers an upload; when that upload fails, the file keeps
      all three records and stays the stream's file. */
  lemma ThirdRecordCrossesTheLimit(cfg: StreamConfig, s: StreamState, r1: Json, r2: Json, r3: Json, cond: Conditions)
    requires cfg.fileType == "json" && cfg.sizeLimit == 100 && !cond.transferOk
    requires s.current.Some? && s.current.value in s.files && s.files[s.current.value] == JsonDoc(JArray([]))
    ensures var a1 := AppendRecord(cfg, FortyBytesPerRecord, s, r1, cond);
            var a2 := AppendRecord(cfg, FortyBytesPerRecord, a1.0, r2, cond);
            var a3 := AppendRecord(cfg, FortyBytesPerRecord, a2.0, r3, cond);
            && a1.1 == Written(NotDue) && a2.1 == Written(NotDue) && a3.1 == Written(UploadFailed)
            && a3.0 == s.(files := s.files[s.current.value := JsonDoc(JArray([r1, r2, r3]))])
  {
    var path := s.current.value;
    var a1 := AppendRecord(cfg, FortyBytesPerRecord, s, r1, cond);
    assert [] + [r1] == [r1];
    assert a1.0 == s.(files := s.files[path := JsonDoc(JArray([r1]))]);
    var a2 := AppendRecord(cfg, FortyBytesPerRecord, a1.0, r2, cond);
    assert [r1] + [r2] == [r1, r2];
    assert a2.0 == s.(files := s.files[path := JsonDoc(JArray([r1, r2]))]);
    assert [r1, r2] + [r3] == [r1, r2, r3];
  }

  /** The lines a sequence of text appends adds: each text followed by a newline. */
  function Lines(texts: seq<string>): string
    decreases |texts|
  {
    if texts == [] then "" else texts[0] + "\n" + Lines(texts[1..])
  }

  /** Appending several texts, one after the other. */
  function AppendTexts(cfg: StreamConfig, sizeOf: FileBody -> nat, s: StreamState, texts: seq<string>, conds: seq<Conditions>)
    : StreamState
    requires |conds| == |texts|
    decreases |texts|
  {
    if texts == [] then s
    else AppendTexts(cfg, sizeOf, AppendText(cfg, sizeOf, s, texts[0], conds[0]).0, texts[1..], conds[1..])
  }

  /** The text counterpart: with failing uploads every sentence is appended,
      in order, to the same file. */
  lemma {:induction false} FailedUploadsKeepAppendingText(
    cfg: StreamConfig, sizeOf: FileBody -> nat, s: StreamState, before: string, texts: seq<string>, conds: seq<Conditions>)
    requires cfg.fileType == "txt" && s.current.Some? && s.current.value in s.files
    requires s.files[s.current.value] == Text(before)
    requires |conds| == |texts| && forall i :: 0 <= i < |conds| ==> !conds[i].transferOk
    ensures AppendTexts(cfg, sizeOf, s, texts, conds)
            == s.(files := s.files[s.current.value := Text(before + Lines(texts))])
    decreases |texts|
  {
    var path := s.current.value;
    if texts == [] {
      assert before + Lines(texts) == before;
      assert s.files[path := Text(before)] == s.files;
    } else {
      var next := before + texts[0] + "\n";
      var s1 := AppendText(cfg, sizeOf, s, texts[0], conds[0]).0;
      assert s1 == s.(files := s.files[path := Text(next)]);
      FailedUploadsKeepAppendingText(cfg, sizeOf, s1, next, texts[1..], conds[1..]);
      assert next + Lines(texts[1..]) == before + Lines(texts);
    }
  }

  /** Once allocation has failed the stream has no file and every later
      record append is dropped. */
  lemma {:induction false} DeadStreamDropsEverything(
    cfg: StreamConfig, sizeOf: FileBody -> nat, s: StreamState, records: seq<Json>, conds: seq<Conditions>)
    requires s.current.None? && |conds| == |records|
    ensures AppendRecords(cfg, sizeOf, s, records, conds) == s
    decreases |records|
  {
    if records != [] {
      DeadStreamDropsEverything(cfg, sizeOf, s, records[1..], conds[1..]);
    }
  }

  /** The text counterpart: a stream without a file drops every later sentence. */
  lemma {:induction false} DeadStreamDropsEveryText(
    cfg: StreamConfig, sizeOf: FileBody -> nat, s: StreamState, texts: seq<string>, conds: seq<Conditions>)
    requires s.current.None? && |conds| == |texts|
    ensures AppendTexts(cfg, sizeOf, s, texts, conds) == s
    decreases |texts|
  {
    if texts != [] {
      DeadStreamDropsEveryText(cfg, sizeOf, s, texts[1..], conds[1..]);
    }
  }
}
