/** The mutable side of the storage layer: the local disk, the SFTP server and
    `LocalFileHandler`, whose methods update the disk, the server and the
    handler's current path in place. Each method is proved to do exactly what
    the corresponding function in Storage.dfy describes, so everything proved
    there (no data loss on rotation, fresh names, appends in order) holds of
    the objects too. */
module FileStore {
  import opened Wrappers
  import opened JsonData
  import opened Naming
  import opened Paths
  import opened Storage

  /** The local file system. `sizeOf` is what `os.path.getsize` reports for
      a file with the given content. */
  class Disk {
    var files: Files
    const sizeOf: FileBody -> nat

    constructor (files: Files, sizeOf: FileBody -> nat)
      ensures this.files == files && this.sizeOf == sizeOf
    {
      this.files := files;
      this.sizeOf := sizeOf;
    }
  }

  /** The SFTP server: each remote directory with the names listed in it. */
  class SftpServer {
    var dirs: RemoteDirs

    constructor (dirs: RemoteDirs)
      ensures this.dirs == dirs
    {
      this.dirs := dirs;
    }
  }

  /** `upload_file`: creates the remote directory when it is missing and puts
      the file there under its base name. `transferOk` stands for the
      connection, the login and `put` all succeeding. */
  method UploadFile(disk: Disk, server: SftpServer, filePath: string, remoteDir: string, transferOk: bool)
    returns (success: bool)
    modifies server
    ensures (success, server.dirs) == Upload(disk.files, old(server.dirs), filePath, remoteDir, transferOk)
  {
    if !transferOk || filePath !in disk.files {
      return false;
    }
    var listed: seq<string> := [];
    if remoteDir in server.dirs {
      listed := server.dirs[remoteDir];
    }
    var remoteFileName := Basename(filePath);
    if remoteFileName !in listed {
      listed := listed + [remoteFileName];
    }
    server.dirs := server.dirs[remoteDir := listed];
    return true;
  }

  /** `archive_file`: moves the file to `<root>_<stamp><ext>`; a missing file
      is reported and otherwise ignored. */
  method ArchiveFile(disk: Disk, filePath: string, stamp: Stamp)
    modifies disk
    ensures disk.files == Archive(old(disk.files), filePath, stamp)
  {
    if filePath !in disk.files {
      return;
    }
    var archiveName := ArchiveName(filePath, stamp);
    var body := disk.files[filePath];
    disk.files := (disk.files - {filePath})[archiveName := body];
  }

  /** One rotating output stream: the JSON record store or one language's
      text file. */
  class LocalFileHandler {
    const cfg: StreamConfig
    const disk: Disk
    const server: SftpServer
    var currentFilePath: Option<string>

    /** What the stream functions of Storage.dfy act on. */
    function State(): StreamState
      reads this, disk, server
    {
      StreamState(disk.files, server.dirs, currentFilePath)
    }

    /** `__init__`: stores the configuration and allocates the first file. */
    constructor (cfg: StreamConfig, disk: Disk, server: SftpServer, stamp: Stamp, reachable: bool)
      modifies disk
      ensures this.cfg == cfg && this.disk == disk && this.server == server
      ensures currentFilePath == NewFilePath(cfg, server.dirs, stamp, reachable)
      ensures disk.files == CreatedFiles(cfg, old(disk.files), currentFilePath)
    {
      this.cfg := cfg;
      this.disk := disk;
      this.server := server;
      new;
      currentFilePath := CreateNewFile(stamp, reachable);
    }

    /** `_create_new_file`: picks the next free suffix for the current second
        and builds the path; a JSON stream's file is created holding `[]`. */
    method CreateNewFile(stamp: Stamp, reachable: bool) returns (filePath: Option<string>)
      modifies disk
      ensures filePath == NewFilePath(cfg, server.dirs, stamp, reachable)
      ensures disk.files == CreatedFiles(cfg, old(disk.files), filePath)
    {
      var tag := StreamTag(cfg.fileType, cfg.languageCode);
      var fullPrefix := FullPrefix(cfg.baseFilename, tag, stamp);
      var counter := GetNextSuffix(ListingOf(server.dirs, RemoteDir(cfg), reachable), fullPrefix);
      if counter.None? {
        return None;
      }
      var extension := Extension(cfg.fileType);
      var path := Join(cfg.localDir, NewFileName(fullPrefix, counter.value, extension));
      if cfg.fileType == "json" {
        disk.files := disk.files[path := JsonDoc(JArray([]))];
      }
      return Some(path);
    }

    /** `_check_size_and_rotate`. */
    method CheckSizeAndRotate(cond: Conditions) returns (rotation: Rotation)
      modifies this, disk, server
      ensures (State(), rotation) == Rotate(cfg, disk.sizeOf, old(State()), cond)
    {
      if currentFilePath.None? {
        return NotDue;
      }
      var path := currentFilePath.value;
      if path !in disk.files {
        return NotDue;  // getsize raises, and the error is logged
      }
      if disk.sizeOf(disk.files[path]) < cfg.sizeLimit {
        return NotDue;
      }
      var success := UploadFile(disk, server, path, RemoteDir(cfg), cond.transferOk);
      if !success {
        return UploadFailed;
      }
      ArchiveFile(disk, path, cond.archiveStamp);
      currentFilePath := CreateNewFile(cond.createStamp, cond.listingReachable);
      return Rotated;
    }

    /** `append_record`: loads the stored list (an unreadable file counts as
        `[]`), adds the record, writes the list back and checks the size. */
    method AppendRecord(record: Json, cond: Conditions) returns (outcome: AppendOutcome)
      modifies this, disk, server
      ensures (State(), outcome) == Storage.AppendRecord(cfg, disk.sizeOf, old(State()), record, cond)
    {
      if cfg.fileType != "json" || currentFilePath.None? {
        return NotWritten;
      }
      var path := currentFilePath.value;
      if path !in disk.files {
        return NotWritten;
      }
      var data: seq<Json>;
      match disk.files[path] {
        case Text(_) =>
          data := [];
        case JsonDoc(v) =>
          if !v.JArray? {
            return NotWritten;  // only a list has `append`
          }
          data := v.items;
      }
      data := data + [record];
      disk.files := disk.files[path := JsonDoc(JArray(data))];
      var rotation := CheckSizeAndRotate(cond);
      return Written(rotation);
    }

    /** `append_text`: appends the text and a newline, then checks the size. */
    method AppendText(text: string, cond: Conditions) returns (outcome: AppendOutcome)
      modifies this, disk, server
      ensures (State(), outcome) == Storage.AppendText(cfg, disk.sizeOf, old(State()), text, cond)
    {
      if cfg.fileType != "txt" || currentFilePath.None? {
        return NotWritten;
      }
      var path := currentFilePath.value;
      var before := "";
      if path in disk.files {
        match disk.files[path] {
          case JsonDoc(_) =>
            return NotWritten;
          case Text(t) =>
            before := t;
        }
      }
      disk.files := disk.files[path := Text(before + text + "\n")];
      var rotation := CheckSizeAndRotate(cond);
      return Written(rotation);
    }
  }
}
