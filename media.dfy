/**
 * Media file handling of server/media.py: the path helpers, the scan of the
 * upload directory, saving an upload, and producing local audio from a
 * recording URL. Downloading and audio extraction are given as functions from
 * content to optional content (None: the library raised).
 */
module Media {
  import opened Wrappers
  import opened Paths
  import opened Disk

  /** One entry of the upload directory listing, as `iterdir`, `is_file` and `open` see it. */
  datatype DirEntry = DirEntry(name: string, isFile: bool, openable: bool)

  datatype MediaError = SaveFailed | DownloadFailed | ExtractFailed

  /** What `FileStorage.save` did: wrote the file, raised, or returned without a file on disk. */
  datatype SaveOutcome = Saved | SaveRaised | SavedNothing

  /** The disk after an operation, and the path it produced or why it failed. */
  datatype FileEffect = FileEffect(files: map<string, string>, result: Result<string, MediaError>)

  /** The path an upload called `fileName` is stored at: directly inside the upload directory. */
  function GetUploadVideoPath(uploadDir: string, fileName: string): string
  {
    Join(uploadDir, fileName)
  }

  /** A non-empty, slash-free upload name lands directly in the upload directory under that name. */
  lemma UploadVideoPathParts(uploadDir: string, fileName: string)
    requires IsDirname(uploadDir) && fileName != "" && '/' !in fileName
    ensures Dirname(GetUploadVideoPath(uploadDir, fileName)) == uploadDir
    ensures Basename(GetUploadVideoPath(uploadDir, fileName)) == fileName
  {
    JoinParts(uploadDir, fileName);
  }

  /** Where a downloaded recording is stored: `<name>.mp4` inside the upload directory. */
  function GetRecordingVideoPath(uploadDir: string, fileName: string): string
  {
    WithExtension(uploadDir, fileName, ".mp4")
  }

  lemma RecordingVideoPathParts(uploadDir: string, fileName: string)
    requires IsDirname(uploadDir) && '/' !in fileName
    ensures Dirname(GetRecordingVideoPath(uploadDir, fileName)) == uploadDir
    ensures Basename(GetRecordingVideoPath(uploadDir, fileName)) == fileName + ".mp4"
  {
    assert '/' !in ".mp4";
    WithExtensionParts(uploadDir, fileName, ".mp4");
  }

  /** Where a remote recording's audio is stored: `<name>.wav` inside the recordings directory. */
  function GetRemoteRecordingAudioPath(recordingsDir: string, fileName: string): string
  {
    WithExtension(recordingsDir, fileName, ".wav")
  }

  lemma RemoteRecordingAudioPathParts(recordingsDir: string, fileName: string)
    requires IsDirname(recordingsDir) && '/' !in fileName
    ensures Dirname(GetRemoteRecordingAudioPath(recordingsDir, fileName)) == recordingsDir
    ensures Basename(GetRemoteRecordingAudioPath(recordingsDir, fileName)) == fileName + ".wav"
  {
    assert '/' !in ".wav";
    WithExtensionParts(recordingsDir, fileName, ".wav");
  }

  /** The audio file next to a video: same directory, the video's stem with `.wav`. */
  function GetAudioPath(videoPath: string): (p: string)
    ensures EndsWith(p, ".wav")
  {
    var name := Stem(Basename(videoPath)) + ".wav";
    JoinEndsWith(Dirname(videoPath), name, ".wav");
    Join(Dirname(videoPath), name)
  }

  /** The audio path keeps the video's directory, and its name is the video's stem plus `.wav`. */
  lemma AudioPathBesideVideo(videoPath: string)
    ensures Dirname(GetAudioPath(videoPath)) == Dirname(videoPath)
    ensures Basename(GetAudioPath(videoPath)) == Stem(Basename(videoPath)) + ".wav"
  {
    DirnameShape(videoPath);
    BasenameHasNoSlash(videoPath);
    JoinParts(Dirname(videoPath), Stem(Basename(videoPath)) + ".wav");
  }

  lemma AudioPathOf(videoPath: string, dir: string, stem: string)
    requires Dirname(videoPath) == dir && Stem(Basename(videoPath)) == stem
    ensures GetAudioPath(videoPath) == Join(dir, stem + ".wav")
  {
  }

  /** The last extension of a named video is replaced by `.wav`, the stem is kept. */
  lemma AudioPathReplacesExtension(videoPath: string)
    requires Basename(videoPath) != ""
    ensures Suffix(Basename(GetAudioPath(videoPath))) == ".wav"
    ensures Stem(Basename(GetAudioPath(videoPath))) == Stem(Basename(videoPath))
  {
    AudioPathBesideVideo(videoPath);
    var s := Stem(Basename(videoPath));
    StemNonEmpty(Basename(videoPath));
    StemOfWav(s);
  }

  /** Deriving the audio path of an audio path changes nothing. */
  lemma AudioPathIdempotent(videoPath: string)
    requires Basename(videoPath) != ""
    ensures GetAudioPath(GetAudioPath(videoPath)) == GetAudioPath(videoPath)
  {
    AudioPathReplacesExtension(videoPath);
    AudioPathBesideVideo(videoPath);
    AudioPathBesideVideo(GetAudioPath(videoPath));
  }

  /** An entry the scan accepts: a regular file with suffix `.mp4` that could be opened. */
  predicate Accepted(e: DirEntry)
  {
    e.isFile && Suffix(e.name) == ".mp4" && e.openable
  }

  /**
   * The paths `get_uploaded_file_paths` returns for a listing: the first
   * accepted entry only, since the loop stops after it.
   */
  /** The position of the first element of `s` satisfying `p`, or -1 when there is none. */
  function FirstWhere<T>(p: T -> bool, s: seq<T>): (k: int)
    ensures -1 <= k < |s|
    ensures k == -1 <==> forall i :: 0 <= i < |s| ==> !p(s[i])
    ensures k >= 0 ==> p(s[k]) && forall j :: 0 <= j < k ==> !p(s[j])
  {
    if s == [] then -1
    else if p(s[0]) then 0
    else
      var k := FirstWhere(p, s[1..]);
      assert forall i :: 1 <= i < |s| ==> s[i] == s[1..][i - 1];
      if k == -1 then -1 else k + 1
  }

  function UploadScan(uploadDir: string, entries: seq<DirEntry>): (r: seq<string>)
    ensures |r| <= 1
    ensures r == [] <==> forall k :: 0 <= k < |entries| ==> !Accepted(entries[k])
    ensures r != [] ==> exists k :: 0 <= k < |entries| && Accepted(entries[k])
                                    && r == [Join(uploadDir, entries[k].name)]
                                    && forall j :: 0 <= j < k ==> !Accepted(entries[j])
  {
    var k := FirstWhere(Accepted, entries);
    if k == -1 then [] else [Join(uploadDir, entries[k].name)]
  }

  /** An entry that fails to open is passed over and the scan goes on with the entries after it. */
  lemma UnopenableEntrySkipped(uploadDir: string, entries: seq<DirEntry>)
    requires entries != [] && !entries[0].openable
    ensures UploadScan(uploadDir, entries) == UploadScan(uploadDir, entries[1..])
  {
    ScanSkips(uploadDir, entries);
  }

  /** An entry the scan does not accept is passed over. */
  lemma ScanSkips(uploadDir: string, entries: seq<DirEntry>)
    requires entries != [] && !Accepted(entries[0])
    ensures UploadScan(uploadDir, entries) == UploadScan(uploadDir, entries[1..])
  {
    var k := FirstWhere(Accepted, entries[1..]);
    assert FirstWhere(Accepted, entries) == if k == -1 then -1 else k + 1;
    if k >= 0 {
      assert entries[k + 1] == entries[1..][k];
    }
  }

  /** An accepted entry ends the scan with its path. */
  lemma ScanTakes(uploadDir: string, entries: seq<DirEntry>)
    requires entries != [] && Accepted(entries[0])
    ensures UploadScan(uploadDir, entries) == [Join(uploadDir, entries[0].name)]
  {
    assert FirstWhere(Accepted, entries) == 0;
  }

  /** `get_uploaded_file_paths`: walks the listing, skipping, and stops at the first accepted entry. */
  method GetUploadedFilePaths(uploadDir: string, entries: seq<DirEntry>) returns (paths: seq<string>)
    ensures paths == UploadScan(uploadDir, entries)
  {
    paths := [];
    var i := 0;
    while i < |entries|
      invariant 0 <= i <= |entries|
      invariant paths == []
      invariant UploadScan(uploadDir, entries) == UploadScan(uploadDir, entries[i..])
    {
      var e := entries[i];
      assert entries[i..][0] == e && entries[i..][1..] == entries[i + 1..];
      if !e.isFile || Suffix(e.name) != ".mp4" {
        ScanSkips(uploadDir, entries[i..]);
        i := i + 1;
        continue;
      }
      if !e.openable {
        // IOError: the file is still being written; try the next entry.
        ScanSkips(uploadDir, entries[i..]);
        i := i + 1;
        continue;
      }
      ScanTakes(uploadDir, entries[i..]);
      paths := paths + [Join(uploadDir, e.name)];
      break;
    }
    assert i == |entries| ==> UploadScan(uploadDir, entries[i..]) == [];
  }

  /**
   * `save_uploaded_file`: keeps only the base name of the client's file name
   * and fails when saving raised or left no file at that path.
   */
  method SaveUploadedFile(fs: FileSystem, uploadDir: string, clientFileName: string,
                          content: string, outcome: SaveOutcome)
    returns (r: Result<string, MediaError>)
    modifies fs
    ensures var p := GetUploadVideoPath(uploadDir, Basename(clientFileName));
            && (outcome == Saved ==> fs.files == old(fs.files)[p := content] && r == Success(p))
            && (outcome == SaveRaised ==> fs.files == old(fs.files) && r == Failure(SaveFailed))
            && (outcome == SavedNothing ==>
                  && fs.files == old(fs.files)
                  && r == if p in old(fs.files) then Success(p) else Failure(SaveFailed))
  {
    var fileName := Basename(clientFileName);
    var path := GetUploadVideoPath(uploadDir, fileName);
    match outcome {
      case SaveRaised =>
        return Failure(SaveFailed);
      case Saved =>
        fs.Write(path, content);
      case SavedNothing =>
    }
    if !fs.Exists(path) {
      return Failure(SaveFailed);
    }
    r := Success(path);
  }

  /** A saved upload lands directly inside the upload directory, under the client's base name. */
  lemma SavedUploadPath(uploadDir: string, clientFileName: string)
    requires IsDirname(uploadDir) && Basename(clientFileName) != ""
    ensures Dirname(GetUploadVideoPath(uploadDir, Basename(clientFileName))) == uploadDir
    ensures Basename(GetUploadVideoPath(uploadDir, Basename(clientFileName))) == Basename(clientFileName)
  {
    BasenameHasNoSlash(clientFileName);
    UploadVideoPathParts(uploadDir, Basename(clientFileName));
  }

  /** `extract_audio`: writes the extracted audio next to the video. */
  function ExtractAudioEffect(files: map<string, string>, videoPath: string,
                              extract: string -> Option<string>): FileEffect
  {
    if videoPath !in files then FileEffect(files, Failure(ExtractFailed))
    else match extract(files[videoPath])
      case None => FileEffect(files, Failure(ExtractFailed))
      case Some(audio) => FileEffect(files[GetAudioPath(videoPath) := audio], Success(GetAudioPath(videoPath)))
  }

  /**
   * `download_recording`: the file is opened for writing before the request,
   * so a failed download leaves an (empty) file behind.
   */
  function DownloadEffect(files: map<string, string>, uploadDir: string, url: string, fileName: string,
                          download: string -> Option<string>): FileEffect
  {
    var v := GetRecordingVideoPath(uploadDir, fileName);
    match download(url)
    case None => FileEffect(files[v := ""], Failure(DownloadFailed))
    case Some(data) => FileEffect(files[v := data], Success(v))
  }

  /** `produce_local_audio_from_url`: download, extract, delete the video. */
  function ProduceLocalAudio(files: map<string, string>, uploadDir: string, url: string, fileName: string,
                             download: string -> Option<string>, extract: string -> Option<string>): FileEffect
  {
    var d := DownloadEffect(files, uploadDir, url, fileName, download);
    if d.result.Failure? then d
    else
      var e := ExtractAudioEffect(d.files, d.result.value, extract);
      if e.result.Failure? then e
      else FileEffect(e.files - {d.result.value}, e.result)
  }

  /**
   * On success, the audio path returned is the one derived from the
   * downloaded video's path; it holds the extracted audio and the video is
   * gone.
   */
  lemma ProducedAudioPath(files: map<string, string>, uploadDir: string, url: string, fileName: string,
                          download: string -> Option<string>, extract: string -> Option<string>)
    requires ProduceLocalAudio(files, uploadDir, url, fileName, download, extract).result.Success?
    ensures var r := ProduceLocalAudio(files, uploadDir, url, fileName, download, extract);
            var v := GetRecordingVideoPath(uploadDir, fileName);
            && download(url).Some?
            && r.result.value == GetAudioPath(v)
            && v !in r.files
            && r.result.value in r.files
            && r.files[r.result.value] == extract(download(url).value).value
  {
    var v := GetRecordingVideoPath(uploadDir, fileName);
    var data := download(url).value;
    assert DownloadEffect(files, uploadDir, url, fileName, download) == FileEffect(files[v := data], Success(v));
    assert ExtractAudioEffect(files[v := data], v, extract)
           == FileEffect(files[v := data][GetAudioPath(v) := extract(data).value], Success(GetAudioPath(v)));
    DistinctEndings(GetAudioPath(v), v, ".wav", ".mp4");
  }

  /** For a slash-free, non-empty name the produced audio is `<name>.wav` in the upload directory. */
  lemma RecordingAudioBesideVideo(uploadDir: string, fileName: string)
    requires IsDirname(uploadDir) && '/' !in fileName && fileName != ""
    ensures GetAudioPath(GetRecordingVideoPath(uploadDir, fileName)) == Join(uploadDir, fileName + ".wav")
  {
    var v := GetRecordingVideoPath(uploadDir, fileName);
    RecordingVideoPathParts(uploadDir, fileName);
    StemOfMp4(fileName);
    AudioPathOf(v, uploadDir, fileName);
  }

  method ExtractAudio(fs: FileSystem, videoPath: string, extract: string -> Option<string>)
    returns (r: Result<string, MediaError>)
    modifies fs
    ensures FileEffect(fs.files, r) == ExtractAudioEffect(old(fs.files), videoPath, extract)
  {
    var audioPath := GetAudioPath(videoPath);
    if !fs.Exists(videoPath) {
      return Failure(ExtractFailed);
    }
    var audio := extract(fs.files[videoPath]);
    if audio.None? {
      return Failure(ExtractFailed);
    }
    fs.Write(audioPath, audio.value);
    r := Success(audioPath);
  }

  method DownloadRecording(fs: FileSystem, uploadDir: string, url: string, fileName: string,
                           download: string -> Option<string>)
    returns (r: Result<string, MediaError>)
    modifies fs
    ensures FileEffect(fs.files, r) == DownloadEffect(old(fs.files), uploadDir, url, fileName, download)
  {
    var localFilePath := GetRecordingVideoPath(uploadDir, fileName);
    var data := download(url);
    if data.None? {
      fs.Write(localFilePath, "");
      return Failure(DownloadFailed);
    }
    fs.Write(localFilePath, data.value);
    r := Success(localFilePath);
  }

  method ProduceLocalAudioFromUrl(fs: FileSystem, uploadDir: string, url: string, fileName: string,
                                  download: string -> Option<string>, extract: string -> Option<string>)
    returns (r: Result<string, MediaError>)
    modifies fs
    ensures FileEffect(fs.files, r) == ProduceLocalAudio(old(fs.files), uploadDir, url, fileName, download, extract)
  {
    var videoPath := DownloadRecording(fs, uploadDir, url, fileName, download);
    if videoPath.Failure? {
      return videoPath;
    }
    r := ExtractAudio(fs, videoPath.value, extract);
    if r.Failure? {
      return;
    }
    var _ := fs.Remove(videoPath.value);
  }
}
