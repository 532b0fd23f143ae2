/** `cropVideo`: crops a video file to a centred window of the given size. */
module CropVideo {
  import opened Wrappers
  import opened Strings
  import opened Seqs
  import opened Paths
  import opened Host

  /** The header `cropVideo` puts in front of the base64 of its result. */
  const VideoDataPrefix := "data:video/mp4;base64,"

  /** `Math.floor((inSize - size) / 2)`: the offset that centres a window of
      `size` in `inSize` (0 standing for a missing dimension). */
  function CropOffset(inSize: nat, size: int): (x: int)
    ensures 2 * x <= inSize - size < 2 * x + 2
  {
    (inSize - size) / 2
  }

  /** The window leaves as much room before it as after it, give or take the
      odd pixel, which goes after it. */
  lemma CropCentred(inSize: nat, size: int)
    ensures var x := CropOffset(inSize, size);
      var after := inSize - (x + size);
      after == x || after == x + 1
  {
  }

  /** `-vf crop=<width>:<height>:<x>:<y>` */
  function CropFilterOption(width: int, height: int, x: int, y: int): string {
    "-vf crop=" + IntToString(width) + ":" + IntToString(height) + ":" + IntToString(x) + ":" + IntToString(y)
  }

  predicate IsVideoStream(s: Stream) {
    s.codecType == "video"
  }

  /** `metadata.streams.find(s => s.codec_type === "video")` */
  function FirstVideoStream(streams: seq<Stream>): Option<Stream> {
    Head(Filter(IsVideoStream, streams))
  }

  /** The stream that is found is the first video stream, and none is found
      exactly when there is no video stream. */
  lemma FirstVideoStreamIsFirst(streams: seq<Stream>)
    ensures FirstVideoStream(streams).None? <==> forall j :: 0 <= j < |streams| ==> !IsVideoStream(streams[j])
    ensures FirstVideoStream(streams).Some? ==>
      exists k :: IsFirstMatch(IsVideoStream, streams, k) && streams[k] == FirstVideoStream(streams).value
  {
    HeadOfFilterNone(IsVideoStream, streams);
    if FirstVideoStream(streams).Some? {
      HeadOfFilterIsFirst(IsVideoStream, streams);
    }
  }

  /** What the `ffprobe` callback decides: an error, or the crop option for
      the first video stream. */
  function CropOption(probed: Result<seq<Stream>>, input: string, width: int, height: int): (r: Result<string>)
    ensures probed.Err? ==> r == Err("Error reading video metadata: " + probed.error)
    ensures probed.Ok? && FirstVideoStream(probed.value).None? ==>
      r == Err("Cannot find video stream in file: " + input)
    ensures r.Ok? ==> (probed.Ok? && FirstVideoStream(probed.value).Some?
      && var s := FirstVideoStream(probed.value).value;
      r.value == CropFilterOption(width, height, CropOffset(s.width, width), CropOffset(s.height, height)))
  {
    if probed.Err? then Err("Error reading video metadata: " + probed.error)
    else match FirstVideoStream(probed.value)
      case None => Err("Cannot find video stream in file: " + input)
      case Some(s) => Ok(CropFilterOption(width, height, CropOffset(s.width, width), CropOffset(s.height, height)))
  }

  function CropCommand(input: string, option: string, out: string): Command {
    Command([input], None, None, None, [option], Save(out))
  }

  /** `<name>-cropped.mp4` in the fresh directory. */
  function CroppedPath(tempDir: string, input: string): string {
    Join(tempDir, ParseName(input) + "-cropped.mp4")
  }

  /** The result lands directly in the fresh directory, named after the input. */
  lemma CroppedPathInTempDir(tempDir: string, input: string)
    requires tempDir != ""
    ensures InDirectory(CroppedPath(tempDir, input), tempDir)
    ensures BaseName(CroppedPath(tempDir, input)) == ParseName(input) + "-cropped.mp4"
  {
    JoinInDirectory(tempDir, ParseName(input) + "-cropped.mp4");
  }

  /** What the crop run leaves behind: the events it adds, the files and
      directories, and the result. */
  datatype Crop = Crop(events: seq<Event>, files: map<string, Blob>, dirs: set<string>, result: Result<string>)

  /** The crop run and what follows its `end` event: the path, or the base64
      of the result, after which the temporary directory is removed. */
  function CropRun(
    h: Host, files: map<string, Blob>, dirs: set<string>,
    input: string, option: string, out: string, tempDir: string, asBase64: bool)
    : (e: Crop)
    ensures var cmd := CropCommand(input, option, out);
      && |e.events| >= 1 && e.events[0] == Ran(cmd, h.engine(cmd))
      && (e.result.Ok? <==> h.engine(cmd).Pass?)
      && (e.result.Err? ==> e.result.error == "Error cropping video: " + h.engine(cmd).message)
      && (e.result.Ok? && !asBase64 ==> e.result.value == out && e.files == files[out := Rendered(cmd)])
      && (e.result.Ok? && asBase64 ==>
            e.result.value == VideoDataPrefix + h.encode(Rendered(cmd)) && tempDir !in e.dirs
            && forall p :: p in e.files ==> !Under(p, tempDir))
      && (!(e.result.Ok? && asBase64) ==> e.dirs == dirs)
  {
    var cmd := CropCommand(input, option, out);
    var o := h.engine(cmd);
    if o.Fail? then Crop([Ran(cmd, o)], files, dirs, Err("Error cropping video: " + o.message))
    else if !asBase64 then Crop([Ran(cmd, o)], files[out := Rendered(cmd)], dirs, Ok(out))
    else Crop([Ran(cmd, o), RemovedTree(tempDir)], RemoveTree(files[out := Rendered(cmd)], tempDir),
      (set q | q in dirs && q != tempDir && !Under(q, tempDir)), Ok(VideoDataPrefix + h.encode(Rendered(cmd))))
  }

  method RunCrop(h: Host, input: string, option: string, out: string, tempDir: string, asBase64: bool)
    returns (r: Result<string>)
    modifies h`files, h`dirs, h`history
    ensures var e := CropRun(h, old(h.files), old(h.dirs), input, option, out, tempDir, asBase64);
      h.files == e.files && h.dirs == e.dirs && h.history == old(h.history) + e.events && r == e.result
  {
    var cmd := CropCommand(input, option, out);
    var outcome := h.Run(cmd);
    if outcome.Fail? {
      return Err("Error cropping video: " + outcome.message);
    }
    if !asBase64 {
      return Ok(out);
    }
    var content := h.ReadBase64(out);
    // the source's "Error loading the video file" cannot happen: ffmpeg has just written it
    assert content.Ok?;
    r := Ok(VideoDataPrefix + content.value);
    // finally
    h.RemoveDirectory(tempDir);
  }

  method CropVideo(h: Host, inputVideoPath: string, width: int, height: int, asBase64: bool := false)
    returns (r: Result<string>)
    modifies h
    ensures inputVideoPath !in old(h.files) ==>
      && r == (if inputVideoPath in old(h.dirs) then Err("Input video file does not exist: " + inputVideoPath)
               else Err(NoSuchFile("stat", inputVideoPath)))
      && h.files == old(h.files) && h.dirs == old(h.dirs)
      && h.counter == old(h.counter) && h.history == old(h.history)
    ensures inputVideoPath in old(h.files) ==>
      var tempDir := Join(TmpDir, "ffmpeg-crop-") + Token(old(h.counter));
      var dirs1 := old(h.dirs) + {tempDir};
      var option := CropOption(h.probe(Some(old(h.files)[inputVideoPath])), inputVideoPath, width, height);
      && h.counter == old(h.counter) + 1
      && (option.Err? ==>
            r == option && h.files == old(h.files) && h.dirs == dirs1 && h.history == old(h.history))
      && (option.Ok? ==>
            var e := CropRun(h, old(h.files), dirs1, inputVideoPath, option.value,
              CroppedPath(tempDir, inputVideoPath), tempDir, asBase64);
            h.files == e.files && h.dirs == e.dirs && h.history == old(h.history) + e.events && r == e.result)
  {
    var isFile := h.IsFile(inputVideoPath);
    if isFile.Err? {
      return Err(isFile.error);
    }
    if !isFile.value {
      return Err("Input video file does not exist: " + inputVideoPath);
    }
    var tempDir := h.MakeTempDirectory("ffmpeg-crop-");
    var outputVideoPath := CroppedPath(tempDir, inputVideoPath);
    var probed := h.Probe(inputVideoPath);
    var option := CropOption(probed, inputVideoPath, width, height);
    if option.Err? {
      return option;
    }
    r := RunCrop(h, inputVideoPath, option.value, outputVideoPath, tempDir, asBase64);
  }
}
