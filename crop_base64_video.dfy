/** `cropBase64Video`: crops a base64 mp4 to a centred window of the given
    size, through a temporary input file. */
module CropBase64Video {
  import opened Wrappers
  import opened Strings
  import opened Paths
  import opened Host
  import opened CropVideo

  /** `base64Video.replace(/^data:video\/mp4;base64,/, "")` */
  function StripVideoHeader(base64Video: string): (d: string)
    ensures StartsWith(base64Video, VideoDataPrefix) ==> base64Video == VideoDataPrefix + d
    ensures !StartsWith(base64Video, VideoDataPrefix) ==> d == base64Video
  {
    if StartsWith(base64Video, VideoDataPrefix) then base64Video[|VideoDataPrefix|..] else base64Video
  }

  /** Stripping undoes the header `cropVideo` adds to its base64 result. */
  lemma StripUndoesHeader(data: string)
    ensures StripVideoHeader(VideoDataPrefix + data) == data
  {
    assert (VideoDataPrefix + data)[..|VideoDataPrefix|] == VideoDataPrefix;
  }

  method CropBase64Video(h: Host, base64Video: string, width: int, height: int)
    returns (r: Result<string>)
    modifies h
    ensures
      var c := old(h.counter);
      var inputDir := Join(TmpDir, "ffmpeg-crop-input-") + Token(c);
      var input := Join(inputDir, "input.mp4");
      var blob := Base64Text(StripVideoHeader(base64Video));
      var outputDir := Join(TmpDir, "ffmpeg-crop-output-") + Token(c + 1);
      var out := Join(outputDir, "output-cropped.mp4");
      var files1 := old(h.files)[input := blob];
      var option := CropOption(h.probe(Some(blob)), input, width, height);
      && h.counter == c + 2
      && h.dirs == old(h.dirs) + {inputDir, outputDir}
      && (option.Err? ==> r == option && h.files == files1 && h.history == old(h.history) + [Wrote(input, blob)])
      && (option.Ok? ==>
            var e := CropRun(h, files1, h.dirs, input, option.value, out, outputDir, false);
            h.files == e.files && h.history == old(h.history) + [Wrote(input, blob)] + e.events && r == e.result)
  {
    var base64Data := StripVideoHeader(base64Video);
    var tempDir := h.MakeTempDirectory("ffmpeg-crop-input-");
    var inputVideoPath := Join(tempDir, "input.mp4");
    h.WriteBase64(base64Data, inputVideoPath);
    var outputTempDir := h.MakeTempDirectory("ffmpeg-crop-output-");
    var outputVideoPath := Join(outputTempDir, "output-cropped.mp4");
    var probed := h.Probe(inputVideoPath);
    var option := CropOption(probed, inputVideoPath, width, height);
    if option.Err? {
      return option;
    }
    r := RunCrop(h, inputVideoPath, option.value, outputVideoPath, outputTempDir, false);
  }
}
