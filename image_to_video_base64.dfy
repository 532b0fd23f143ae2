/** `imageToVideoBase64`: turns a base64 image into a base64 video with a
    slow zoom (a Ken Burns effect), cropped to the target aspect. */
module ImageToVideoBase64 {
  import opened Wrappers
  import opened Strings
  import opened Seqs
  import opened Paths
  import opened Lib
  import opened Host

  /** What V8 throws when `streams[0]` is undefined and `.width` is read. */
  const NoStreamError := "Cannot read properties of undefined (reading 'width')"

  /** The default codec depends on the container. */
  function DefaultCodec(outputVideoFormat: string): (c: string)
    ensures c == "libvpx-vp9" <==> outputVideoFormat == "webm"
  {
    if outputVideoFormat == "webm" then "libvpx-vp9" else "libx264"
  }

  /** `s.substring(s.indexOf(',') + 1)`: what follows the first comma, or all
      of `s` when it has none. */
  function ImagePayload(s: string): (d: string)
    ensures ',' !in s ==> d == s
    ensures ',' in s ==> exists k :: 0 <= k < |s| && s[k] == ',' && ',' !in s[..k] && d == s[k + 1..]
  {
    var k := IndexOf(s, ',');
    if k == -1 then
      assert forall j :: 0 <= j < |s| ==> s[j] != ',';
      s
    else
      assert ',' !in s[..k] by {
        forall j | 0 <= j < k ensures s[..k][j] != ',' { }
      }
      s[k + 1..]
  }

  /** A data URI loses exactly its header. */
  lemma ImagePayloadOfDataUri(header: string, data: string)
    requires ',' !in header
    ensures ImagePayload(header + "," + data) == data
  {
    var s := header + "," + data;
    assert s[|header|] == ',';
    assert forall j :: 0 <= j < |header| ==> s[j] == header[j];
    assert s[|header| + 1..] == data;
  }

  /** The crop window: the full height and a width cut to the target aspect
      when the image is wider than the target, else the full width and a cut
      height. JavaScript's `Math.floor` of a product with a float aspect is
      computed here on exact rationals. */
  datatype Window = Window(width: nat, height: nat)

  function CropWindow(originalWidth: nat, originalHeight: nat, width: nat, height: nat): Window
    requires originalHeight > 0 && width > 0 && height > 0
  {
    if originalWidth * height > width * originalHeight then
      Window((originalHeight * width) / height, originalHeight)
    else
      Window(originalWidth, (originalWidth * height) / width)
  }

  /** Proof helper: the floored quotient times the divisor lies within one divisor below the dividend. */
  lemma FloorDivBounds(n: nat, d: nat)
    requires d > 0
    ensures (n / d) * d <= n < (n / d + 1) * d
  {
  }

  /** Proof helper: a positive common factor cancels from a strict inequality. */
  lemma LessFromProducts(a: int, b: int, c: int)
    requires c > 0 && a * c < b * c
    ensures a < b
  {
    assert (b - a) * c > 0;
  }

  /** Proof helper: a positive common factor cancels from an inequality. */
  lemma AtMostFromProducts(a: int, b: int, c: int)
    requires c > 0 && a * c <= b * c
    ensures a <= b
  {
    assert (b - a) * c >= 0;
  }

  /** The window fits in the image, keeps one of its sides, and has the
      target aspect up to the rounding down of the other side. */
  lemma CropWindowFitsAndKeepsAspect(originalWidth: nat, originalHeight: nat, width: nat, height: nat)
    requires originalWidth > 0 && originalHeight > 0 && width > 0 && height > 0
    ensures var w := CropWindow(originalWidth, originalHeight, width, height);
      && w.width <= originalWidth && w.height <= originalHeight
      && (w.height == originalHeight || w.width == originalWidth)
      && (w.height == originalHeight ==> w.width * height <= width * w.height < (w.width + 1) * height)
      && (w.width == originalWidth ==> w.height * width <= height * w.width < (w.height + 1) * width)
  {
    if originalWidth * height > width * originalHeight {
      var n := originalHeight * width;
      var q := n / height;
      FloorDivBounds(n, height);
      assert width * originalHeight == n;
      LessFromProducts(q, originalWidth, height);
    } else {
      var n := originalWidth * height;
      var q := n / width;
      FloorDivBounds(n, width);
      assert height * originalWidth == n;
      assert originalHeight * width == width * originalHeight;
      AtMostFromProducts(q, originalHeight, width);
    }
  }

  /** `Math.ceil(durationInSeconds * fps)`, the frame count of the zoom. */
  function ZoomFrames(durationInMs: nat, fps: nat): (d: nat)
    ensures 1000 * d >= durationInMs * fps && 1000 * d < durationInMs * fps + 1000
  {
    (durationInMs * fps + 999) / 1000
  }

  /** The two video filters, joined by a comma: the centred crop, and a
      zoompan that grows the zoom by equal steps to
      `1 + zoomInRatePerSecond * durationInSeconds`. */
  function ImageFilters(
    lib: Library, originalWidth: nat, originalHeight: nat, window: Window,
    durationInMs: nat, fps: nat, zoomInRatePerSecond: real)
    : string
  {
    var durationInSeconds := durationInMs as real / 1000.0;
    var framesTotal := durationInSeconds * fps as real;
    var endZoom := 1.0 + zoomInRatePerSecond * durationInSeconds;
    "crop=" + NatToString(window.width) + ":" + NatToString(window.height) + ":"
    + lib.numberText((originalWidth - window.width) as real / 2.0) + ":"
    + lib.numberText((originalHeight - window.height) as real / 2.0) + ","
    + "zoompan=z='min(zoom+" + lib.quotientText(endZoom - 1.0, framesTotal) + ", " + lib.numberText(endZoom)
    + ")':x='iw/2-(iw/zoom/2)':y='ih/2-(ih/zoom/2)':d=" + NatToString(ZoomFrames(durationInMs, fps))
  }

  function ImageOptions(lib: Library, durationInMs: nat, fps: nat, width: nat, height: nat, codec: string)
    : (opts: seq<string>)
  {
    ["-t " + lib.numberText(durationInMs as real / 1000.0), "-r " + NatToString(fps),
     "-s " + NatToString(width) + "x" + NatToString(height), "-c:v " + codec, "-tune stillimage", "-pix_fmt yuv420p"]
  }

  /** The output is encoded with the chosen codec, at the chosen size, as a
      still image in yuv420p. `ProbedAnimationCommand` states that these are
      the options of the command that runs. */
  lemma ImageOptionsEncode(lib: Library, durationInMs: nat, fps: nat, width: nat, height: nat, codec: string)
    ensures var opts := ImageOptions(lib, durationInMs, fps, width, height, codec);
      && "-c:v " + codec in opts
      && "-s " + NatToString(width) + "x" + NatToString(height) in opts
      && "-tune stillimage" in opts && "-pix_fmt yuv420p" in opts
  {
    var opts := ImageOptions(lib, durationInMs, fps, width, height, codec);
    assert opts[2] == "-s " + NatToString(width) + "x" + NatToString(height);
    assert opts[3] == "-c:v " + codec;
  }

  /** The sides ffprobe reports, each falling back to the target's when missing. */
  function OriginalSize(s: Stream, width: nat, height: nat): Window {
    Window(if s.width != 0 then s.width else width, if s.height != 0 then s.height else height)
  }

  function ImageCommand(
    lib: Library, input: string, s: Stream, width: nat, height: nat, durationInMs: nat, fps: nat,
    zoomInRatePerSecond: real, codec: string, out: string)
    : Command
    requires width > 0 && height > 0
  {
    var original := OriginalSize(s, width, height);
    var window := CropWindow(original.width, original.height, width, height);
    Command([input], None, Some(ImageFilters(lib, original.width, original.height, window, durationInMs, fps,
      zoomInRatePerSecond)), None, ImageOptions(lib, durationInMs, fps, width, height, codec), Save(out))
  }

  /** What the ffmpeg run and the clean-up leave behind. */
  datatype Animation = Animation(events: seq<Event>, files: map<string, Blob>, dirs: set<string>, result: Result<string>)

  /** The ffmpeg run, the read of its output as a `data:video/<format>` URI,
      and the removal of the output directory when asked for. */
  function Animated(
    h: Host, files: map<string, Blob>, dirs: set<string>, cmd: Command,
    outputDir: string, outputVideoFormat: string, clearOutputDirAtTheEnd: bool)
    : (e: Animation)
    ensures |e.events| >= 1 && e.events[0] == Ran(cmd, h.engine(cmd))
    ensures NoSweep(e.events)
    ensures e.result.Ok? <==> h.engine(cmd).Pass?
    ensures e.result.Err? ==> e.result.error == h.engine(cmd).message
    ensures e.result.Ok? ==> e.result.value == "data:video/" + outputVideoFormat + ";base64," + h.encode(Rendered(cmd))
    ensures e.result.Ok? && clearOutputDirAtTheEnd ==>
      outputDir !in e.dirs && forall p :: p in e.files ==> !Under(p, outputDir)
    ensures !(e.result.Ok? && clearOutputDirAtTheEnd) ==> e.dirs == dirs
  {
    var o := h.engine(cmd);
    if o.Fail? then Animation([Ran(cmd, o)], files, dirs, Err(o.message))
    else
      var files2 := files[cmd.sink.path := Rendered(cmd)];
      var result := Ok("data:video/" + outputVideoFormat + ";base64," + h.encode(Rendered(cmd)));
      if clearOutputDirAtTheEnd then
        Animation([Ran(cmd, o), RemovedTree(outputDir)], RemoveTree(files2, outputDir),
          (set q | q in dirs && q != outputDir && !Under(q, outputDir)), result)
      else Animation([Ran(cmd, o)], files2, dirs, result)
  }

  method Animate(h: Host, cmd: Command, outputDir: string, outputVideoFormat: string, clearOutputDirAtTheEnd: bool)
    returns (r: Result<string>)
    modifies h`files, h`dirs, h`history
    ensures var e := Animated(h, old(h.files), old(h.dirs), cmd, outputDir, outputVideoFormat, clearOutputDirAtTheEnd);
      h.files == e.files && h.dirs == e.dirs && h.history == old(h.history) + e.events && r == e.result
  {
    var outcome := h.Run(cmd);
    if outcome.Fail? {
      return Err(outcome.message);
    }
    var content := h.ReadBase64(cmd.sink.path);
    // ffmpeg has just written the output, so reading it succeeds
    assert content.Ok?;
    r := Ok("data:video/" + outputVideoFormat + ";base64," + content.value);
    if clearOutputDirAtTheEnd {
      h.RemoveDirectory(outputDir);
    }
  }

  /** `outputDir || await getRandomDirectory()`; the source does this twice,
      and the second time changes nothing. */
  method ChooseOutputDir(h: Host, outputDir: Option<string>) returns (dir: string)
    modifies h`dirs, h`counter
    ensures dir == OrElse(outputDir, Join(TmpDir, Token(old(h.counter))))
    ensures Truthy(outputDir) ==> h.dirs == old(h.dirs) && h.counter == old(h.counter)
    ensures !Truthy(outputDir) ==> h.dirs == old(h.dirs) + {dir} && h.counter == old(h.counter) + 1
  {
    if Truthy(outputDir) {
      dir := outputDir.value;
    } else {
      dir := h.RandomDirectory();
    }
    assert dir != "";
  }

  /** Probing the written image and, when it has a stream, rendering the
      video, from a state with the given files, directories and counter;
      ffprobe's error, or the lack of a first stream, ends the call. */
  function ProbedAnimation(
    h: Host, files: map<string, Blob>, dirs: set<string>, counter: nat,
    inputImagePath: string, outputDir: string, outputFilePath: Option<string>,
    clearOutputDirAtTheEnd: bool, outputVideoFormat: string, outputVideoDurationInMs: nat, codec: string,
    width: nat, height: nat, fps: nat, zoomInRatePerSecond: real)
    : Effect<string>
    requires width > 0 && height > 0
  {
    var probed := h.probe(if inputImagePath in files then Some(files[inputImagePath]) else None);
    if !(probed.Ok? && |probed.value| > 0) then
      Effect(files, dirs, counter, [], if probed.Err? then Err(probed.error) else Err(NoStreamError))
    else
      var out := OrElse(outputFilePath, Join(outputDir, "output_" + Token(counter) + "." + outputVideoFormat));
      var cmd := ImageCommand(h.lib, inputImagePath, probed.value[0], width, height, outputVideoDurationInMs,
        fps, zoomInRatePerSecond, codec, out);
      var e := Animated(h, files, dirs, cmd, outputDir, outputVideoFormat, clearOutputDirAtTheEnd);
      Effect(e.files, e.dirs, counter + (if Truthy(outputFilePath) then 0 else 1), e.events, e.result)
  }

  /** The probe decides: its error, or an empty stream list, ends the call
      before anything else happens; otherwise the one ffmpeg run reads the
      image and saves to the given output path or, when none is given, to
      `output_<uuid>.<format>` in the output directory, cropping the probed
      size, each side of which falls back to the target's when ffprobe
      reports none. */
  lemma ProbedAnimationCommand(
    h: Host, files: map<string, Blob>, dirs: set<string>, counter: nat,
    inputImagePath: string, outputDir: string, outputFilePath: Option<string>,
    clearOutputDirAtTheEnd: bool, outputVideoFormat: string, outputVideoDurationInMs: nat, codec: string,
    width: nat, height: nat, fps: nat, zoomInRatePerSecond: real)
    requires width > 0 && height > 0
    ensures var e := ProbedAnimation(h, files, dirs, counter, inputImagePath, outputDir, outputFilePath,
        clearOutputDirAtTheEnd, outputVideoFormat, outputVideoDurationInMs, codec, width, height, fps,
        zoomInRatePerSecond);
      var probed := h.probe(if inputImagePath in files then Some(files[inputImagePath]) else None);
      && (probed.Err? ==> e == Effect(files, dirs, counter, [], Err(probed.error)))
      && (probed.Ok? && |probed.value| == 0 ==> e == Effect(files, dirs, counter, [], Err(NoStreamError)))
      && (probed.Ok? && |probed.value| > 0 ==>
            var s := probed.value[0];
            var w := if s.width != 0 then s.width else width;
            var ht := if s.height != 0 then s.height else height;
            && |e.events| >= 1 && e.events[0].Ran?
            && e.events[0].cmd.inputs == [inputImagePath]
            && e.events[0].cmd.sink ==
                 Save(if Truthy(outputFilePath) then outputFilePath.value
                      else Join(outputDir, "output_" + Token(counter) + "." + outputVideoFormat))
            && e.events[0].cmd.videoFilters ==
                 Some(ImageFilters(h.lib, w, ht, CropWindow(w, ht, width, height), outputVideoDurationInMs, fps,
                   zoomInRatePerSecond))
            && e.events[0].cmd.outputOptions == ImageOptions(h.lib, outputVideoDurationInMs, fps, width, height, codec)
            && e.counter == counter + (if Truthy(outputFilePath) then 0 else 1))
  {
  }

  /** Probes the written image and, when it has a stream, renders the video. */
  method ProbeAndAnimate(
    h: Host, inputImagePath: string, outputDir: string, outputFilePath: Option<string>,
    clearOutputDirAtTheEnd: bool, outputVideoFormat: string, outputVideoDurationInMs: nat, codec: string,
    width: nat, height: nat, fps: nat, zoomInRatePerSecond: real)
    returns (r: Result<string>)
    requires width > 0 && height > 0
    modifies h`files, h`dirs, h`counter, h`history
    ensures var e := ProbedAnimation(h, old(h.files), old(h.dirs), old(h.counter), inputImagePath, outputDir,
        outputFilePath, clearOutputDirAtTheEnd, outputVideoFormat, outputVideoDurationInMs, codec, width, height,
        fps, zoomInRatePerSecond);
      && h.files == e.files && h.dirs == e.dirs && h.counter == e.counter
      && h.history == old(h.history) + e.events && r == e.result
  {
    var details := h.Probe(inputImagePath);
    if details.Err? {
      return Err(details.error);
    }
    if |details.value| == 0 {
      return Err(NoStreamError);
    }
    var out;
    if Truthy(outputFilePath) {
      out := outputFilePath.value;
    } else {
      var uuid := h.Uuid();
      out := Join(outputDir, "output_" + uuid + "." + outputVideoFormat);
    }
    var cmd := ImageCommand(h.lib, inputImagePath, details.value[0], width, height, outputVideoDurationInMs,
      fps, zoomInRatePerSecond, codec, out);
    r := Animate(h, cmd, outputDir, outputVideoFormat, clearOutputDirAtTheEnd);
  }

  /** `imageToVideoBase64` started from a state with the given files,
      directories and counter: the image is written to `<uuid>.png` in the
      output directory, probed, and animated into a data URI; nothing is
      deleted by name pattern. */
  function Rendering(
    h: Host, files: map<string, Blob>, dirs: set<string>, counter: nat,
    inputImageInBase64: string, outputFilePath: Option<string>, outputDir: Option<string>,
    clearOutputDirAtTheEnd: bool, outputVideoFormat: string, outputVideoDurationInMs: nat,
    codec: Option<string>, width: nat, height: nat, fps: nat, zoomInRatePerSecond: real)
    : (r: Effect<string>)
    requires width > 0 && height > 0
    ensures NoSweep(r.events)
  {
    var dir := OrElse(outputDir, Join(TmpDir, Token(counter)));
    var c1 := counter + (if Truthy(outputDir) then 0 else 1);
    var dirs1 := if Truthy(outputDir) then dirs else dirs + {dir};
    var input := Join(dir, Token(c1) + ".png");
    var blob := Base64Text(ImagePayload(inputImageInBase64));
    var e := ProbedAnimation(h, files[input := blob], dirs1, c1 + 1, input, dir, outputFilePath,
      clearOutputDirAtTheEnd, outputVideoFormat, outputVideoDurationInMs, OrDefault(codec, DefaultCodec(outputVideoFormat)),
      width, height, fps, zoomInRatePerSecond);
    ProbedAnimationNoSweep(h, files[input := blob], dirs1, c1 + 1, input, dir, outputFilePath,
      clearOutputDirAtTheEnd, outputVideoFormat, outputVideoDurationInMs, OrDefault(codec, DefaultCodec(outputVideoFormat)),
      width, height, fps, zoomInRatePerSecond);
    NoSweepAppend([Wrote(input, blob)], e.events);
    Effect(e.files, e.dirs, e.counter, [Wrote(input, blob)] + e.events, e.result)
  }

  /** The image is written first, as the payload after the first comma;
      the result is a `data:video/<format>` URI; and when the directory is
      kept, the rendered video is at the requested output path. */
  lemma RenderingWritesImageFirst(
    h: Host, files: map<string, Blob>, dirs: set<string>, counter: nat,
    inputImageInBase64: string, outputFilePath: Option<string>, outputDir: Option<string>,
    clearOutputDirAtTheEnd: bool, outputVideoFormat: string, outputVideoDurationInMs: nat,
    codec: Option<string>, width: nat, height: nat, fps: nat, zoomInRatePerSecond: real)
    requires width > 0 && height > 0
    ensures var e := Rendering(h, files, dirs, counter, inputImageInBase64, outputFilePath, outputDir,
        clearOutputDirAtTheEnd, outputVideoFormat, outputVideoDurationInMs, codec, width, height, fps,
        zoomInRatePerSecond);
      && |e.events| >= 1 && e.events[0].Wrote? && e.events[0].blob == Base64Text(ImagePayload(inputImageInBase64))
      && (e.result.Ok? ==> StartsWith(e.result.value, "data:video/" + outputVideoFormat + ";base64,"))
      && (e.result.Ok? && !clearOutputDirAtTheEnd && Truthy(outputFilePath) ==> outputFilePath.value in e.files)
  {
    var e := Rendering(h, files, dirs, counter, inputImageInBase64, outputFilePath, outputDir,
      clearOutputDirAtTheEnd, outputVideoFormat, outputVideoDurationInMs, codec, width, height, fps,
      zoomInRatePerSecond);
    if e.result.Ok? {
      var prefix := "data:video/" + outputVideoFormat + ";base64,";
      assert e.result.value[..|prefix|] == prefix;
    }
  }

  /** Unfolding helper for proofs: `Rendering` is the image write followed
      by `ProbedAnimation` from the state that write leaves. */
  lemma RenderingComposes(
    h: Host, files: map<string, Blob>, dirs: set<string>, counter: nat,
    inputImageInBase64: string, outputFilePath: Option<string>, outputDir: Option<string>,
    clearOutputDirAtTheEnd: bool, outputVideoFormat: string, outputVideoDurationInMs: nat,
    codec: Option<string>, width: nat, height: nat, fps: nat, zoomInRatePerSecond: real)
    requires width > 0 && height > 0
    ensures var dir := OrElse(outputDir, Join(TmpDir, Token(counter)));
      var c1 := counter + (if Truthy(outputDir) then 0 else 1);
      var input := Join(dir, Token(c1) + ".png");
      var blob := Base64Text(ImagePayload(inputImageInBase64));
      var e := ProbedAnimation(h, files[input := blob], if Truthy(outputDir) then dirs else dirs + {dir}, c1 + 1,
        input, dir, outputFilePath, clearOutputDirAtTheEnd, outputVideoFormat, outputVideoDurationInMs,
        OrDefault(codec, DefaultCodec(outputVideoFormat)), width, height, fps, zoomInRatePerSecond);
      Rendering(h, files, dirs, counter, inputImageInBase64, outputFilePath, outputDir, clearOutputDirAtTheEnd,
        outputVideoFormat, outputVideoDurationInMs, codec, width, height, fps, zoomInRatePerSecond)
      == Effect(e.files, e.dirs, e.counter, [Wrote(input, blob)] + e.events, e.result)
  {
  }

  /** Chooses the output directory and writes the image's payload to
      `<uuid>.png` in it. */
  method PlaceImage(h: Host, inputImageInBase64: string, outputDir: Option<string>)
    returns (dir: string, inputImagePath: string)
    modifies h`files, h`dirs, h`counter, h`history
    ensures dir == OrElse(outputDir, Join(TmpDir, Token(old(h.counter))))
    ensures var c1 := old(h.counter) + (if Truthy(outputDir) then 0 else 1);
      var blob := Base64Text(ImagePayload(inputImageInBase64));
      && inputImagePath == Join(dir, Token(c1) + ".png")
      && h.files == old(h.files)[inputImagePath := blob]
      && h.dirs == (if Truthy(outputDir) then old(h.dirs) else old(h.dirs) + {dir})
      && h.counter == c1 + 1
      && h.history == old(h.history) + [Wrote(inputImagePath, blob)]
  {
    dir := ChooseOutputDir(h, outputDir);
    var base64Data := ImagePayload(inputImageInBase64);
    var uuid := h.Uuid();
    inputImagePath := Join(dir, uuid + ".png");
    h.WriteBase64(base64Data, inputImagePath);
  }

  method ImageToVideoBase64(
    h: Host,
    inputImageInBase64: string,
    outputFilePath: Option<string> := None,
    outputDir: Option<string> := None,
    clearOutputDirAtTheEnd: bool := true,
    outputVideoFormat: string := "mp4",
    outputVideoDurationInMs: nat := 1000,
    codec: Option<string> := None,
    width: nat := 1920,
    height: nat := 1080,
    fps: nat := 25,
    zoomInRatePerSecond: real := 0.02)
    returns (r: Result<string>)
    requires width > 0 && height > 0
    modifies h
    ensures var e := Rendering(h, old(h.files), old(h.dirs), old(h.counter), inputImageInBase64, outputFilePath,
        outputDir, clearOutputDirAtTheEnd, outputVideoFormat, outputVideoDurationInMs, codec, width, height, fps,
        zoomInRatePerSecond);
      && h.files == e.files && h.dirs == e.dirs && h.counter == e.counter
      && h.history == old(h.history) + e.events && r == e.result
  {
    ghost var history0 := h.history;
    var dir, inputImagePath := PlaceImage(h, inputImageInBase64, outputDir);
    ghost var wrote := Wrote(inputImagePath, Base64Text(ImagePayload(inputImageInBase64)));
    ghost var e := ProbedAnimation(h, h.files, h.dirs, h.counter, inputImagePath, dir, outputFilePath,
      clearOutputDirAtTheEnd, outputVideoFormat, outputVideoDurationInMs, OrDefault(codec, DefaultCodec(outputVideoFormat)),
      width, height, fps, zoomInRatePerSecond);
    RenderingComposes(h, old(h.files), old(h.dirs), old(h.counter), inputImageInBase64, outputFilePath,
      outputDir, clearOutputDirAtTheEnd, outputVideoFormat, outputVideoDurationInMs, codec, width, height, fps,
      zoomInRatePerSecond);
    r := ProbeAndAnimate(h, inputImagePath, dir, outputFilePath, clearOutputDirAtTheEnd, outputVideoFormat,
      outputVideoDurationInMs, OrDefault(codec, DefaultCodec(outputVideoFormat)), width, height, fps,
      zoomInRatePerSecond);
    AppendAssoc(history0, [wrote], e.events);
  }

  /** The probe and the render delete nothing by name: at most the whole
      output directory is removed, and only when asked for. */
  lemma ProbedAnimationNoSweep(
    h: Host, files: map<string, Blob>, dirs: set<string>, counter: nat,
    inputImagePath: string, outputDir: string, outputFilePath: Option<string>,
    clearOutputDirAtTheEnd: bool, outputVideoFormat: string, outputVideoDurationInMs: nat, codec: string,
    width: nat, height: nat, fps: nat, zoomInRatePerSecond: real)
    requires width > 0 && height > 0
    ensures NoSweep(ProbedAnimation(h, files, dirs, counter, inputImagePath, outputDir, outputFilePath,
      clearOutputDirAtTheEnd, outputVideoFormat, outputVideoDurationInMs, codec, width, height, fps,
      zoomInRatePerSecond).events)
  {
  }
}
