/** `concatenateVideosAndMergeAudio`: concatenates videos and mixes any
    number of audio tracks over them with ffmpeg's `amix`. */
module ConcatenateVideosAndMergeAudio {
  import opened Wrappers
  import opened Strings
  import opened Seqs
  import opened Paths
  import opened Lib
  import opened Host
  import opened Tracks
  import opened ConcatenateVideos

  datatype ConcatenateVideoAndMergeAudioOutput = ConcatenateVideoAndMergeAudioOutput(filepath: string, durationInSec: real)

  const AssemblyPrefix := "Failed to assemble video: "

  /** Where track number `k` goes: `<stem><k>.<extension>` in `tempDir`, with
      the track's OWN extension, and its header rebuilt from that extension. */
  function OwnPlace(lib: Library, tempDir: string, stem: string): (nat, string) -> Written {
    (k: nat, t: string) =>
      Written(Join(tempDir, stem + NatToString(k) + "." + lib.extension(t)), lib.addBase64Header(t, lib.extension(t)))
  }

  /** The j-th truthy track is written as number j + 1 under its own extension. */
  lemma OwnExtension(lib: Library, tempDir: string, stem: string, tracks: seq<string>, j: nat)
    requires j < |NonEmptyTracks(tracks)|
    ensures var w := Materialise(tracks, 1, OwnPlace(lib, tempDir, stem));
      var t := NonEmptyTracks(tracks)[j];
      |w| == |NonEmptyTracks(tracks)|
      && w[j].path == Join(tempDir, stem + NatToString(j + 1) + "." + lib.extension(t))
      && w[j].text == lib.addBase64Header(t, lib.extension(t))
  {
    MaterialiseNumbering(tracks, 1, OwnPlace(lib, tempDir, stem));
  }

  /** The input pad of audio input `k`; the video is input 0. */
  function Pad(k: nat): string {
    "[" + NatToString(k) + ":a]"
  }

  /** `audioFilePaths.map((_, index) => `[${index + 1}:a]`).join('')` for `n` paths. */
  function Pads(n: nat): string {
    if n == 0 then "" else Pads(n - 1) + Pad(n)
  }

  /** The `amix` graph over `n` audio inputs, ending as long as the first. */
  function MixFilter(n: nat): string {
    Pads(n) + "amix=inputs=" + NatToString(n) + ":duration=first[outa]"
  }

  lemma {:induction false} PadsExtend(j: nat, k: nat)
    requires j <= k
    ensures StartsWith(Pads(k), Pads(j))
  {
    if j < k {
      PadsExtend(j, k - 1);
      StartsWithAppend(Pads(k - 1), Pad(k), Pads(j));
    }
  }

  /** The mix reads every audio input, in input order: the pad of input k
      follows the pads of inputs 1 .. k - 1. */
  lemma MixFilterReadsEveryInput(n: nat, k: nat)
    requires 1 <= k <= n
    ensures StartsWith(MixFilter(n), Pads(k - 1) + Pad(k))
  {
    PadsExtend(k, n);
    StartsWithAppend(Pads(n), "amix=inputs=" + NatToString(n) + ":duration=first[outa]", Pads(k));
  }

  /** The output options: the video stream is copied, and the mixed sound is
      mapped and encoded only when there is some audio input. */
  function MergeOptions(n: nat): seq<string> {
    if n > 0 then ["-c:v copy", "-map", "0:v:0", "-map", "[outa]", "-c:a aac", "-shortest"]
    else ["-c:v copy", "-map", "0:v:0"]
  }

  /** Video always comes from the concatenation; the mixed sound, AAC and
      `-shortest` come exactly when there are audio inputs. `Merged` and
      `MergedMixesEveryTrack` state that these are the options of the mix
      that runs. */
  lemma MergeOptionsMapAudioIffTracks(n: nat)
    ensures var opts := MergeOptions(n);
      && opts[..3] == ["-c:v copy", "-map", "0:v:0"]
      && ("[outa]" in opts <==> n > 0)
      && ("-c:a aac" in opts <==> n > 0)
      && ("-shortest" in opts <==> n > 0)
  {
    var opts := MergeOptions(n);
    if n > 0 {
      assert opts[4] == "[outa]" && opts[5] == "-c:a aac" && opts[6] == "-shortest";
    }
  }

  /** The command that lays the audio files over the concatenated video. */
  function MixCommand(merged: string, audios: seq<string>, out: string): Command {
    Command([merged] + audios, if |audios| > 0 then Some(Graph(MixFilter(|audios|), None)) else None,
      None, None, MergeOptions(|audios|), Save(out))
  }

  /** `ffmpeg().addInput(merged).outputOptions("-c:v copy")`, one input per
      audio file, then the mix or the bare video mapping. */
  method BuildMixCommand(merged: string, audios: seq<string>, out: string) returns (cmd: Command)
    ensures cmd == MixCommand(merged, audios, out)
  {
    cmd := Command([merged], None, None, None, ["-c:v copy"], Save(out));
    cmd := AddInputs(cmd, audios);
    if |audios| > 0 {
      cmd := cmd.(graph := Some(Graph(MixFilter(|audios|), None)));
      cmd := cmd.(outputOptions := cmd.outputOptions + ["-map", "0:v:0", "-map", "[outa]", "-c:a aac", "-shortest"]);
    } else {
      cmd := cmd.(outputOptions := cmd.outputOptions + ["-map", "0:v:0"]);
    }
  }

  /** Writes the audio tracks and keeps the audio files that exist, then
      does the same for the video tracks. */
  method WriteInputs(
    h: Host, tempDir: string, audioTracks: seq<string>, audioFilePaths: seq<string>,
    videoTracks: seq<string>, videoFilePaths: seq<string>)
    returns (audios: seq<string>, videos: seq<string>)
    modifies h`files, h`history
    ensures var aw := Materialise(audioTracks, 1, OwnPlace(h.lib, tempDir, "audio"));
      var vw := Materialise(videoTracks, 1, OwnPlace(h.lib, tempDir, "video"));
      var files1 := ApplyWrites(old(h.files), aw);
      && audios == KeepExisting(files1, h.dirs, audioFilePaths + PathsOf(aw))
      && h.files == ApplyWrites(files1, vw)
      && videos == KeepExisting(h.files, h.dirs, videoFilePaths + PathsOf(vw))
      && h.history == old(h.history) + WritesOf(aw) + WritesOf(vw)
  {
    var writtenAudio := WriteTracks(h, audioTracks, 1, OwnPlace(h.lib, tempDir, "audio"));
    audios := KeepExisting(h.files, h.dirs, audioFilePaths + writtenAudio);
    var writtenVideo := WriteTracks(h, videoTracks, 1, OwnPlace(h.lib, tempDir, "video"));
    videos := KeepExisting(h.files, h.dirs, videoFilePaths + writtenVideo);
  }

  /** Lays the audio files over the concatenated video and measures the result. */
  method MixDown(h: Host, merged: string, audios: seq<string>, out: string)
    returns (r: Result<ConcatenateVideoAndMergeAudioOutput>)
    modifies h`files, h`history
    ensures var cmd := MixCommand(merged, audios, out);
      var o := h.engine(cmd);
      && h.history == old(h.history) + [Ran(cmd, o)]
      && h.files == (if o.Pass? then old(h.files)[out := Rendered(cmd)] else old(h.files))
      && r == if o.Fail? then Err(AssemblyPrefix + o.message)
              else Ok(ConcatenateVideoAndMergeAudioOutput(out, h.mediaInfo(Some(Rendered(cmd))).durationInSec))
  {
    var cmd := BuildMixCommand(merged, audios, out);
    var outcome := h.Run(cmd);
    if outcome.Fail? {
      return Err(AssemblyPrefix + outcome.message);
    }
    var info := h.MediaInfoOf(out);
    r := Ok(ConcatenateVideoAndMergeAudioOutput(out, info.durationInSec));
  }

  /** What the try block leaves behind once the inputs are written and the
      output path is chosen. */
  datatype Merging = Merging(
    events: seq<Event>, files: map<string, Blob>, result: Result<ConcatenateVideoAndMergeAudioOutput>)

  /** The try block from a state with the given files, directories and
      counter: the videos are concatenated into a fresh directory, then the
      audio files are mixed over them into `out`. A failure of either ffmpeg
      run becomes "Failed to assemble video: " and its message. */
  function Merged(
    h: Host, files: map<string, Blob>, dirs: set<string>, counter: nat,
    videos: seq<string>, audios: seq<string>, out: string)
    : (e: Merging)
    ensures 1 <= |e.events| <= 2
    ensures forall k :: 0 <= k < |e.events| ==> e.events[k].Ran?
    ensures e.result.Ok? <==> |e.events| == 2 && e.events[0].outcome.Pass? && e.events[1].outcome.Pass?
    ensures e.result.Ok? ==> e.result.value.filepath == out
    ensures var mergeDir := Join(TmpDir, Token(counter));
      var merged := Join(mergeDir, Token(counter + 1) + ".mp4");
      && e.events[0].cmd == MergeCommand(KeepExisting(files, dirs, videos), merged, mergeDir)
      && (|e.events| == 2 <==> e.events[0].outcome.Pass?)
      && (|e.events| == 2 ==> e.events[1].cmd == MixCommand(merged, audios, out))
    ensures e.result.Ok? ==> out in e.files && e.files[out] == Rendered(e.events[1].cmd)
  {
    var mergeDir := Join(TmpDir, Token(counter));
    var merged := Join(mergeDir, Token(counter + 1) + ".mp4");
    var mergeCmd := MergeCommand(KeepExisting(files, dirs, videos), merged, mergeDir);
    var o1 := h.engine(mergeCmd);
    var cmd := MixCommand(merged, audios, out);
    var o2 := h.engine(cmd);
    if o1.Fail? then
      Merging([Ran(mergeCmd, o1)], files, Err(AssemblyPrefix + o1.message))
    else
      var files2 := files[merged := Rendered(mergeCmd)];
      Merging([Ran(mergeCmd, o1), Ran(cmd, o2)],
        if o2.Pass? then files2[out := Rendered(cmd)] else files2,
        if o2.Fail? then Err(AssemblyPrefix + o2.message)
        else Ok(ConcatenateVideoAndMergeAudioOutput(out, h.mediaInfo(Some(Rendered(cmd))).durationInSec)))
  }

  /** When the try block succeeds its mix reads every audio file: audio
      file k is input k of the second run, after the merged video, and the
      graph takes its pad after those of the files before it, into the
      mapped sound. */
  lemma MergedMixesEveryTrack(
    h: Host, files: map<string, Blob>, dirs: set<string>, counter: nat,
    videos: seq<string>, audios: seq<string>, out: string, k: nat)
    requires 1 <= k <= |audios|
    ensures var e := Merged(h, files, dirs, counter, videos, audios, out);
      e.result.Ok? ==>
        var cmd := e.events[1].cmd;
        && cmd.inputs[0] == Join(Join(TmpDir, Token(counter)), Token(counter + 1) + ".mp4")
        && cmd.inputs[k] == audios[k - 1]
        && cmd.graph.Some? && StartsWith(cmd.graph.value.spec, Pads(k - 1) + Pad(k))
        && "[outa]" in cmd.outputOptions && cmd.sink == Save(out)
  {
    MixFilterReadsEveryInput(|audios|, k);
    MergeOptionsMapAudioIffTracks(|audios|);
  }

  /** Concatenates the videos, then mixes the audio over them. */
  method Merge(h: Host, videos: seq<string>, audios: seq<string>, out: string)
    returns (r: Result<ConcatenateVideoAndMergeAudioOutput>)
    modifies h
    ensures var e := Merged(h, old(h.files), old(h.dirs), old(h.counter), videos, audios, out);
      && h.dirs == old(h.dirs) + {Join(TmpDir, Token(old(h.counter)))}
      && h.counter == old(h.counter) + 2
      && h.history == old(h.history) + e.events
      && h.files == e.files
      && r == e.result
  {
    ghost var c := h.counter;
    ghost var mergeDir := Join(TmpDir, Token(c));
    ghost var merged := Join(mergeDir, Token(c + 1) + ".mp4");
    ghost var mergeCmd := MergeCommand(KeepExisting(h.files, h.dirs, videos), merged, mergeDir);
    ghost var files0 := h.files;
    var concatenated := ConcatenateVideos.ConcatenateVideos(h, Given(videos));
    if concatenated.Err? {
      r := Err(AssemblyPrefix + concatenated.error);
    } else {
      assert concatenated.value.filepath == merged;
      assert h.files == files0[merged := Rendered(mergeCmd)];
      r := MixDown(h, concatenated.value.filepath, audios, out);
    }
  }

  /** The state once the tracks are written and the output path is chosen:
      the files, directories and counter, what was written, the files kept
      for the mix and the concatenation, and the output path. */
  datatype Plan = Plan(
    files: map<string, Blob>, dirs: set<string>, counter: nat, events: seq<Event>,
    audios: seq<string>, videos: seq<string>, out: string)

  /** Everything before the try block, from a state with the given files,
      directories and counter: a fresh directory, the audio tracks then the
      video tracks written into it, each file list kept to the files that
      exist, and the output path. */
  function Planned(
    h: Host, files: map<string, Blob>, dirs: set<string>, counter: nat, output: Option<string>,
    audioTracks: seq<string>, audioFilePaths: seq<string>, videoTracks: seq<string>, videoFilePaths: seq<string>)
    : Plan
  {
    var tempDir := Join(TmpDir, Token(counter));
    var aw := Materialise(audioTracks, 1, OwnPlace(h.lib, tempDir, "audio"));
    var vw := Materialise(videoTracks, 1, OwnPlace(h.lib, tempDir, "video"));
    var files1 := ApplyWrites(files, aw);
    var files2 := ApplyWrites(files1, vw);
    var dirs1 := dirs + {tempDir};
    Plan(files2, dirs1, counter + (if Truthy(output) then 1 else 2), WritesOf(aw) + WritesOf(vw),
      KeepExisting(files1, dirs1, audioFilePaths + PathsOf(aw)),
      KeepExisting(files2, dirs1, videoFilePaths + PathsOf(vw)),
      // the output path is chosen before the videos are concatenated
      OrElse(output, Join(tempDir, Token(counter + 1) + ".mp4")))
  }

  method ConcatenateVideosAndMergeAudio(
    h: Host,
    output: Option<string> := None,
    audioTracks: seq<string> := [],
    audioFilePaths: seq<string> := [],
    videoTracks: seq<string> := [],
    videoFilePaths: seq<string> := [])
    returns (r: Result<ConcatenateVideoAndMergeAudioOutput>)
    modifies h
    ensures var p := Planned(h, old(h.files), old(h.dirs), old(h.counter), output,
        audioTracks, audioFilePaths, videoTracks, videoFilePaths);
      var e := Merged(h, p.files, p.dirs, p.counter, p.videos, p.audios, p.out);
      && h.dirs == p.dirs + {Join(TmpDir, Token(p.counter))}
      && h.counter == p.counter + 2
      && h.history == old(h.history) + p.events + e.events + [RemovedFiles(p.videos + p.audios)]
      && h.files == RemovePaths(e.files, p.videos + p.audios)
      && r == e.result
  {
    ghost var p := Planned(h, h.files, h.dirs, h.counter, output, audioTracks, audioFilePaths, videoTracks, videoFilePaths);
    var audios, videos, finalOutputFilePath := Prepare(h, output, audioTracks, audioFilePaths, videoTracks, videoFilePaths);
    ghost var history1 := h.history;
    ghost var e := Merged(h, h.files, h.dirs, h.counter, videos, audios, finalOutputFilePath);
    r := Merge(h, videos, audios, finalOutputFilePath);
    assert h.history == history1 + e.events;
    // finally
    h.RemoveTemporaryFiles(videos + audios);
  }

  /** Everything before the try block. */
  method Prepare(
    h: Host, output: Option<string>, audioTracks: seq<string>, audioFilePaths: seq<string>,
    videoTracks: seq<string>, videoFilePaths: seq<string>)
    returns (audios: seq<string>, videos: seq<string>, out: string)
    modifies h
    ensures var p := Planned(h, old(h.files), old(h.dirs), old(h.counter), output,
        audioTracks, audioFilePaths, videoTracks, videoFilePaths);
      && h.files == p.files && h.dirs == p.dirs && h.counter == p.counter
      && h.history == old(h.history) + p.events
      && audios == p.audios && videos == p.videos && out == p.out
  {
    ghost var c := h.counter;
    var tempDir := h.RandomDirectory();
    ghost var aw := Materialise(audioTracks, 1, OwnPlace(h.lib, tempDir, "audio"));
    ghost var vw := Materialise(videoTracks, 1, OwnPlace(h.lib, tempDir, "video"));
    audios, videos := WriteInputs(h, tempDir, audioTracks, audioFilePaths, videoTracks, videoFilePaths);
    out := FinalOutputPath(h, output, tempDir);
    AppendAssoc(old(h.history), WritesOf(aw), WritesOf(vw));
  }

  /** `output ? output : path.join(tempDir, `${uuidv4()}.mp4`)` */
  method FinalOutputPath(h: Host, output: Option<string>, tempDir: string) returns (p: string)
    modifies h`counter
    ensures p == OrElse(output, Join(tempDir, Token(old(h.counter)) + ".mp4"))
    ensures h.counter == old(h.counter) + (if Truthy(output) then 0 else 1)
  {
    if Truthy(output) {
      p := output.value;
    } else {
      var uuid := h.Uuid();
      p := Join(tempDir, uuid + ".mp4");
    }
  }
}
