/** `concatenateAudio`: joins audio tracks with a chain of ffmpeg
    `acrossfade` filters. */
module ConcatenateAudio {
  import opened Wrappers
  import opened Strings
  import opened Paths
  import opened Lib
  import opened Host
  import opened Tracks
  import opened ConcatenateVideos

  datatype ConcatenateAudioOutput = ConcatenateAudioOutput(filepath: string, durationInSec: real)

  const NotAnArrayError := "Audios must be provided in an array"
  const SinglePathError := "concatenating a single audio file path is not implemented yet"

  /** The label a stage reads from: input "0" before the first stage, then
      the output `a<i>` of stage `i`. */
  function Label(i: int): string {
    if i < 0 then "0" else "a" + NatToString(i)
  }

  /** Stage `i` crossfades the chain so far into input `i + 1`. */
  function Stage(i: nat, d: string): string {
    "[" + Label(i - 1) + "][" + NatToString(i + 1) + "]acrossfade=d=" + d + ":c1=tri:c2=tri[" + Label(i) + "];"
  }

  /** The first `count` stages, in order. */
  function Stages(count: nat, d: string): string {
    if count == 0 then "" else Stages(count - 1, d) + Stage(count - 1, d)
  }

  /** The loop runs `n - 1` times, and not at all when there is no input. */
  function StageCount(n: nat): nat {
    if n == 0 then 0 else n - 1
  }

  /** The label the finished graph is read from. */
  function OutputLabel(n: nat): string {
    Label(n - 2)
  }

  /** The loop of the source that grows `filterComplex` and moves `prevLabel`. */
  method CrossfadeGraph(n: nat, d: string) returns (filterComplex: string, prevLabel: string)
    ensures filterComplex == Stages(StageCount(n), d)
    ensures prevLabel == if n <= 1 then "0" else "a" + NatToString(n - 2)
  {
    filterComplex := "";
    prevLabel := "0";
    var i := 0;
    while i < n - 1
      invariant 0 <= i <= StageCount(n)
      invariant filterComplex == Stages(i, d)
      invariant prevLabel == Label(i - 1)
    {
      var nextLabel := "a" + NatToString(i);
      assert nextLabel == Label(i);
      var stage := "[" + prevLabel + "][" + NatToString(i + 1) + "]acrossfade=d=" + d + ":c1=tri:c2=tri[" + nextLabel + "];";
      assert stage == Stage(i, d);
      filterComplex := filterComplex + stage;
      prevLabel := nextLabel;
      i := i + 1;
    }
    assert i == StageCount(n);
  }

  /** Labels name their stage: no two stages write the same label, and no
      stage writes input "0". */
  lemma LabelInjective(i: int, j: int)
    requires i >= -1 && j >= -1 && Label(i) == Label(j)
    ensures i == j
  {
    if i >= 0 && j >= 0 {
      assert Label(i)[1..] == NatToString(i);
      assert Label(j)[1..] == NatToString(j);
      NatToStringInjective(i, j);
    }
  }

  /** A longer chain begins with every shorter one: stages are only appended. */
  lemma {:induction false} StagesExtend(j: nat, k: nat, d: string)
    requires j <= k
    ensures StartsWith(Stages(k, d), Stages(j, d))
  {
    if j < k {
      StagesExtend(j, k - 1, d);
      StartsWithAppend(Stages(k - 1, d), Stage(k - 1, d), Stages(j, d));
    }
  }

  /** The last stage of the chain writes the label the graph is read from,
      so the output of a chain of n inputs is `a<n-2>`. */
  lemma {:induction false} ChainEndsAtOutput(n: nat, d: string)
    requires n >= 2
    ensures var g := Stages(StageCount(n), d); var tail := "[" + OutputLabel(n) + "];";
      |tail| <= |g| && g[|g| - |tail|..] == tail
  {
    var s := Stage(n - 2, d);
    var tail := "[" + OutputLabel(n) + "];";
    assert s == "[" + Label(n - 3) + "][" + NatToString(n - 1) + "]acrossfade=d=" + d + ":c1=tri:c2=tri" + tail;
    assert Stages(StageCount(n), d) == Stages(n - 2, d) + s;
  }

  /** The graph and output label handed to `complexFilter`. */
  function CrossfadeFilter(n: nat, d: string): Graph {
    Graph(Stages(StageCount(n), d), Some(OutputLabel(n)))
  }

  function MixCommand(inputs: seq<string>, filter: Graph, out: string): Command {
    Command(inputs, Some(filter), None, None, [], Save(out))
  }

  /** Where the `i`-th written track goes, and the text written there. */
  function AudioPlace(lib: Library, tempDir: string): (nat, string) -> Written {
    (k: nat, t: string) => Written(Join(tempDir, "audio_" + NatToString(k) + ".wav"), lib.addBase64Header(t, "wav"))
  }

  predicate IsSingleTrack(tracks: seq<string>) {
    |tracks| == 1 && tracks[0] != ""
  }

  /** `Failed to assemble audio: ${error?.message || error}`, where an error
      without a message prints as "Error". */
  function AssemblyError(message: string): string {
    "Failed to assemble audio: " + (if message != "" then message else "Error")
  }

  /** Distinct numbers give distinct track files. */
  lemma AudioPlaceInjective(lib: Library, tempDir: string, j: nat, k: nat)
    requires AudioPlace(lib, tempDir)(j, "").path == AudioPlace(lib, tempDir)(k, "").path
    ensures j == k
  {
    var pj := "audio_" + NatToString(j) + ".wav";
    var pk := "audio_" + NatToString(k) + ".wav";
    assert Join(tempDir, pj) == Join(tempDir, pk);
    assert pj == pk by {
      if tempDir != "" {
        assert Join(tempDir, pj)[|tempDir| + 1..] == pj;
        assert Join(tempDir, pk)[|tempDir| + 1..] == pk;
      }
    }
    assert pj[6..|pj| - 4] == NatToString(j);
    assert pk[6..|pk| - 4] == NatToString(k);
    NatToStringInjective(j, k);
  }

  /** The `try` block of the source: write the tracks after the given paths,
      keep the files that exist, crossfade them into the output, and hand
      the kept files to cleanup in `finally`. */
  method AssembleTracks(
    h: Host, tempDir: string, tracks: seq<string>, audioFilePaths: seq<string>,
    crossfadeDurationInSec: nat, outputFormat: string, output: Option<string>)
    returns (r: Result<ConcatenateAudioOutput>)
    modifies h`files, h`history, h`counter
    ensures var e := MixedTracks(h, old(h.files), old(h.dirs), old(h.counter), tempDir, tracks, audioFilePaths,
        crossfadeDurationInSec, outputFormat, output);
      && h.files == e.files && h.counter == e.counter && h.history == old(h.history) + e.events && r == e.result
  {
    var written := WriteTracks(h, tracks, 1, AudioPlace(h.lib, tempDir));
    var paths := KeepExisting(h.files, h.dirs, audioFilePaths + written);

    r := MixTracks(h, tempDir, paths, crossfadeDurationInSec, outputFormat, output);
  }

  /** The command that crossfades `paths` into `out`, built as the source
      builds it: the graph from the loop, then one input per path. */
  method BuildMixCommand(paths: seq<string>, d: string, out: string) returns (cmd: Command)
    ensures cmd == MixCommand(paths, CrossfadeFilter(|paths|, d), out)
  {
    var filterComplex, prevLabel := CrossfadeGraph(|paths|, d);
    cmd := AddInputs(MixCommand([], Graph(filterComplex, Some(prevLabel)), out), paths);
    assert [] + paths == paths;
  }

  /** Crossfades the kept files into the output and removes them. */
  method MixTracks(
    h: Host, tempDir: string, paths: seq<string>,
    crossfadeDurationInSec: nat, outputFormat: string, output: Option<string>)
    returns (r: Result<ConcatenateAudioOutput>)
    modifies h`files, h`history, h`counter
    ensures h.counter == old(h.counter) + (if output.Some? then 0 else 1)
    ensures
      var out := OrDefault(output, Join(tempDir, Token(old(h.counter)) + "." + outputFormat));
      var cmd := MixCommand(paths, CrossfadeFilter(|paths|, NatToString(crossfadeDurationInSec)), out);
      var o := h.engine(cmd);
      && h.history == old(h.history) + [Ran(cmd, o), RemovedFiles(paths)]
      && h.files == RemovePaths(if o.Pass? then old(h.files)[out := Rendered(cmd)] else old(h.files), paths)
      && r == if o.Pass? then Ok(ConcatenateAudioOutput(out, h.mediaInfo(Some(Rendered(cmd))).durationInSec))
              else Err(AssemblyError(o.message))
  {
    ghost var history0 := h.history;
    var outputFilePath;
    if output.Some? {
      outputFilePath := output.value;
    } else {
      var uuid := h.Uuid();
      outputFilePath := Join(tempDir, uuid + "." + outputFormat);
    }
    var cmd := BuildMixCommand(paths, NatToString(crossfadeDurationInSec), outputFilePath);
    var outcome := h.Run(cmd);
    if outcome.Fail? {
      r := Err(AssemblyError(outcome.message));
    } else {
      var info := h.MediaInfoOf(outputFilePath);
      r := Ok(ConcatenateAudioOutput(outputFilePath, info.durationInSec));
    }
    // finally
    h.RemoveTemporaryFiles(paths);
    assert h.history == history0 + [Ran(cmd, outcome), RemovedFiles(paths)];
  }

  /** `concatenateAudio` started from a state with the given files,
      directories and counter. */
  function AudioConcatenation(
    h: Host, files: map<string, Blob>, dirs: set<string>, counter: nat,
    output: Option<string>, audioTracks: ArrayArg<string>, audioFilePaths: seq<string>,
    crossfadeDurationInSec: nat, outputFormat: string)
    : Effect<ConcatenateAudioOutput>
  {
    if audioTracks.NotAnArray? then Effect(files, dirs, counter, [], Err(NotAnArrayError))
    else
      var tracks := audioTracks.Elements();
      var tempDir := Join(TmpDir, Token(counter));
      if IsSingleTrack(tracks) then
        var out := Join(tempDir, "audio_0." + outputFormat);
        var blob := Base64Text(h.lib.addBase64Header(tracks[0], "wav"));
        Effect(files[out := blob], dirs + {tempDir}, counter + 1, [Wrote(out, blob)],
          Ok(ConcatenateAudioOutput(out, h.mediaInfo(Some(blob)).durationInSec)))
      else if |audioFilePaths| == 1 then
        Effect(files, dirs + {tempDir}, counter + 1, [], Err(SinglePathError))
      else
        MixedTracks(h, files, dirs + {tempDir}, counter + 1, tempDir, tracks, audioFilePaths,
          crossfadeDurationInSec, outputFormat, output)
  }

  /** The `try` block of the multi-track case from a state with the given
      files, directories and counter: the tracks are written after the given
      paths, the existing files are crossfaded and then handed to cleanup. */
  function MixedTracks(
    h: Host, files: map<string, Blob>, dirs: set<string>, counter: nat, tempDir: string,
    tracks: seq<string>, audioFilePaths: seq<string>, crossfadeDurationInSec: nat, outputFormat: string,
    output: Option<string>)
    : Effect<ConcatenateAudioOutput>
  {
    var ws := Materialise(tracks, 1, AudioPlace(h.lib, tempDir));
    var written := ApplyWrites(files, ws);
    var kept := KeepExisting(written, dirs, audioFilePaths + PathsOf(ws));
    var out := OrDefault(output, Join(tempDir, Token(counter) + "." + outputFormat));
    var cmd := MixCommand(kept, CrossfadeFilter(|kept|, NatToString(crossfadeDurationInSec)), out);
    var o := h.engine(cmd);
    Effect(
      RemovePaths(if o.Pass? then written[out := Rendered(cmd)] else written, kept),
      dirs,
      counter + (if output.Some? then 0 else 1),
      WritesOf(ws) + [Ran(cmd, o), RemovedFiles(kept)],
      if o.Pass? then Ok(ConcatenateAudioOutput(out, h.mediaInfo(Some(Rendered(cmd))).durationInSec))
      else Err(AssemblyError(o.message)))
  }

  /** The two early errors: a non-array `audioTracks` is refused before
      anything happens, and exactly one caller path with no single truthy
      track is refused after the temporary directory is made but before any
      file is written or any command runs. */
  lemma AudioConcatenationRejects(
    h: Host, files: map<string, Blob>, dirs: set<string>, counter: nat,
    output: Option<string>, audioTracks: ArrayArg<string>, audioFilePaths: seq<string>,
    crossfadeDurationInSec: nat, outputFormat: string)
    ensures audioTracks.NotAnArray? ==>
      AudioConcatenation(h, files, dirs, counter, output, audioTracks, audioFilePaths, crossfadeDurationInSec,
        outputFormat) == Effect(files, dirs, counter, [], Err(NotAnArrayError))
    ensures !audioTracks.NotAnArray? && !IsSingleTrack(audioTracks.Elements()) && |audioFilePaths| == 1 ==>
      AudioConcatenation(h, files, dirs, counter, output, audioTracks, audioFilePaths, crossfadeDurationInSec,
        outputFormat) == Effect(files, dirs + {Join(TmpDir, Token(counter))}, counter + 1, [], Err(SinglePathError))
    ensures var e := AudioConcatenation(h, files, dirs, counter, output, audioTracks, audioFilePaths,
        crossfadeDurationInSec, outputFormat);
      e.result.Err? && e.events == [] ==>
        e.result.error == NotAnArrayError || e.result.error == SinglePathError
  {
    var e := AudioConcatenation(h, files, dirs, counter, output, audioTracks, audioFilePaths,
      crossfadeDurationInSec, outputFormat);
    if !audioTracks.NotAnArray? && !IsSingleTrack(audioTracks.Elements()) && |audioFilePaths| != 1 {
      var tempDir := Join(TmpDir, Token(counter));
      var m := MixedTracks(h, files, dirs + {tempDir}, counter + 1, tempDir, audioTracks.Elements(), audioFilePaths,
        crossfadeDurationInSec, outputFormat, output);
      assert |m.events| >= 2;
    }
  }

  /** A single truthy track is written to `audio_0.<outputFormat>` and
      returned, whatever `output` says; no ffmpeg command runs. */
  lemma SingleTrackIgnoresOutput(
    h: Host, files: map<string, Blob>, dirs: set<string>, counter: nat,
    output: Option<string>, track: string, audioFilePaths: seq<string>,
    crossfadeDurationInSec: nat, outputFormat: string)
    requires track != ""
    ensures var e := AudioConcatenation(h, files, dirs, counter, output, Given([track]), audioFilePaths,
        crossfadeDurationInSec, outputFormat);
      var out := Join(Join(TmpDir, Token(counter)), "audio_0." + outputFormat);
      && e.result.Ok? && e.result.value.filepath == out
      && e == AudioConcatenation(h, files, dirs, counter, None, Given([track]), [], 0, outputFormat)
      && forall k :: 0 <= k < |e.events| ==> !e.events[k].Ran?
  {
  }

  /** Outside the single-track case, the kept inputs are exactly the given
      paths and the written tracks that exist, in that order; the crossfade
      graph has one stage fewer than there are inputs; and every kept input
      is handed to cleanup, whether the mix ends well or not. */
  lemma MixedTracksCleanedUp(
    h: Host, files: map<string, Blob>, dirs: set<string>, counter: nat,
    output: Option<string>, tracks: seq<string>, audioFilePaths: seq<string>,
    crossfadeDurationInSec: nat, outputFormat: string)
    requires !IsSingleTrack(tracks) && |audioFilePaths| != 1
    ensures var e := AudioConcatenation(h, files, dirs, counter, output, Given(tracks), audioFilePaths,
        crossfadeDurationInSec, outputFormat);
      var tempDir := Join(TmpDir, Token(counter));
      var ws := Materialise(tracks, 1, AudioPlace(h.lib, tempDir));
      var kept := KeepExisting(ApplyWrites(files, ws), dirs + {tempDir}, audioFilePaths + PathsOf(ws));
      && |e.events| == |ws| + 2
      && e.events[|ws|].Ran? && e.events[|ws|].cmd.inputs == kept
      && e.events[|ws|].cmd.graph == Some(CrossfadeFilter(|kept|, NatToString(crossfadeDurationInSec)))
      && e.events[|ws| + 1] == RemovedFiles(kept)
      && (forall p :: p in kept ==> p !in e.files)
      && (e.result.Ok? <==> e.events[|ws|].outcome.Pass?)
      && (e.result.Err? ==> StartsWith(e.result.error, "Failed to assemble audio: "))
  {
    var tempDir := Join(TmpDir, Token(counter));
    var ws := Materialise(tracks, 1, AudioPlace(h.lib, tempDir));
    var e := AudioConcatenation(h, files, dirs, counter, output, Given(tracks), audioFilePaths,
      crossfadeDurationInSec, outputFormat);
    assert e == MixedTracks(h, files, dirs + {tempDir}, counter + 1, tempDir, tracks, audioFilePaths,
      crossfadeDurationInSec, outputFormat, output);
    assert |WritesOf(ws)| == |ws|;
    if e.result.Err? {
      assert e.result.error == AssemblyError(h.engine(e.events[|ws|].cmd).message);
    }
  }

  /** Outside the single-track case, a truthy first track is written first,
      to `audio_1.wav`, with a wav header. */
  lemma MixedTracksWriteFirstTrack(
    h: Host, files: map<string, Blob>, dirs: set<string>, counter: nat,
    output: Option<string>, tracks: seq<string>, crossfadeDurationInSec: nat, outputFormat: string)
    requires !IsSingleTrack(tracks) && |tracks| > 0 && tracks[0] != ""
    ensures var e := AudioConcatenation(h, files, dirs, counter, output, Given(tracks), [],
        crossfadeDurationInSec, outputFormat);
      && |e.events| >= 1
      && e.events[0] == Wrote(Join(Join(TmpDir, Token(counter)), "audio_" + NatToString(1) + ".wav"),
           Base64Text(h.lib.addBase64Header(tracks[0], "wav")))
  {
    var tempDir := Join(TmpDir, Token(counter));
    FirstMaterialised(tracks, 1, AudioPlace(h.lib, tempDir));
    var e := AudioConcatenation(h, files, dirs, counter, output, Given(tracks), [], crossfadeDurationInSec, outputFormat);
    assert e == MixedTracks(h, files, dirs + {tempDir}, counter + 1, tempDir, tracks, [],
      crossfadeDurationInSec, outputFormat, output);
  }

  method ConcatenateAudio(
    h: Host,
    output: Option<string> := None,
    audioTracks: ArrayArg<string> := Missing,
    audioFilePaths: seq<string> := [],
    crossfadeDurationInSec: nat := 10,
    outputFormat: string := "wav")
    returns (r: Result<ConcatenateAudioOutput>)
    modifies h
    ensures var e := AudioConcatenation(h, old(h.files), old(h.dirs), old(h.counter), output, audioTracks,
        audioFilePaths, crossfadeDurationInSec, outputFormat);
      && h.files == e.files && h.dirs == e.dirs && h.counter == e.counter
      && h.history == old(h.history) + e.events && r == e.result
  {
    if audioTracks.NotAnArray? {
      return Err(NotAnArrayError);
    }
    var tracks := audioTracks.Elements();
    var tempDir := h.RandomDirectory();

    if |tracks| == 1 && tracks[0] != "" {
      var outputFilePath := Join(tempDir, "audio_0." + outputFormat);
      h.WriteBase64(h.lib.addBase64Header(tracks[0], "wav"), outputFilePath);
      var info := h.MediaInfoOf(outputFilePath);
      return Ok(ConcatenateAudioOutput(outputFilePath, info.durationInSec));
    }

    if |audioFilePaths| == 1 {
      return Err(SinglePathError);
    }
    ghost var e := MixedTracks(h, h.files, h.dirs, h.counter, tempDir, tracks, audioFilePaths,
      crossfadeDurationInSec, outputFormat, output);
    r := AssembleTracks(h, tempDir, tracks, audioFilePaths, crossfadeDurationInSec, outputFormat, output);
  }

  /** The multi-track case deletes nothing by name. */
  lemma MixedTracksNoSweep(
    h: Host, files: map<string, Blob>, dirs: set<string>, counter: nat, tempDir: string,
    tracks: seq<string>, audioFilePaths: seq<string>, crossfadeDurationInSec: nat, outputFormat: string,
    output: Option<string>)
    ensures NoSweep(MixedTracks(h, files, dirs, counter, tempDir, tracks, audioFilePaths, crossfadeDurationInSec,
      outputFormat, output).events)
  {
    var ws := Materialise(tracks, 1, AudioPlace(h.lib, tempDir));
    var kept := KeepExisting(ApplyWrites(files, ws), dirs, audioFilePaths + PathsOf(ws));
    var out := OrDefault(output, Join(tempDir, Token(counter) + "." + outputFormat));
    var cmd := MixCommand(kept, CrossfadeFilter(|kept|, NatToString(crossfadeDurationInSec)), out);
    var last := [Ran(cmd, h.engine(cmd)), RemovedFiles(kept)];
    WritesOfNoSweep(ws);
    assert NoSweep(last);
    NoSweepAppend(WritesOf(ws), last);
  }

  /** The audio concatenation deletes nothing by name: it writes tracks,
      runs ffmpeg and removes its own temporary files by path. */
  lemma AudioConcatenationNoSweep(
    h: Host, files: map<string, Blob>, dirs: set<string>, counter: nat,
    output: Option<string>, audioTracks: ArrayArg<string>, audioFilePaths: seq<string>,
    crossfadeDurationInSec: nat, outputFormat: string)
    ensures NoSweep(AudioConcatenation(h, files, dirs, counter, output, audioTracks, audioFilePaths,
      crossfadeDurationInSec, outputFormat).events)
  {
    if !audioTracks.NotAnArray? && !IsSingleTrack(audioTracks.Elements()) && |audioFilePaths| != 1 {
      var tempDir := Join(TmpDir, Token(counter));
      MixedTracksNoSweep(h, files, dirs + {tempDir}, counter + 1, tempDir, audioTracks.Elements(), audioFilePaths,
        crossfadeDurationInSec, outputFormat, output);
    }
  }
}
