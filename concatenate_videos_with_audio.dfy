/** `concatenateVideosWithAudio`: concatenates videos and lays one audio track
    over them, mixing it with the videos' own sound when they have some. */
module ConcatenateVideosWithAudio {
  import opened Wrappers
  import opened Strings
  import opened Paths
  import opened Lib
  import opened Host
  import opened Seqs
  import opened Tracks
  import opened ConcatenateVideos

  /** `defaultExportFormat` */
  const DefaultExportFormat := "mp4"

  const AssemblyPrefix := "Failed to assemble video: "

  /** The trimmed template literal of the source: three lines, the second
      and third indented by ten spaces, with the volumes as JavaScript
      prints them. */
  function MixGraph(lib: Library, videoTracksVolume: real, audioTrackVolume: real): (g: string)
    ensures |g| > 20
  {
    "[0:a]volume=" + lib.numberText(videoTracksVolume) + "[a0];\n"
    + "          [1:a]volume=" + lib.numberText(audioTrackVolume) + "[a1];\n"
    + "          [a0][a1]amix=inputs=2:duration=shortest[a]"
  }

  /** The options that decide what becomes of the sound: mix both tracks
      through `mixGraph`, replace the videos' sound, copy it, or drop it. */
  function AudioOptions(extraAudio: bool, originalAudio: bool, mixGraph: string): (opts: seq<string>)
  {
    if extraAudio && originalAudio then
      ["-filter_complex", mixGraph, "-map", "0:v", "-map", "[a]", "-c:v", "copy", "-c:a", "aac"]
    else if extraAudio then
      ["-map", "0:v", "-map", "1:a", "-c:v", "copy", "-c:a", "aac"]
    else
      ["-c:v", "copy", if originalAudio then "-c:a copy" else "-an"]
  }

  /** With an extra track over videos that have sound, both are mixed
      through the volume filter into `[a]` and encoded as AAC. */
  lemma MixWhenBothHaveSound(lib: Library, v: real, a: real)
    ensures var opts := AudioOptions(true, true, MixGraph(lib, v, a));
      && "-filter_complex" in opts && MixGraph(lib, v, a) in opts && "[a]" in opts && "aac" in opts
      && "1:a" !in opts && "-c:a copy" !in opts && "-an" !in opts
  {
    var opts := AudioOptions(true, true, MixGraph(lib, v, a));
    assert opts[0] == "-filter_complex" && opts[5] == "[a]" && opts[9] == "aac";
  }

  /** With an extra track over silent videos, the extra track is mapped as
      it is: no volume filter. */
  lemma ReplaceWhenVideosAreSilent(mixGraph: string)
    ensures var opts := AudioOptions(true, false, mixGraph);
      && "1:a" in opts && "aac" in opts
      && "-filter_complex" !in opts && "-c:a copy" !in opts && "-an" !in opts
  {
    var opts := AudioOptions(true, false, mixGraph);
    assert opts[3] == "1:a" && opts[7] == "aac";
  }

  /** Without an extra track the videos' sound is copied when there is some
      and dropped otherwise. */
  lemma KeepOrDropWithoutExtraTrack(originalAudio: bool, mixGraph: string)
    ensures var opts := AudioOptions(false, originalAudio, mixGraph);
      && ("-c:a copy" in opts <==> originalAudio)
      && ("-an" in opts <==> !originalAudio)
      && "-filter_complex" !in opts && "aac" !in opts && "1:a" !in opts
  {
  }

  /** Whatever the sound, the video stream is copied, not re-encoded.
      `MixedDownCommand` and `ConcatenationCommands` state that these are the
      options of the final command that runs. */
  lemma VideoStreamCopied(extraAudio: bool, originalAudio: bool, mixGraph: string)
    ensures var opts := AudioOptions(extraAudio, originalAudio, mixGraph);
      exists k :: 0 <= k < |opts| - 1 && opts[k] == "-c:v" && opts[k + 1] == "copy"
  {
    var opts := AudioOptions(extraAudio, originalAudio, mixGraph);
    if extraAudio && originalAudio {
      assert opts[6] == "-c:v" && opts[7] == "copy";
    } else if extraAudio {
      assert opts[4] == "-c:v" && opts[5] == "copy";
    } else {
      assert opts[0] == "-c:v" && opts[1] == "copy";
    }
  }

  /** The path of the extra audio: written from `audioTrack` when there is
      one, else the given `audioFilePath`. */
  function AudioPath(lib: Library, tempDir: string, audioTrack: string, audioFilePath: string): string {
    if audioTrack != "" then Join(tempDir, "audio." + lib.extension(audioTrack)) else audioFilePath
  }

  function AudioWrites(lib: Library, tempDir: string, audioTrack: string): seq<Written> {
    if audioTrack != "" then
      [Written(Join(tempDir, "audio." + lib.extension(audioTrack)), lib.addBase64Header(audioTrack, lib.extension(audioTrack)))]
    else []
  }

  /** Where video track number `k` goes: its extension is taken from the
      AUDIO track, as in the source. */
  function VideoPlace(lib: Library, tempDir: string, audioTrack: string): (nat, string) -> Written {
    (k: nat, t: string) =>
      Written(Join(tempDir, "video" + NatToString(k) + "." + lib.extension(audioTrack)),
              lib.addBase64Header(t, lib.extension(audioTrack)))
  }

  /** Every written video file carries the audio track's extension, whatever
      the video itself is. */
  lemma VideoExtensionFromAudio(lib: Library, tempDir: string, audioTrack: string, videoTracks: seq<string>, j: nat)
    requires j < |NonEmptyTracks(videoTracks)|
    ensures var w := Materialise(videoTracks, 1, VideoPlace(lib, tempDir, audioTrack));
      |w| == |NonEmptyTracks(videoTracks)|
      && w[j].path == Join(tempDir, "video" + NatToString(j + 1) + "." + lib.extension(audioTrack))
      && w[j].text == lib.addBase64Header(NonEmptyTracks(videoTracks)[j], lib.extension(audioTrack))
  {
    MaterialiseNumbering(videoTracks, 1, VideoPlace(lib, tempDir, audioTrack));
  }

  function FinalCommand(merged: string, audioPath: string, originalAudio: bool, mixGraph: string, out: string): Command {
    Command([merged] + (if audioPath != "" then [audioPath] else []), None, None, None,
      ["-loglevel", "debug"] + AudioOptions(audioPath != "", originalAudio, mixGraph), Save(out))
  }

  /** What happens before the try block: a fresh directory, the extra audio
      and the video tracks written to it, and the existing video files. */
  datatype Preparation = Preparation(
    files: map<string, Blob>, dirs: set<string>, counter: nat, events: seq<Event>,
    tempDir: string, audioPath: string, kept: seq<string>)

  function Prepared(
    h: Host, files: map<string, Blob>, dirs: set<string>, counter: nat,
    audioTrack: string, audioFilePath: string, videoTracks: seq<string>, videoFilePaths: seq<string>)
    : Preparation
  {
    var tempDir := Join(TmpDir, Token(counter));
    var aw := AudioWrites(h.lib, tempDir, audioTrack);
    var vw := Materialise(videoTracks, 1, VideoPlace(h.lib, tempDir, audioTrack));
    var files1 := ApplyWrites(ApplyWrites(files, aw), vw);
    var dirs1 := dirs + {tempDir};
    Preparation(files1, dirs1, counter + 1, WritesOf(aw) + WritesOf(vw), tempDir,
      AudioPath(h.lib, tempDir, audioTrack, audioFilePath), KeepExisting(files1, dirs1, videoFilePaths + PathsOf(vw)))
  }

  /** Unfolding helper for proofs: without tracks to write, the preparation
      only makes the fresh directory and keeps the existing video files. */
  lemma PreparedWithoutTracks(
    h: Host, files: map<string, Blob>, dirs: set<string>, counter: nat, audioFilePath: string, videoFilePaths: seq<string>)
    ensures var tempDir := Join(TmpDir, Token(counter));
      Prepared(h, files, dirs, counter, "", audioFilePath, [], videoFilePaths)
        == Preparation(files, dirs + {tempDir}, counter + 1, [], tempDir, audioFilePath,
             KeepExisting(files, dirs + {tempDir}, videoFilePaths))
  {
    var tempDir := Join(TmpDir, Token(counter));
    assert Materialise([], 1, VideoPlace(h.lib, tempDir, "")) == [];
    assert videoFilePaths + PathsOf([]) == videoFilePaths;
  }

  /** Writes the extra audio and the video tracks and keeps the video files
      that exist. */
  method WriteInputs(
    h: Host, tempDir: string, audioTrack: string, audioFilePath: string,
    videoTracks: seq<string>, videoFilePaths: seq<string>)
    returns (audioPath: string, kept: seq<string>)
    modifies h`files, h`history
    ensures var aw := AudioWrites(h.lib, tempDir, audioTrack);
      var vw := Materialise(videoTracks, 1, VideoPlace(h.lib, tempDir, audioTrack));
      && audioPath == AudioPath(h.lib, tempDir, audioTrack, audioFilePath)
      && h.files == ApplyWrites(ApplyWrites(old(h.files), aw), vw)
      && h.history == old(h.history) + WritesOf(aw) + WritesOf(vw)
      && kept == KeepExisting(h.files, h.dirs, videoFilePaths + PathsOf(vw))
  {
    audioPath := audioFilePath;
    if audioTrack != "" {
      var extension := h.lib.extension(audioTrack);
      audioPath := Join(tempDir, "audio." + extension);
      h.WriteBase64(h.lib.addBase64Header(audioTrack, extension), audioPath);
      ghost var w := Written(audioPath, h.lib.addBase64Header(audioTrack, extension));
      WritesSnoc([], w);
      ApplySnoc(old(h.files), [], w);
    }
    var written := WriteTracks(h, videoTracks, 1, VideoPlace(h.lib, tempDir, audioTrack));
    kept := KeepExisting(h.files, h.dirs, videoFilePaths + written);
  }

  /** The fresh directory and the inputs written to it. */
  method Prepare(
    h: Host, audioTrack: string, audioFilePath: string, videoTracks: seq<string>, videoFilePaths: seq<string>)
    returns (tempDir: string, audioPath: string, kept: seq<string>)
    modifies h`files, h`dirs, h`counter, h`history
    ensures var p := Prepared(h, old(h.files), old(h.dirs), old(h.counter), audioTrack, audioFilePath,
        videoTracks, videoFilePaths);
      && h.files == p.files && h.dirs == p.dirs && h.counter == p.counter
      && h.history == old(h.history) + p.events
      && tempDir == p.tempDir && audioPath == p.audioPath && kept == p.kept
  {
    ghost var history0 := h.history;
    ghost var files0 := h.files;
    tempDir := h.RandomDirectory();
    ghost var aw := AudioWrites(h.lib, tempDir, audioTrack);
    ghost var vw := Materialise(videoTracks, 1, VideoPlace(h.lib, tempDir, audioTrack));
    audioPath, kept := WriteInputs(h, tempDir, audioTrack, audioFilePath, videoTracks, videoFilePaths);
    assert Prepared(h, files0, old(h.dirs), old(h.counter), audioTrack, audioFilePath, videoTracks, videoFilePaths)
      == Preparation(h.files, h.dirs, h.counter, WritesOf(aw) + WritesOf(vw), tempDir, audioPath, kept);
  }

  /** The ffmpeg command of the source, built option by option. */
  method BuildFinalCommand(merged: string, audioPath: string, hasOriginalAudio: bool, mixGraph: string, out: string)
    returns (cmd: Command)
    ensures cmd == FinalCommand(merged, audioPath, hasOriginalAudio, mixGraph, out)
  {
    cmd := Command([merged], None, None, None, ["-loglevel", "debug"], Save(out));
    if audioPath != "" {
      cmd := cmd.(inputs := cmd.inputs + [audioPath]);
      cmd := cmd.(outputOptions := cmd.outputOptions + AudioOptions(true, hasOriginalAudio, mixGraph));
    } else {
      cmd := cmd.(outputOptions := cmd.outputOptions + AudioOptions(false, hasOriginalAudio, mixGraph));
    }
  }

  /** Laying the extra audio over the concatenated video `merged`, from a
      state with the given files, directories and counter: the videos' own
      sound decides the options, and the result is the output path or its
      base64 with a header for `format`. */
  function MixedDown(
    h: Host, files: map<string, Blob>, dirs: set<string>, counter: nat,
    merged: string, audioPath: string, v: real, a: real,
    format: string, output: Option<string>, tempDir: string, asBase64: bool)
    : Effect<string>
  {
    var original := h.mediaInfo(if merged in files then Some(files[merged]) else None).hasAudio;
    var out := OrElse(output, Join(tempDir, Token(counter) + "." + format));
    var cmd := FinalCommand(merged, audioPath, original, MixGraph(h.lib, v, a), out);
    var o := h.engine(cmd);
    Effect(
      if o.Pass? then files[out := Rendered(cmd)] else files,
      dirs,
      counter + (if Truthy(output) then 0 else 1),
      [Ran(cmd, o)],
      if o.Fail? then Err(AssemblyPrefix + o.message)
      else if asBase64 then Ok(h.lib.addBase64Header(h.encode(Rendered(cmd)), format))
      else Ok(out))
  }

  /** Lays the extra audio over the concatenated video and reads the result. */
  method MixDown(
    h: Host, merged: string, audioPath: string, v: real, a: real,
    format: string, output: Option<string>, tempDir: string, asBase64: bool)
    returns (r: Result<string>)
    modifies h`files, h`history, h`counter
    ensures var e := MixedDown(h, old(h.files), old(h.dirs), old(h.counter), merged, audioPath, v, a, format, output,
        tempDir, asBase64);
      && h.files == e.files && h.counter == e.counter && h.history == old(h.history) + e.events && r == e.result
  {
    ghost var c := h.counter;
    var info := h.MediaInfoOf(merged);
    var hasOriginalAudio := info.hasAudio;
    var finalOutputFilePath;
    if Truthy(output) {
      finalOutputFilePath := output.value;
    } else {
      var uuid := h.Uuid();
      finalOutputFilePath := Join(tempDir, uuid + "." + format);
    }
    assert finalOutputFilePath == OrElse(output, Join(tempDir, Token(c) + "." + format));
    var cmd := BuildFinalCommand(merged, audioPath, hasOriginalAudio, MixGraph(h.lib, v, a), finalOutputFilePath);
    var outcome := h.Run(cmd);
    if outcome.Fail? {
      return Err(AssemblyPrefix + outcome.message);
    }
    if asBase64 {
      var content := h.ReadBase64(finalOutputFilePath);
      // the source's "Error reading output video file" cannot happen: ffmpeg has just written it
      assert content.Ok?;
      r := Ok(h.lib.addBase64Header(content.value, format));
    } else {
      r := Ok(finalOutputFilePath);
    }
  }

  /** The try block from a state with the given files, directories and
      counter: the kept videos are concatenated into a fresh directory, then
      the audio is laid over them in `tempDir`. A failure of either ffmpeg
      run becomes "Failed to assemble video: " and its message. */
  function Assembled(
    h: Host, files: map<string, Blob>, dirs: set<string>, counter: nat,
    kept: seq<string>, audioPath: string, tempDir: string, v: real, a: real,
    format: string, output: Option<string>, asBase64: bool)
    : Effect<string>
  {
    var ce := Concatenated(h, files, dirs, counter, Given(kept), None);
    if ce.result.Err? then Effect(ce.files, ce.dirs, ce.counter, ce.events, Err(AssemblyPrefix + ce.result.error))
    else
      var m := MixedDown(h, ce.files, ce.dirs, ce.counter, ce.result.value.filepath, audioPath, v, a, format, output,
        tempDir, asBase64);
      Effect(m.files, m.dirs, m.counter, ce.events + m.events, m.result)
  }

  /** The mix is one ffmpeg run over the merged video, then the extra audio
      when there is one, with the options that the merged video's own sound
      selects, the volume graph, and the chosen output path; it resolves
      exactly when that run passes. */
  lemma MixedDownCommand(
    h: Host, files: map<string, Blob>, dirs: set<string>, counter: nat,
    merged: string, audioPath: string, v: real, a: real,
    format: string, output: Option<string>, tempDir: string, asBase64: bool)
    ensures var m := MixedDown(h, files, dirs, counter, merged, audioPath, v, a, format, output, tempDir, asBase64);
      var original := h.mediaInfo(if merged in files then Some(files[merged]) else None).hasAudio;
      && |m.events| == 1 && m.events[0].Ran?
      && m.events[0].cmd.inputs == [merged] + (if audioPath != "" then [audioPath] else [])
      && m.events[0].cmd.outputOptions
         == ["-loglevel", "debug"] + AudioOptions(audioPath != "", original, MixGraph(h.lib, v, a))
      && m.events[0].cmd.sink == Save(OrElse(output, Join(tempDir, Token(counter) + "." + format)))
      && m.events[0].cmd.graph.None?
      && (m.result.Ok? <==> m.events[0].outcome.Pass?)
  {
  }

  /** The try block runs ffmpeg once to concatenate the kept videos into a
      fresh directory and, when that passes, once more to lay the audio over
      the result, with the options that the concatenation's own sound
      selects. */
  lemma AssembledCommands(
    h: Host, files: map<string, Blob>, dirs: set<string>, counter: nat,
    kept: seq<string>, audioPath: string, tempDir: string, v: real, a: real,
    format: string, output: Option<string>, asBase64: bool)
    ensures var e := Assembled(h, files, dirs, counter, kept, audioPath, tempDir, v, a, format, output, asBase64);
      var mergeDir := Join(TmpDir, Token(counter));
      var merged := Join(mergeDir, Token(counter + 1) + ".mp4");
      var mergeCmd := MergeCommand(KeepExisting(files, dirs, kept), merged, mergeDir);
      var mixCmd := FinalCommand(merged, audioPath, h.mediaInfo(Some(Rendered(mergeCmd))).hasAudio,
        MixGraph(h.lib, v, a), OrElse(output, Join(tempDir, Token(counter + 2) + "." + format)));
      && 1 <= |e.events| <= 2
      && e.events[0] == Ran(mergeCmd, h.engine(mergeCmd))
      && (|e.events| == 2 <==> h.engine(mergeCmd).Pass?)
      && (|e.events| == 2 ==> e.events[1] == Ran(mixCmd, h.engine(mixCmd)))
      && (e.result.Ok? <==> h.engine(mergeCmd).Pass? && h.engine(mixCmd).Pass?)
  {
    var ce := Concatenated(h, files, dirs, counter, Given(kept), None);
    ConcatenatedFresh(h, files, dirs, counter, kept);
    if ce.result.Ok? {
      var merged := Join(Join(TmpDir, Token(counter)), Token(counter + 1) + ".mp4");
      MixedDownCommand(h, ce.files, ce.dirs, ce.counter, merged, audioPath, v, a, format, output, tempDir, asBase64);
    }
  }

  /** The try block after the inputs are written: concatenate the videos,
      then lay the audio over them. */
  method Assemble(
    h: Host, kept: seq<string>, audioPath: string, tempDir: string, v: real, a: real,
    format: string, output: Option<string>, asBase64: bool)
    returns (r: Result<string>)
    modifies h
    ensures var e := Assembled(h, old(h.files), old(h.dirs), old(h.counter), kept, audioPath, tempDir, v, a,
        format, output, asBase64);
      && h.files == e.files && h.dirs == e.dirs && h.counter == e.counter
      && h.history == old(h.history) + e.events && r == e.result
  {
    var concatenated := ConcatenateVideos.ConcatenateVideos(h, Given(kept));
    if concatenated.Err? {
      r := Err(AssemblyPrefix + concatenated.error);
    } else {
      ghost var history1 := h.history;
      ghost var m := MixedDown(h, h.files, h.dirs, h.counter, concatenated.value.filepath, audioPath, v, a, format,
        output, tempDir, asBase64);
      r := MixDown(h, concatenated.value.filepath, audioPath, v, a, format, output, tempDir, asBase64);
      assert h.history == history1 + m.events;
    }
  }

  /** `concatenateVideosWithAudio` started from a state with the given
      files, directories and counter: the tracks are written to a fresh
      directory, the try block runs, and `finally` hands every video path and
      the audio path to cleanup. */
  function Concatenation(
    h: Host, files: map<string, Blob>, dirs: set<string>, counter: nat,
    output: Option<string>, format: string, audioTrack: string, audioFilePath: string,
    videoTracks: seq<string>, videoFilePaths: seq<string>, videoTracksVolume: real, audioTrackVolume: real,
    asBase64: bool)
    : Effect<string>
  {
    var p := Prepared(h, files, dirs, counter, audioTrack, audioFilePath, videoTracks, videoFilePaths);
    var e := Assembled(h, p.files, p.dirs, p.counter, p.kept, p.audioPath, p.tempDir, videoTracksVolume,
      audioTrackVolume, format, output, asBase64);
    Effect(RemovePaths(e.files, p.kept + [p.audioPath]), e.dirs, e.counter,
      p.events + e.events + [RemovedFiles(p.kept + [p.audioPath])], e.result)
  }

  /** The try block fails with "Failed to assemble video: " and a message,
      or, without base64, resolves with the chosen output path. */
  lemma AssembledResolvesWithOutput(
    h: Host, files: map<string, Blob>, dirs: set<string>, counter: nat,
    kept: seq<string>, audioPath: string, tempDir: string, v: real, a: real,
    format: string, output: Option<string>)
    ensures var e := Assembled(h, files, dirs, counter, kept, audioPath, tempDir, v, a, format, output, false);
      && (e.result.Ok? ==> e.result.value == OrElse(output, Join(tempDir, Token(counter + 2) + "." + format)))
      && (e.result.Err? ==> StartsWith(e.result.error, AssemblyPrefix))
  {
    var ce := Concatenated(h, files, dirs, counter, Given(kept), None);
    var e := Assembled(h, files, dirs, counter, kept, audioPath, tempDir, v, a, format, output, false);
    if e.result.Err? {
      assert exists m :: e.result.error == AssemblyPrefix + m;
    }
  }

  /** With base64 the mix, when it passes, resolves with the content of what
      it rendered, as a data URI with a header for `format`, and that
      rendering is left at the chosen output path. */
  lemma MixedDownAsBase64(
    h: Host, files: map<string, Blob>, dirs: set<string>, counter: nat,
    merged: string, audioPath: string, v: real, a: real,
    format: string, output: Option<string>, tempDir: string)
    ensures var m := MixedDown(h, files, dirs, counter, merged, audioPath, v, a, format, output, tempDir, true);
      m.result.Ok? ==>
        var out := OrElse(output, Join(tempDir, Token(counter) + "." + format));
        && |m.events| == 1 && m.events[0].Ran? && m.events[0].outcome.Pass? && m.events[0].cmd.sink.path == out
        && m.result.value == h.lib.addBase64Header(h.encode(Rendered(m.events[0].cmd)), format)
        && out in m.files && m.files[out] == Rendered(m.events[0].cmd)
  {
  }

  /** With base64 the try block resolves with the content of what its last
      ffmpeg run rendered, as a data URI with a header for `format`, and that
      rendering is left at the chosen output path. */
  lemma AssembledAsBase64(
    h: Host, files: map<string, Blob>, dirs: set<string>, counter: nat,
    kept: seq<string>, audioPath: string, tempDir: string, v: real, a: real,
    format: string, output: Option<string>)
    ensures var e := Assembled(h, files, dirs, counter, kept, audioPath, tempDir, v, a, format, output, true);
      e.result.Ok? ==>
        var last := e.events[|e.events| - 1];
        var out := OrElse(output, Join(tempDir, Token(counter + 2) + "." + format));
        && last.Ran? && last.outcome.Pass? && last.cmd.sink.path == out
        && e.result.value == h.lib.addBase64Header(h.encode(Rendered(last.cmd)), format)
        && out in e.files && e.files[out] == Rendered(last.cmd)
  {
    var ce := Concatenated(h, files, dirs, counter, Given(kept), None);
    var e := Assembled(h, files, dirs, counter, kept, audioPath, tempDir, v, a, format, output, true);
    if ce.result.Ok? {
      AssembledResolvesWithOutput(h, files, dirs, counter, kept, audioPath, tempDir, v, a, format, output);
      var m := MixedDown(h, ce.files, ce.dirs, ce.counter, ce.result.value.filepath, audioPath, v, a, format, output,
        tempDir, true);
      MixedDownAsBase64(h, ce.files, ce.dirs, ce.counter, ce.result.value.filepath, audioPath, v, a, format, output,
        tempDir);
      assert e.events == ce.events + m.events;
      assert ce.counter == counter + 2;
    }
  }

  /** Without base64 the call resolves with the chosen output path, and
      whatever happens the last event hands the kept videos and the audio
      path to cleanup, which leaves none of them behind. */
  lemma ConcatenationResolvesWithOutput(
    h: Host, files: map<string, Blob>, dirs: set<string>, counter: nat,
    output: Option<string>, format: string, audioTrack: string, audioFilePath: string,
    videoTracks: seq<string>, videoFilePaths: seq<string>, videoTracksVolume: real, audioTrackVolume: real)
    ensures var e := Concatenation(h, files, dirs, counter, output, format, audioTrack, audioFilePath,
        videoTracks, videoFilePaths, videoTracksVolume, audioTrackVolume, false);
      var audioPath := AudioPath(h.lib, Join(TmpDir, Token(counter)), audioTrack, audioFilePath);
      && |e.events| >= 1 && e.events[|e.events| - 1].RemovedFiles?
      && audioPath in e.events[|e.events| - 1].paths
      && (forall p :: p in e.events[|e.events| - 1].paths ==> p !in e.files)
      && (e.result.Ok? ==> e.result.value == OrElse(output, Join(Join(TmpDir, Token(counter)), Token(counter + 3) + "." + format)))
      && (e.result.Err? ==> StartsWith(e.result.error, AssemblyPrefix))
  {
    var p := Prepared(h, files, dirs, counter, audioTrack, audioFilePath, videoTracks, videoFilePaths);
    var a := Assembled(h, p.files, p.dirs, p.counter, p.kept, p.audioPath, p.tempDir, videoTracksVolume,
      audioTrackVolume, format, output, false);
    AssembledResolvesWithOutput(h, p.files, p.dirs, p.counter, p.kept, p.audioPath, p.tempDir, videoTracksVolume,
      audioTrackVolume, format, output);
    var e := Concatenation(h, files, dirs, counter, output, format, audioTrack, audioFilePath,
      videoTracks, videoFilePaths, videoTracksVolume, audioTrackVolume, false);
    assert e.events == p.events + a.events + [RemovedFiles(p.kept + [p.audioPath])];
    assert e.files == RemovePaths(a.files, p.kept + [p.audioPath]);
    assert e.result == a.result;
    var last := e.events[|e.events| - 1];
    assert last.paths == p.kept + [p.audioPath];
    assert last.paths[|last.paths| - 1] == p.audioPath;
  }

  /** After the inputs are written the call runs ffmpeg once to concatenate
      the kept videos and, when that passes, once more to lay the audio over
      them at the two volumes, with the options that the concatenation's own
      sound selects; it resolves exactly when both runs pass. */
  lemma ConcatenationCommands(
    h: Host, files: map<string, Blob>, dirs: set<string>, counter: nat,
    output: Option<string>, format: string, audioTrack: string, audioFilePath: string,
    videoTracks: seq<string>, videoFilePaths: seq<string>, videoTracksVolume: real, audioTrackVolume: real,
    asBase64: bool)
    ensures var e := Concatenation(h, files, dirs, counter, output, format, audioTrack, audioFilePath,
        videoTracks, videoFilePaths, videoTracksVolume, audioTrackVolume, asBase64);
      var p := Prepared(h, files, dirs, counter, audioTrack, audioFilePath, videoTracks, videoFilePaths);
      var tempDir := Join(TmpDir, Token(counter));
      var mergeDir := Join(TmpDir, Token(counter + 1));
      var merged := Join(mergeDir, Token(counter + 2) + ".mp4");
      var mergeCmd := MergeCommand(p.kept, merged, mergeDir);
      var mixCmd := FinalCommand(merged, AudioPath(h.lib, tempDir, audioTrack, audioFilePath),
        h.mediaInfo(Some(Rendered(mergeCmd))).hasAudio, MixGraph(h.lib, videoTracksVolume, audioTrackVolume),
        OrElse(output, Join(tempDir, Token(counter + 3) + "." + format)));
      && |e.events| >= |p.events| + 2
      && e.events[|p.events|] == Ran(mergeCmd, h.engine(mergeCmd))
      && (h.engine(mergeCmd).Pass? ==> e.events[|p.events| + 1] == Ran(mixCmd, h.engine(mixCmd)))
      && (e.result.Ok? <==> h.engine(mergeCmd).Pass? && h.engine(mixCmd).Pass?)
  {
    var p := Prepared(h, files, dirs, counter, audioTrack, audioFilePath, videoTracks, videoFilePaths);
    var a := Assembled(h, p.files, p.dirs, p.counter, p.kept, p.audioPath, p.tempDir, videoTracksVolume,
      audioTrackVolume, format, output, asBase64);
    AssembledCommands(h, p.files, p.dirs, p.counter, p.kept, p.audioPath, p.tempDir, videoTracksVolume,
      audioTrackVolume, format, output, asBase64);
    ConcatenationCleansUp(h, files, dirs, counter, output, format, audioTrack, audioFilePath,
      videoTracks, videoFilePaths, videoTracksVolume, audioTrackVolume, asBase64);
    var e := Concatenation(h, files, dirs, counter, output, format, audioTrack, audioFilePath,
      videoTracks, videoFilePaths, videoTracksVolume, audioTrackVolume, asBase64);
    assert e.events == p.events + a.events + [RemovedFiles(p.kept + [p.audioPath])];
    assert p.counter == counter + 1 && p.tempDir == Join(TmpDir, Token(counter));
    // the concatenation filters the kept paths once more, to the same paths
    var vw := Materialise(videoTracks, 1, VideoPlace(h.lib, p.tempDir, audioTrack));
    KeepExistingIdempotent(p.files, p.dirs, videoFilePaths + PathsOf(vw));
  }

  method ConcatenateVideosWithAudio(
    h: Host,
    output: Option<string> := None,
    format: string := DefaultExportFormat,
    audioTrack: string := "",
    audioFilePath: string := "",
    videoTracks: seq<string> := [],
    videoFilePaths: seq<string> := [],
    videoTracksVolume: real := 0.5,
    audioTrackVolume: real := 0.5,
    asBase64: bool := false)
    returns (r: Result<string>)
    modifies h
    ensures var e := Concatenation(h, old(h.files), old(h.dirs), old(h.counter), output, format, audioTrack,
        audioFilePath, videoTracks, videoFilePaths, videoTracksVolume, audioTrackVolume, asBase64);
      && h.files == e.files && h.dirs == e.dirs && h.counter == e.counter
      && h.history == old(h.history) + e.events && r == e.result
  {
    ghost var p := Prepared(h, h.files, h.dirs, h.counter, audioTrack, audioFilePath, videoTracks, videoFilePaths);
    var tempDir, audioPath, kept := Prepare(h, audioTrack, audioFilePath, videoTracks, videoFilePaths);
    ghost var e := Assembled(h, h.files, h.dirs, h.counter, kept, audioPath, tempDir, videoTracksVolume,
      audioTrackVolume, format, output, asBase64);
    r := Assemble(h, kept, audioPath, tempDir, videoTracksVolume, audioTrackVolume, format, output, asBase64);
    // finally
    h.RemoveTemporaryFiles(kept + [audioPath]);
    AppendRegroup(old(h.history), p.events, e.events, [RemovedFiles(kept + [audioPath])]);
  }

  /** The mix deletes nothing by name: it writes its inputs, runs ffmpeg
      twice and removes its inputs by path. */
  lemma ConcatenationNoSweep(
    h: Host, files: map<string, Blob>, dirs: set<string>, counter: nat,
    output: Option<string>, format: string, audioTrack: string, audioFilePath: string,
    videoTracks: seq<string>, videoFilePaths: seq<string>, videoTracksVolume: real, audioTrackVolume: real,
    asBase64: bool)
    ensures NoSweep(Concatenation(h, files, dirs, counter, output, format, audioTrack, audioFilePath,
      videoTracks, videoFilePaths, videoTracksVolume, audioTrackVolume, asBase64).events)
  {
    var tempDir := Join(TmpDir, Token(counter));
    var aw := AudioWrites(h.lib, tempDir, audioTrack);
    var vw := Materialise(videoTracks, 1, VideoPlace(h.lib, tempDir, audioTrack));
    var p := Prepared(h, files, dirs, counter, audioTrack, audioFilePath, videoTracks, videoFilePaths);
    var a := Assembled(h, p.files, p.dirs, p.counter, p.kept, p.audioPath, p.tempDir, videoTracksVolume,
      audioTrackVolume, format, output, asBase64);
    WritesOfNoSweep(aw);
    WritesOfNoSweep(vw);
    NoSweepAppend(WritesOf(aw), WritesOf(vw));
    AssembledNoSweep(h, p.files, p.dirs, p.counter, p.kept, p.audioPath, p.tempDir, videoTracksVolume,
      audioTrackVolume, format, output, asBase64);
    NoSweepAppend(p.events, a.events);
    NoSweepAppend(p.events + a.events, [RemovedFiles(p.kept + [p.audioPath])]);
  }

  /** The try block deletes nothing by name: it runs ffmpeg twice. */
  lemma AssembledNoSweep(
    h: Host, files: map<string, Blob>, dirs: set<string>, counter: nat,
    kept: seq<string>, audioPath: string, tempDir: string, v: real, a: real,
    format: string, output: Option<string>, asBase64: bool)
    ensures NoSweep(Assembled(h, files, dirs, counter, kept, audioPath, tempDir, v, a, format, output, asBase64).events)
  {
    var ce := Concatenated(h, files, dirs, counter, Given(kept), None);
    ConcatenatedNoSweep(h, files, dirs, counter, Given(kept), None);
    if ce.result.Ok? {
      var m := MixedDown(h, ce.files, ce.dirs, ce.counter, ce.result.value.filepath, audioPath, v, a, format, output,
        tempDir, asBase64);
      NoSweepAppend(ce.events, m.events);
    }
  }

  /** A successful try block leaves what ffmpeg rendered at the chosen
      output path. */
  lemma AssembledSavesOutput(
    h: Host, files: map<string, Blob>, dirs: set<string>, counter: nat,
    kept: seq<string>, audioPath: string, tempDir: string, v: real, a: real,
    format: string, output: Option<string>, asBase64: bool)
    ensures var e := Assembled(h, files, dirs, counter, kept, audioPath, tempDir, v, a, format, output, asBase64);
      e.result.Ok? ==> OrElse(output, Join(tempDir, Token(counter + 2) + "." + format)) in e.files
  {
    var ce := Concatenated(h, files, dirs, counter, Given(kept), None);
    if ce.result.Ok? {
      assert ce.counter == counter + 2;
    }
  }

  /** A successful call leaves its output in place unless the output is one
      of the inputs that cleanup removes: the given video files, the video
      tracks it wrote, or the audio file. */
  lemma ConcatenationKeepsOutput(
    h: Host, files: map<string, Blob>, dirs: set<string>, counter: nat,
    output: Option<string>, format: string, audioTrack: string, audioFilePath: string,
    videoTracks: seq<string>, videoFilePaths: seq<string>, videoTracksVolume: real, audioTrackVolume: real,
    asBase64: bool)
    ensures var e := Concatenation(h, files, dirs, counter, output, format, audioTrack, audioFilePath,
        videoTracks, videoFilePaths, videoTracksVolume, audioTrackVolume, asBase64);
      var tempDir := Join(TmpDir, Token(counter));
      var out := OrElse(output, Join(tempDir, Token(counter + 3) + "." + format));
      (&& e.result.Ok? && out !in videoFilePaths
       && out !in PathsOf(Materialise(videoTracks, 1, VideoPlace(h.lib, tempDir, audioTrack)))
       && out != AudioPath(h.lib, tempDir, audioTrack, audioFilePath))
      ==> out in e.files
  {
    var p := Prepared(h, files, dirs, counter, audioTrack, audioFilePath, videoTracks, videoFilePaths);
    var vw := Materialise(videoTracks, 1, VideoPlace(h.lib, p.tempDir, audioTrack));
    var a := Assembled(h, p.files, p.dirs, p.counter, p.kept, p.audioPath, p.tempDir, videoTracksVolume,
      audioTrackVolume, format, output, asBase64);
    var out := OrElse(output, Join(p.tempDir, Token(counter + 3) + "." + format));
    AssembledSavesOutput(h, p.files, p.dirs, p.counter, p.kept, p.audioPath, p.tempDir, videoTracksVolume,
      audioTrackVolume, format, output, asBase64);
    ConcatenationCleansUp(h, files, dirs, counter, output, format, audioTrack, audioFilePath, videoTracks,
      videoFilePaths, videoTracksVolume, audioTrackVolume, asBase64);
    if a.result.Ok? && out !in videoFilePaths && out !in PathsOf(vw) && out != p.audioPath {
      CleanupSparesOthers(p, a.files, videoFilePaths + PathsOf(vw), out);
    }
  }

  /** Unfolding helper for proofs: the call's files are those of the try
      block less the kept inputs and the audio path, and its result is the
      try block's. */
  lemma ConcatenationCleansUp(
    h: Host, files: map<string, Blob>, dirs: set<string>, counter: nat,
    output: Option<string>, format: string, audioTrack: string, audioFilePath: string,
    videoTracks: seq<string>, videoFilePaths: seq<string>, videoTracksVolume: real, audioTrackVolume: real,
    asBase64: bool)
    ensures var p := Prepared(h, files, dirs, counter, audioTrack, audioFilePath, videoTracks, videoFilePaths);
      var a := Assembled(h, p.files, p.dirs, p.counter, p.kept, p.audioPath, p.tempDir, videoTracksVolume,
        audioTrackVolume, format, output, asBase64);
      var e := Concatenation(h, files, dirs, counter, output, format, audioTrack, audioFilePath,
        videoTracks, videoFilePaths, videoTracksVolume, audioTrackVolume, asBase64);
      e.files == RemovePaths(a.files, p.kept + [p.audioPath]) && e.result == a.result
  {
  }

  /** Proof helper: the clean-up removes only the kept inputs and the audio
      path, so a file that is neither stays. */
  lemma CleanupSparesOthers(p: Preparation, files: map<string, Blob>, checked: seq<string>, out: string)
    requires p.kept == KeepExisting(p.files, p.dirs, checked)
    requires out in files && out !in checked && out != p.audioPath
    ensures out in RemovePaths(files, p.kept + [p.audioPath])
  {
    KeepExistingKeeps(p.files, p.dirs, checked);
  }
}
