/** `clapToTmpVideoFilePath`: a whole project rendered to one video file.
    The shots are exported (from the video segments when there are any,
    else from the storyboards), concatenated, given the music as a
    soundtrack, and mixed into `final_video.<format>` in the working
    directory. */
module ClapToTmpVideoFilePath {
  import opened Wrappers
  import opened Strings
  import opened Seqs
  import opened Paths
  import opened Clap
  import opened Lib
  import opened Host
  import opened Tracks
  import opened ShotSteps
  import opened ConcatenateVideos
  import opened ConcatenateAudio
  import opened ConcatenateVideosWithAudio
  import opened ClapWithVideosToVideoFile
  import opened ClapWithStoryboardsToVideoFile
  import VideoSegmentToVideoFile
  import StoryboardSegmentToVideoFile

  const NoMediaError := "the provided Clap doesn't contain any video or storyboard"

  /** What the export resolves with. */
  datatype TmpVideo = TmpVideo(tmpWorkDir: string, outputFilePath: string)

  /** An unsupported format falls back to mp4. */
  function NormalisedFormat(format: string): (f: string)
    ensures f == "mp4" || f == "webm"
    ensures (format == "mp4" || format == "webm") ==> f == format
  {
    if format != "mp4" && format != "webm" then "mp4" else format
  }

  predicate IsVideoShot(s: Segment) {
    s.category == "video" && StartsWith(s.assetUrl, "data:video/")
  }

  predicate IsStoryboardShot(s: Segment) {
    s.category == "storyboard" && StartsWith(s.assetUrl, "data:image/")
  }

  predicate IsMusic(s: Segment) {
    s.category == "music" && StartsWith(s.assetUrl, "data:audio/")
  }

  function VideoSegments(clap: ClapProject): seq<Segment> {
    Filter(IsVideoShot, clap.segments)
  }

  function StoryboardSegments(clap: ClapProject): seq<Segment> {
    Filter(IsStoryboardShot, clap.segments)
  }

  function MusicSegments(clap: ClapProject): seq<Segment> {
    Filter(IsMusic, clap.segments)
  }

  /** The shots and the music are exactly the project's segments of the
      right category with an inline asset of the right kind, each list in
      project order; storyboards are used exactly when no segment is a video
      shot and some segment is a storyboard. */
  lemma SegmentSelection(clap: ClapProject)
    ensures forall s :: s in VideoSegments(clap) <==> s in clap.segments && IsVideoShot(s)
    ensures forall s :: s in StoryboardSegments(clap) <==> s in clap.segments && IsStoryboardShot(s)
    ensures forall s :: s in MusicSegments(clap) <==> s in clap.segments && IsMusic(s)
    ensures IsSubsequence(VideoSegments(clap), clap.segments)
    ensures IsSubsequence(StoryboardSegments(clap), clap.segments)
    ensures IsSubsequence(MusicSegments(clap), clap.segments)
    ensures UsesStoryboards(clap) <==>
      (forall j :: 0 <= j < |clap.segments| ==> !IsVideoShot(clap.segments[j]))
      && (exists j :: 0 <= j < |clap.segments| && IsStoryboardShot(clap.segments[j]))
  {
    FilterMembers(IsVideoShot, clap.segments);
    FilterMembers(IsStoryboardShot, clap.segments);
    FilterMembers(IsMusic, clap.segments);
    FilterIsSubsequence(IsVideoShot, clap.segments);
    FilterIsSubsequence(IsStoryboardShot, clap.segments);
    FilterIsSubsequence(IsMusic, clap.segments);
    if |StoryboardSegments(clap)| > 0 {
      assert StoryboardSegments(clap)[0] in StoryboardSegments(clap);
    }
    if |VideoSegments(clap)| > 0 {
      assert VideoSegments(clap)[0] in VideoSegments(clap);
    }
  }

  /** `canUseStoryboards`: no video shot, but at least one storyboard. */
  predicate UsesStoryboards(clap: ClapProject) {
    |VideoSegments(clap)| == 0 && |StoryboardSegments(clap)| > 0
  }

  /** Storyboards are rendered at the project's size, which must not be
      zero. */
  predicate Renderable(clap: ClapProject) {
    UsesStoryboards(clap) ==> clap.meta.width > 0 && clap.meta.height > 0
  }

  function ConcatenatedVideosPath(dir: string): string {
    Join(dir, "tmp_asset_concatenated_videos.mp4")
  }

  function ConcatenatedAudioPath(dir: string): string {
    Join(dir, "tmp_asset_concatenated_audio.wav")
  }

  function FinalVideoPath(dir: string, format: string): string {
    Join(dir, "final_video." + format)
  }

  /** The volumes of the final mix: the videos at 0.85 and the music at
      0.15 when there is music, the videos alone at full volume otherwise. */
  function MixVolumes(withMusic: bool): (v: (real, real))
    ensures v.0 + v.1 == 1.0
    ensures v.1 < v.0
    ensures withMusic <==> v.1 > 0.0
    ensures withMusic ==> v == (0.85, 0.15)
    ensures !withMusic ==> v == (1.0, 0.0)
  {
    if withMusic then (0.85, 0.15) else (1.0, 0.0)
  }

  /** The shot files: every video shot when there is one, else every
      storyboard, else the "no video or storyboard" error. */
  function ShotFiles(h: Host, files: map<string, Blob>, dirs: set<string>, counter: nat, clap: ClapProject, dir: string)
    : Effect<ExportedShots>
    requires Renderable(clap)
  {
    if |VideoSegments(clap)| > 0 then WithVideos(h, files, dirs, counter, clap, VideoSegments(clap), dir)
    else if |StoryboardSegments(clap)| > 0 then WithStoryboards(h, files, dirs, counter, clap, StoryboardSegments(clap), dir)
    else Effect(files, dirs, counter, [], Err(NoMediaError))
  }

  method ExportShots(h: Host, clap: ClapProject, dir: string) returns (r: Result<ExportedShots>)
    requires Renderable(clap)
    modifies h
    ensures var e := ShotFiles(h, old(h.files), old(h.dirs), old(h.counter), clap, dir);
      && h.files == e.files && h.dirs == e.dirs && h.counter == e.counter
      && h.history == old(h.history) + e.events && r == e.result
  {
    var videoSegments := Filter(IsVideoShot, clap.segments);
    var storyboardSegments := Filter(IsStoryboardShot, clap.segments);
    var canUseVideos := |videoSegments| > 0;
    var canUseStoryboards := !canUseVideos && |storyboardSegments| > 0;
    if canUseVideos {
      r := ClapWithVideosToVideoFile.ClapWithVideosToVideoFile(h, clap, videoSegments, dir);
    } else if canUseStoryboards {
      r := ClapWithStoryboardsToVideoFile.ClapWithStoryboardsToVideoFile(h, clap, storyboardSegments, dir);
    } else {
      r := Err(NoMediaError);
    }
  }

  /** `tmp_asset_<id>.wav`, written with the segment's data URI. */
  function MusicWrite(dir: string, s: Segment): Written {
    Written(Join(dir, "tmp_asset_" + s.id + ".wav"), s.assetUrl)
  }

  /** The music files, one per music segment, in order. */
  function MusicWrites(dir: string, music: seq<Segment>): (ws: seq<Written>)
    ensures |ws| == |music|
  {
    if music == [] then [] else MusicWrites(dir, music[..|music| - 1]) + [MusicWrite(dir, music[|music| - 1])]
  }

  /** The j-th music file is the j-th music segment's. */
  lemma {:induction false} MusicWritesInOrder(dir: string, music: seq<Segment>, j: nat)
    requires j < |music|
    ensures MusicWrites(dir, music)[j] == MusicWrite(dir, music[j])
    decreases |music|
  {
    var n := |music| - 1;
    var init := music[..n];
    assert MusicWrites(dir, music) == MusicWrites(dir, init) + [MusicWrite(dir, music[n])];
    if j < n {
      MusicWritesInOrder(dir, init, j);
      assert init[j] == music[j];
    }
  }

  /** The `for (const segment of musicSegments)` loop. */
  method WriteMusic(h: Host, dir: string, music: seq<Segment>) returns (audioTracks: seq<string>)
    modifies h`files, h`history
    ensures audioTracks == PathsOf(MusicWrites(dir, music))
    ensures h.files == ApplyWrites(old(h.files), MusicWrites(dir, music))
    ensures h.history == old(h.history) + WritesOf(MusicWrites(dir, music))
  {
    audioTracks := [];
    for i := 0 to |music|
      invariant audioTracks == PathsOf(MusicWrites(dir, music[..i]))
      invariant h.files == ApplyWrites(old(h.files), MusicWrites(dir, music[..i]))
      invariant h.history == old(h.history) + WritesOf(MusicWrites(dir, music[..i]))
    {
      var w := MusicWrite(dir, music[i]);
      assert music[..i + 1][..i] == music[..i];
      assert MusicWrites(dir, music[..i + 1]) == MusicWrites(dir, music[..i]) + [w];
      PathsSnoc(MusicWrites(dir, music[..i]), w);
      WritesSnoc(MusicWrites(dir, music[..i]), w);
      ApplySnoc(old(h.files), MusicWrites(dir, music[..i]), w);
      h.WriteBase64(music[i].assetUrl, w.path);
      audioTracks := audioTracks + [w.path];
    }
    assert music[..|music|] == music;
  }

  /** `concatenateAudio` over the music files when there are any, with a
      two-second crossfade. */
  function Soundtrack(h: Host, files: map<string, Blob>, dirs: set<string>, counter: nat, dir: string, audioTracks: seq<string>)
    : Effect<Option<ConcatenateAudioOutput>>
  {
    if audioTracks == [] then Effect(files, dirs, counter, [], Ok(None))
    else
      var a := AudioConcatenation(h, files, dirs, counter, Some(ConcatenatedAudioPath(dir)), Given(audioTracks), [], 2, "wav");
      Effect(a.files, a.dirs, a.counter, a.events, if a.result.Err? then Err(a.result.error) else Ok(Some(a.result.value)))
  }

  method AddSoundtrack(h: Host, dir: string, audioTracks: seq<string>) returns (r: Result<Option<ConcatenateAudioOutput>>)
    modifies h
    ensures var e := Soundtrack(h, old(h.files), old(h.dirs), old(h.counter), dir, audioTracks);
      && h.files == e.files && h.dirs == e.dirs && h.counter == e.counter
      && h.history == old(h.history) + e.events && r == e.result
  {
    if |audioTracks| > 0 {
      var concatenatedAudio := ConcatenateAudio.ConcatenateAudio(h, output := Some(ConcatenatedAudioPath(dir)),
        audioTracks := Given(audioTracks), crossfadeDurationInSec := 2);
      r := if concatenatedAudio.Err? then Err(concatenatedAudio.error) else Ok(Some(concatenatedAudio.value));
    } else {
      r := Ok(None);
    }
  }

  /** `concatenateVideosWithAudio` over the concatenated shots, with the
      soundtrack when there is one, then the cleanup of every `tmp_asset_`
      file of the working directory when it is asked for. */
  function Mixdown(
    h: Host, files: map<string, Blob>, dirs: set<string>, counter: nat,
    dir: string, format: string, concatenated: string, audio: Option<ConcatenateAudioOutput>, clear: bool)
    : Effect<string>
  {
    var volumes := MixVolumes(audio.Some?);
    var m := Concatenation(h, files, dirs, counter, Some(FinalVideoPath(dir, format)), format, "",
      if audio.Some? then audio.value.filepath else "", [], [concatenated], volumes.0, volumes.1, false);
    if m.result.Err? || !clear then m
    else Effect(RemoveMatching(m.files, dir, h.lib.nameMatches, "tmp_asset_"), m.dirs, m.counter,
      m.events + [DeletedMatching(dir, "tmp_asset_")], m.result)
  }

  /** Unfolding helper for proofs: `Mixdown` is the mix, and then the
      cleanup when it is asked for. */
  lemma MixdownComposes(
    h: Host, files: map<string, Blob>, dirs: set<string>, counter: nat,
    dir: string, format: string, concatenated: string, audio: Option<ConcatenateAudioOutput>, clear: bool)
    ensures var volumes := MixVolumes(audio.Some?);
      var m := Concatenation(h, files, dirs, counter, Some(FinalVideoPath(dir, format)), format, "",
        if audio.Some? then audio.value.filepath else "", [], [concatenated], volumes.0, volumes.1, false);
      Mixdown(h, files, dirs, counter, dir, format, concatenated, audio, clear)
        == if m.result.Err? || !clear then m
           else Effect(RemoveMatching(m.files, dir, h.lib.nameMatches, "tmp_asset_"), m.dirs, m.counter,
             m.events + [DeletedMatching(dir, "tmp_asset_")], m.result)
  {
  }

  /** The final mix runs ffmpeg once over the concatenated shots and, when
      that passes, once more to lay the soundtrack over them at the volumes
      of `MixVolumes`, into `final_video.<format>`; it resolves exactly when
      both runs pass. */
  lemma MixdownCommands(
    h: Host, files: map<string, Blob>, dirs: set<string>, counter: nat,
    dir: string, format: string, concatenated: string, audio: Option<ConcatenateAudioOutput>, clear: bool)
    ensures var e := Mixdown(h, files, dirs, counter, dir, format, concatenated, audio, clear);
      var volumes := MixVolumes(audio.Some?);
      var mergeDir := Join(TmpDir, Token(counter + 1));
      var merged := Join(mergeDir, Token(counter + 2) + ".mp4");
      var mergeCmd := MergeCommand(KeepExisting(files, dirs + {Join(TmpDir, Token(counter))}, [concatenated]),
        merged, mergeDir);
      var mixCmd := FinalCommand(merged, if audio.Some? then audio.value.filepath else "",
        h.mediaInfo(Some(Rendered(mergeCmd))).hasAudio, MixGraph(h.lib, volumes.0, volumes.1),
        FinalVideoPath(dir, format));
      && |e.events| >= 2
      && e.events[0] == Ran(mergeCmd, h.engine(mergeCmd))
      && (h.engine(mergeCmd).Pass? ==> e.events[1] == Ran(mixCmd, h.engine(mixCmd)))
      && (e.result.Ok? <==> h.engine(mergeCmd).Pass? && h.engine(mixCmd).Pass?)
  {
    var volumes := MixVolumes(audio.Some?);
    var audioFilePath := if audio.Some? then audio.value.filepath else "";
    var out := Some(FinalVideoPath(dir, format));
    MixdownComposes(h, files, dirs, counter, dir, format, concatenated, audio, clear);
    ConcatenationCommands(h, files, dirs, counter, out, format, "", audioFilePath, [], [concatenated],
      volumes.0, volumes.1, false);
    PreparedWithoutTracks(h, files, dirs, counter, audioFilePath, [concatenated]);
  }

  method MixAndClear(
    h: Host, dir: string, format: string, concatenated: string, audio: Option<ConcatenateAudioOutput>, clear: bool)
    returns (r: Result<string>)
    modifies h
    ensures var e := Mixdown(h, old(h.files), old(h.dirs), old(h.counter), dir, format, concatenated, audio, clear);
      && h.files == e.files && h.dirs == e.dirs && h.counter == e.counter
      && h.history == old(h.history) + e.events && r == e.result
  {
    var volumes := MixVolumes(audio.Some?);
    var audioFilePath := if audio.Some? then audio.value.filepath else "";
    ghost var m := Concatenation(h, h.files, h.dirs, h.counter, Some(FinalVideoPath(dir, format)), format, "",
      audioFilePath, [], [concatenated], volumes.0, volumes.1, false);
    MixdownComposes(h, h.files, h.dirs, h.counter, dir, format, concatenated, audio, clear);
    r := ConcatenateVideosWithAudio.ConcatenateVideosWithAudio(h, output := Some(FinalVideoPath(dir, format)),
      format := format, audioFilePath := audioFilePath,
      videoFilePaths := [concatenated], videoTracksVolume := volumes.0, audioTrackVolume := volumes.1);
    assert h.history == old(h.history) + m.events && r == m.result;
    if r.Ok? && clear {
      h.DeleteFilesWithName(dir, "tmp_asset_");
      AppendAssoc(old(h.history), m.events, [DeletedMatching(dir, "tmp_asset_")]);
    }
  }

  /** After the music files are written: the soundtrack, then the mix. */
  function Scored(
    h: Host, files: map<string, Blob>, dirs: set<string>, counter: nat,
    dir: string, format: string, concatenated: string, audioTracks: seq<string>, clear: bool)
    : Effect<string>
  {
    var st := Soundtrack(h, files, dirs, counter, dir, audioTracks);
    if st.result.Err? then Effect(st.files, st.dirs, st.counter, st.events, Err(st.result.error))
    else
      var m := Mixdown(h, st.files, st.dirs, st.counter, dir, format, concatenated, st.result.value, clear);
      Effect(m.files, m.dirs, m.counter, st.events + m.events, m.result)
  }

  method Score(h: Host, dir: string, format: string, concatenated: string, audioTracks: seq<string>, clear: bool)
    returns (r: Result<string>)
    modifies h
    ensures var e := Scored(h, old(h.files), old(h.dirs), old(h.counter), dir, format, concatenated, audioTracks, clear);
      && h.files == e.files && h.dirs == e.dirs && h.counter == e.counter
      && h.history == old(h.history) + e.events && r == e.result
  {
    var concatenatedAudio := AddSoundtrack(h, dir, audioTracks);
    if concatenatedAudio.Err? {
      return Err(concatenatedAudio.error);
    }
    ghost var history1 := h.history;
    ghost var m := Mixdown(h, h.files, h.dirs, h.counter, dir, format, concatenated, concatenatedAudio.value, clear);
    r := MixAndClear(h, dir, format, concatenated, concatenatedAudio.value, clear);
    AppendAssoc(old(h.history), history1[|old(h.history)|..], m.events);
  }

  /** Once the shot files exist: their concatenation, the music files, the
      soundtrack and the mix. */
  function Finished(
    h: Host, files: map<string, Blob>, dirs: set<string>, counter: nat,
    clap: ClapProject, dir: string, format: string, videoFilePaths: seq<string>, clear: bool)
    : Effect<string>
  {
    var cv := Concatenated(h, files, dirs, counter, Given(videoFilePaths), Some(ConcatenatedVideosPath(dir)));
    if cv.result.Err? then Effect(cv.files, cv.dirs, cv.counter, cv.events, Err(cv.result.error))
    else
      var ws := MusicWrites(dir, MusicSegments(clap));
      var s := Scored(h, ApplyWrites(cv.files, ws), cv.dirs, cv.counter, dir, format, cv.result.value.filepath,
        PathsOf(ws), clear);
      Effect(s.files, s.dirs, s.counter, cv.events + WritesOf(ws) + s.events, s.result)
  }

  method Finish(h: Host, clap: ClapProject, dir: string, format: string, videoFilePaths: seq<string>, clear: bool)
    returns (r: Result<string>)
    modifies h
    ensures var e := Finished(h, old(h.files), old(h.dirs), old(h.counter), clap, dir, format, videoFilePaths, clear);
      && h.files == e.files && h.dirs == e.dirs && h.counter == e.counter
      && h.history == old(h.history) + e.events && r == e.result
  {
    var concatenatedVideosNoMusic := ConcatenateVideos.ConcatenateVideos(h, Given(videoFilePaths),
      Some(ConcatenatedVideosPath(dir)));
    if concatenatedVideosNoMusic.Err? {
      return Err(concatenatedVideosNoMusic.error);
    }
    ghost var history1 := h.history;
    var musicSegments := Filter(IsMusic, clap.segments);
    var audioTracks := WriteMusic(h, dir, musicSegments);
    ghost var history2 := h.history;
    ghost var s := Scored(h, h.files, h.dirs, h.counter, dir, format, concatenatedVideosNoMusic.value.filepath,
      audioTracks, clear);
    r := Score(h, dir, format, concatenatedVideosNoMusic.value.filepath, audioTracks, clear);
    AppendRegroup(old(h.history), history1[|old(h.history)|..], history2[|history1|..], s.events);
  }

  /** `clapToTmpVideoFilePath` started from a state with the given files,
      directories and counter. */
  function Export(
    h: Host, files: map<string, Blob>, dirs: set<string>, counter: nat,
    clap: ClapProject, format: string, outputDir: string, clearTmpFilesAtEnd: bool)
    : Effect<TmpVideo>
    requires Renderable(clap)
  {
    var dir := WorkDirectory(outputDir, counter);
    var shots := ShotFiles(h, files, if outputDir == "" then dirs + {dir} else dirs,
      if outputDir == "" then counter + 1 else counter, clap, dir);
    AfterShots(h, shots, clap, dir, NormalisedFormat(format), clearTmpFilesAtEnd)
  }

  /** What follows the shot files: nothing more when they failed, else the
      rest of the export in the working directory. */
  function AfterShots(h: Host, shots: Effect<ExportedShots>, clap: ClapProject, dir: string, format: string, clear: bool)
    : Effect<TmpVideo>
  {
    if shots.result.Err? then Effect(shots.files, shots.dirs, shots.counter, shots.events, Err(shots.result.error))
    else
      var f := Finished(h, shots.files, shots.dirs, shots.counter, clap, dir, format,
        shots.result.value.videoFilePaths, clear);
      Effect(f.files, f.dirs, f.counter, shots.events + f.events,
        if f.result.Err? then Err(f.result.error) else Ok(TmpVideo(dir, f.result.value)))
  }

  method ClapToTmpVideoFilePath(
    h: Host, clap: ClapProject, format: string := DefaultExportFormat, outputDir: string := "",
    clearTmpFilesAtEnd: bool := false)
    returns (r: Result<TmpVideo>)
    requires Renderable(clap)
    modifies h
    ensures var e := Export(h, old(h.files), old(h.dirs), old(h.counter), clap, format, outputDir, clearTmpFilesAtEnd);
      && h.files == e.files && h.dirs == e.dirs && h.counter == e.counter
      && h.history == old(h.history) + e.events && r == e.result
  {
    var fmt := NormalisedFormat(format);
    var dir := ChooseWorkDirectory(h, outputDir);
    ghost var history1 := h.history;
    var shots := ExportShots(h, clap, dir);
    if shots.Err? {
      return Err(shots.error);
    }
    ghost var history2 := h.history;
    ghost var f := Finished(h, h.files, h.dirs, h.counter, clap, dir, fmt, shots.value.videoFilePaths, clearTmpFilesAtEnd);
    var finalFilePathOfVideoWithMusic := Finish(h, clap, dir, fmt, shots.value.videoFilePaths, clearTmpFilesAtEnd);
    AppendAssoc(old(h.history), history2[|old(h.history)|..], f.events);
    r := if finalFilePathOfVideoWithMusic.Err? then Err(finalFilePathOfVideoWithMusic.error)
      else Ok(TmpVideo(dir, finalFilePathOfVideoWithMusic.value));
  }

  /** A project with neither a video shot nor a storyboard is refused once
      the working directory is chosen, before anything is written. */
  lemma ExportWithoutMedia(
    h: Host, files: map<string, Blob>, dirs: set<string>, counter: nat,
    clap: ClapProject, format: string, outputDir: string, clearTmpFilesAtEnd: bool)
    requires |VideoSegments(clap)| == 0 && |StoryboardSegments(clap)| == 0
    ensures var e := Export(h, files, dirs, counter, clap, format, outputDir, clearTmpFilesAtEnd);
      && e.result == Err(NoMediaError) && e.events == [] && e.files == files
      && e.dirs == (if outputDir == "" then dirs + {WorkDirectory(outputDir, counter)} else dirs)
  {
  }

  /** With at least one video shot, storyboards are ignored: one shot file
      per video segment, in their order, named after its caption and
      dialogue. */
  lemma ShotFilesFromVideos(h: Host, files: map<string, Blob>, dirs: set<string>, counter: nat, clap: ClapProject, dir: string)
    requires |VideoSegments(clap)| > 0 && dir != ""
    ensures var e := ShotFiles(h, files, dirs, counter, clap, dir);
      var shots := VideoSegments(clap);
      e.result.Ok? ==>
        && e.result.value.outputDir == dir
        && |e.result.value.videoFilePaths| == |shots|
        && forall k :: 0 <= k < |shots| ==>
             e.result.value.videoFilePaths[k] == FinalPath(dir, shots[k].id,
               VideoSegmentToVideoFile.AssetPath(h.lib, dir, shots[k]),
               VideoSegmentToVideoFile.CaptionOf(h.lib, clap, shots[k]).Some?,
               VideoSegmentToVideoFile.DialogueOf(h.lib, clap, shots[k]).Some?)
  {
    WithVideosPaths(h, files, dirs, counter, clap, VideoSegments(clap), dir);
  }

  /** Without a video shot, each storyboard becomes a shot file, in their
      order, named after its caption and dialogue. */
  lemma ShotFilesFromStoryboards(h: Host, files: map<string, Blob>, dirs: set<string>, counter: nat, clap: ClapProject, dir: string)
    requires UsesStoryboards(clap) && clap.meta.width > 0 && clap.meta.height > 0 && dir != ""
    ensures var e := ShotFiles(h, files, dirs, counter, clap, dir);
      var shots := StoryboardSegments(clap);
      e.result.Ok? ==>
        && e.result.value.outputDir == dir
        && |e.result.value.videoFilePaths| == |shots|
        && forall k :: 0 <= k < |shots| ==>
             e.result.value.videoFilePaths[k] == FinalPath(dir, shots[k].id,
               StoryboardSegmentToVideoFile.AsVideoPath(dir, shots[k].id),
               StoryboardSegmentToVideoFile.CaptionOf(h.lib, clap, shots[k]).Some?,
               StoryboardSegmentToVideoFile.DialogueOf(h.lib, clap, shots[k]).Some?)
  {
    WithStoryboardsPaths(h, files, dirs, counter, clap, StoryboardSegments(clap), dir);
  }

  /** The shot files are concatenated first, the ones that exist in their
      order, into `tmp_asset_concatenated_videos.mp4`; when that fails
      nothing else happens. */
  lemma FinishedConcatenatesShots(
    h: Host, files: map<string, Blob>, dirs: set<string>, counter: nat,
    clap: ClapProject, dir: string, format: string, videoFilePaths: seq<string>, clear: bool)
    ensures var e := Finished(h, files, dirs, counter, clap, dir, format, videoFilePaths, clear);
      && |e.events| >= 1 && e.events[0].Ran?
      && e.events[0].cmd.inputs == KeepExisting(files, dirs, videoFilePaths)
      && e.events[0].cmd.sink.path == ConcatenatedVideosPath(dir)
      && (e.events[0].outcome.Fail? ==> e.result.Err? && |e.events| == 1)
  {
    var out := Some(ConcatenatedVideosPath(dir));
    assert Truthy(out) by {
      assert |"tmp_asset_concatenated_videos.mp4"| > 0;
    }
    ConcatenatedMergesExisting(h, files, dirs, counter, Given(videoFilePaths), out);
  }

  /** After the concatenation, one music file is written per music
      segment, in their order: `tmp_asset_<id>.wav` with the segment's data
      URI. */
  lemma FinishedWritesMusic(
    h: Host, files: map<string, Blob>, dirs: set<string>, counter: nat,
    clap: ClapProject, dir: string, format: string, videoFilePaths: seq<string>, clear: bool)
    requires Concatenated(h, files, dirs, counter, Given(videoFilePaths), Some(ConcatenatedVideosPath(dir))).result.Ok?
    ensures var e := Finished(h, files, dirs, counter, clap, dir, format, videoFilePaths, clear);
      var music := MusicSegments(clap);
      && |e.events| >= 1 + |music|
      && forall j :: 0 <= j < |music| ==>
           e.events[1 + j] == Wrote(Join(dir, "tmp_asset_" + music[j].id + ".wav"), Base64Text(music[j].assetUrl))
  {
    var cv := Concatenated(h, files, dirs, counter, Given(videoFilePaths), Some(ConcatenatedVideosPath(dir)));
    var music := MusicSegments(clap);
    var ws := MusicWrites(dir, music);
    var e := Finished(h, files, dirs, counter, clap, dir, format, videoFilePaths, clear);
    assert |cv.events| == 1;
    var sc := Scored(h, ApplyWrites(cv.files, ws), cv.dirs, cv.counter, dir, format, cv.result.value.filepath,
      PathsOf(ws), clear);
    assert e.events == cv.events + WritesOf(ws) + sc.events;
    forall j | 0 <= j < |music|
      ensures e.events[1 + j] == Wrote(Join(dir, "tmp_asset_" + music[j].id + ".wav"), Base64Text(music[j].assetUrl))
    {
      MusicEventAt(cv.events, dir, music, sc.events, j);
    }
  }

  /** Proof helper: after one event, the j-th music write is event 1 + j. */
  lemma MusicEventAt(first: seq<Event>, dir: string, music: seq<Segment>, rest: seq<Event>, j: nat)
    requires |first| == 1 && j < |music|
    ensures (first + WritesOf(MusicWrites(dir, music)) + rest)[1 + j]
      == Wrote(Join(dir, "tmp_asset_" + music[j].id + ".wav"), Base64Text(music[j].assetUrl))
  {
    var ws := MusicWrites(dir, music);
    MusicWritesInOrder(dir, music, j);
    WritesOfAt(ws, j);
    assert (first + WritesOf(ws))[1 + j] == WritesOf(ws)[j];
  }

  /** A single music file is handed over as the only track: it is written
      to `audio_0.wav` as its path with a wav header, and returned. */
  lemma SingleMusicSoundtrack(h: Host, files: map<string, Blob>, dirs: set<string>, counter: nat, dir: string, music: seq<Segment>)
    requires |music| == 1
    ensures var e := Soundtrack(h, files, dirs, counter, dir, PathsOf(MusicWrites(dir, music)));
      && |e.events| >= 1
      && e.events[0] == Wrote(Join(Join(TmpDir, Token(counter)), "audio_0.wav"),
           Base64Text(h.lib.addBase64Header(MusicWrite(dir, music[0]).path, "wav")))
  {
    var ws := MusicWrites(dir, music);
    var first := MusicWrite(dir, music[0]).path;
    assert ws == [MusicWrite(dir, music[0])];
    assert PathsOf(ws) == [first];
    assert first != "" by {
      assert |"tmp_asset_" + music[0].id + ".wav"| > 0;
    }
    SingleTrackIgnoresOutput(h, files, dirs, counter, Some(ConcatenatedAudioPath(dir)), first, [], 2, "wav");
  }

  /** Several music files are handed over as tracks: the first is written
      to `audio_1.wav` as its path with a wav header. */
  lemma MixedMusicSoundtrack(h: Host, files: map<string, Blob>, dirs: set<string>, counter: nat, dir: string, music: seq<Segment>)
    requires |music| > 1
    ensures var e := Soundtrack(h, files, dirs, counter, dir, PathsOf(MusicWrites(dir, music)));
      && |e.events| >= 1
      && e.events[0] == Wrote(Join(Join(TmpDir, Token(counter)), "audio_" + NatToString(1) + ".wav"),
           Base64Text(h.lib.addBase64Header(MusicWrite(dir, music[0]).path, "wav")))
  {
    var ws := MusicWrites(dir, music);
    MusicWritesInOrder(dir, music, 0);
    PathsOfAt(ws, 0);
    var first := MusicWrite(dir, music[0]).path;
    assert first != "" by {
      assert |"tmp_asset_" + music[0].id + ".wav"| > 0;
    }
    assert !IsSingleTrack(PathsOf(ws));
    MixedTracksWriteFirstTrack(h, files, dirs, counter, Some(ConcatenatedAudioPath(dir)), PathsOf(ws), 2, "wav");
  }

  /** `concatenateAudio` runs only when there is music; and it is handed
      the paths of the music files as its base64 `audioTracks`, so the
      first track file it writes holds the first music file's path, with a
      wav header, and not the music. */
  lemma SoundtrackFromTrackPaths(h: Host, files: map<string, Blob>, dirs: set<string>, counter: nat, dir: string, music: seq<Segment>)
    ensures var tracks := PathsOf(MusicWrites(dir, music));
      var e := Soundtrack(h, files, dirs, counter, dir, tracks);
      && (music == [] ==> e == Effect(files, dirs, counter, [], Ok(None)))
      && (music != [] ==>
            && |e.events| >= 1 && e.events[0].Wrote?
            && e.events[0].blob == Base64Text(h.lib.addBase64Header(MusicWrite(dir, music[0]).path, "wav")))
  {
    if |music| == 1 {
      SingleMusicSoundtrack(h, files, dirs, counter, dir, music);
    } else if |music| > 1 {
      MixedMusicSoundtrack(h, files, dirs, counter, dir, music);
    }
  }

  /** How a successful export ends: with `final_video.<format>` in the
      working directory, then, when asked for, the deletion of every
      `tmp_asset_` file of that directory, which leaves none behind;
      otherwise with the mix's own cleanup of its temporary inputs. */
  predicate EndsWithMix(lib: Library, e: Effect<string>, dir: string, format: string, clear: bool) {
    e.result.Ok? ==>
      && e.result.value == FinalVideoPath(dir, format)
      && |e.events| > 0
      && (clear ==>
            && e.events[|e.events| - 1] == DeletedMatching(dir, "tmp_asset_")
            && forall p :: p in e.files ==> !(InDirectory(p, dir) && lib.nameMatches(BaseName(p), "tmp_asset_")))
      && (!clear ==> e.events[|e.events| - 1].RemovedFiles?)
  }

  lemma MixdownEndsWithMix(
    h: Host, files: map<string, Blob>, dirs: set<string>, counter: nat,
    dir: string, format: string, concatenated: string, audio: Option<ConcatenateAudioOutput>, clear: bool)
    ensures var e := Mixdown(h, files, dirs, counter, dir, format, concatenated, audio, clear);
      && EndsWithMix(h.lib, e, dir, format, clear)
      && (e.result.Err? ==> StartsWith(e.result.error, AssemblyPrefix))
  {
    var volumes := MixVolumes(audio.Some?);
    var out := Some(FinalVideoPath(dir, format));
    assert Truthy(out) by {
      assert |"final_video." + format| > 0;
    }
    ConcatenationResolvesWithOutput(h, files, dirs, counter, out, format, "",
      if audio.Some? then audio.value.filepath else "", [], [concatenated], volumes.0, volumes.1);
    MixdownComposes(h, files, dirs, counter, dir, format, concatenated, audio, clear);
  }

  lemma ScoredEndsWithMix(
    h: Host, files: map<string, Blob>, dirs: set<string>, counter: nat,
    dir: string, format: string, concatenated: string, audioTracks: seq<string>, clear: bool)
    ensures EndsWithMix(h.lib, Scored(h, files, dirs, counter, dir, format, concatenated, audioTracks, clear), dir, format, clear)
  {
    var st := Soundtrack(h, files, dirs, counter, dir, audioTracks);
    if st.result.Ok? {
      MixdownEndsWithMix(h, st.files, st.dirs, st.counter, dir, format, concatenated, st.result.value, clear);
    }
  }

  lemma FinishedEndsWithMix(
    h: Host, files: map<string, Blob>, dirs: set<string>, counter: nat,
    clap: ClapProject, dir: string, format: string, videoFilePaths: seq<string>, clear: bool)
    ensures EndsWithMix(h.lib, Finished(h, files, dirs, counter, clap, dir, format, videoFilePaths, clear), dir, format, clear)
  {
    var cv := Concatenated(h, files, dirs, counter, Given(videoFilePaths), Some(ConcatenatedVideosPath(dir)));
    if cv.result.Ok? {
      var ws := MusicWrites(dir, MusicSegments(clap));
      ScoredEndsWithMix(h, ApplyWrites(cv.files, ws), cv.dirs, cv.counter, dir, format, cv.result.value.filepath,
        PathsOf(ws), clear);
    }
  }

  /** How a successful export ends: with the working directory and
      `final_video.<format>` in it, then, when asked for, the deletion of
      every `tmp_asset_` file of that directory, which leaves none behind;
      otherwise with the mix's own cleanup of its temporary inputs. */
  predicate ExportEndsWithMix(lib: Library, e: Effect<TmpVideo>, dir: string, format: string, clear: bool) {
    e.result.Ok? ==>
      && e.result.value == TmpVideo(dir, FinalVideoPath(dir, format))
      && |e.events| > 0
      && (clear ==>
            && e.events[|e.events| - 1] == DeletedMatching(dir, "tmp_asset_")
            && forall p :: p in e.files ==> !(InDirectory(p, dir) && lib.nameMatches(BaseName(p), "tmp_asset_")))
      && (!clear ==> e.events[|e.events| - 1].RemovedFiles?)
  }

  lemma AfterShotsEndsWithMix(h: Host, shots: Effect<ExportedShots>, clap: ClapProject, dir: string, format: string,
    clear: bool)
    ensures ExportEndsWithMix(h.lib, AfterShots(h, shots, clap, dir, format, clear), dir, format, clear)
  {
    if shots.result.Ok? {
      var f := Finished(h, shots.files, shots.dirs, shots.counter, clap, dir, format, shots.result.value.videoFilePaths, clear);
      FinishedEndsWithMix(h, shots.files, shots.dirs, shots.counter, clap, dir, format, shots.result.value.videoFilePaths, clear);
      var e := AfterShots(h, shots, clap, dir, format, clear);
      if e.result.Ok? {
        assert e.events[|e.events| - 1] == f.events[|f.events| - 1];
      }
    }
  }

  /** A successful export resolves with the working directory (the given
      one, or a fresh one when it is empty) and `final_video.<format>` in
      it, the format being mp4 unless webm was asked for, and ends as
      `ExportEndsWithMix` says; the `tmp_asset_` sweep is the only deletion
      by name, and there is none unless clearing was asked for; without
      clearing, the final video is left in place. */
  lemma ExportResult(
    h: Host, files: map<string, Blob>, dirs: set<string>, counter: nat,
    clap: ClapProject, format: string, outputDir: string, clearTmpFilesAtEnd: bool)
    requires Renderable(clap)
    ensures ExportEndsWithMix(h.lib, Export(h, files, dirs, counter, clap, format, outputDir, clearTmpFilesAtEnd),
      WorkDirectory(outputDir, counter), NormalisedFormat(format), clearTmpFilesAtEnd)
    ensures SweepsOnlyAtEnd(Export(h, files, dirs, counter, clap, format, outputDir, clearTmpFilesAtEnd),
      clearTmpFilesAtEnd)
    ensures var e := Export(h, files, dirs, counter, clap, format, outputDir, clearTmpFilesAtEnd);
      !clearTmpFilesAtEnd ==>
        && (forall i :: 0 <= i < |e.events| ==> !e.events[i].DeletedMatching?)
        && (e.result.Ok? ==> FinalVideoPath(WorkDirectory(outputDir, counter), NormalisedFormat(format)) in e.files)
  {
    ExportSweepsOnlyAtEnd(h, files, dirs, counter, clap, format, outputDir, clearTmpFilesAtEnd);
    ExportKeepsFinalVideo(h, files, dirs, counter, clap, format, outputDir, clearTmpFilesAtEnd);
    var dir := WorkDirectory(outputDir, counter);
    var shots := ShotFiles(h, files, if outputDir == "" then dirs + {dir} else dirs,
      if outputDir == "" then counter + 1 else counter, clap, dir);
    AfterShotsEndsWithMix(h, shots, clap, dir, NormalisedFormat(format), clearTmpFilesAtEnd);
  }

  /** The only deletion by name pattern is the final sweep of `tmp_asset_`
      files: it is the last event, and there is one only when clearing was
      asked for and everything before it succeeded. */
  predicate SweepsOnlyAtEnd<T>(e: Effect<T>, clear: bool) {
    && (e.result.Ok? && clear ==> |e.events| > 0 && NoSweep(e.events[..|e.events| - 1]))
    && (!(e.result.Ok? && clear) ==> NoSweep(e.events))
  }

  /** Proof helper: events without a sweep before an effect that sweeps only
      at its end, with the same success, give an effect that does too. */
  lemma SweepsOnlyAtEndAfter<T, U>(a: seq<Event>, e: Effect<T>, f: Effect<U>, clear: bool)
    requires NoSweep(a) && SweepsOnlyAtEnd(e, clear)
    requires f.events == a + e.events && (f.result.Ok? <==> e.result.Ok?)
    ensures SweepsOnlyAtEnd(f, clear)
  {
    if e.result.Ok? && clear {
      assert f.events[..|f.events| - 1] == a + e.events[..|e.events| - 1];
      NoSweepAppend(a, e.events[..|e.events| - 1]);
    } else {
      NoSweepAppend(a, e.events);
    }
  }

  /** Making the shot files deletes nothing by name. */
  lemma ShotFilesNoSweep(h: Host, files: map<string, Blob>, dirs: set<string>, counter: nat, clap: ClapProject, dir: string)
    requires Renderable(clap)
    ensures NoSweep(ShotFiles(h, files, dirs, counter, clap, dir).events)
  {
    if |VideoSegments(clap)| > 0 {
      WithVideosNoSweep(h, files, dirs, counter, clap, VideoSegments(clap), dir);
    } else if |StoryboardSegments(clap)| > 0 {
      WithStoryboardsNoSweep(h, files, dirs, counter, clap, StoryboardSegments(clap), dir);
    }
  }

  /** The soundtrack deletes nothing by name. */
  lemma SoundtrackNoSweep(h: Host, files: map<string, Blob>, dirs: set<string>, counter: nat, dir: string, audioTracks: seq<string>)
    ensures NoSweep(Soundtrack(h, files, dirs, counter, dir, audioTracks).events)
  {
    if audioTracks != [] {
      AudioConcatenationNoSweep(h, files, dirs, counter, Some(ConcatenatedAudioPath(dir)), Given(audioTracks), [], 2, "wav");
    }
  }

  /** The mixdown sweeps `tmp_asset_` only after a successful mix when
      clearing, as its last event. */
  lemma MixdownSweepsOnlyAtEnd(
    h: Host, files: map<string, Blob>, dirs: set<string>, counter: nat,
    dir: string, format: string, concatenated: string, audio: Option<ConcatenateAudioOutput>, clear: bool)
    ensures SweepsOnlyAtEnd(Mixdown(h, files, dirs, counter, dir, format, concatenated, audio, clear), clear)
  {
    var volumes := MixVolumes(audio.Some?);
    var m := Concatenation(h, files, dirs, counter, Some(FinalVideoPath(dir, format)), format, "",
      if audio.Some? then audio.value.filepath else "", [], [concatenated], volumes.0, volumes.1, false);
    ConcatenationNoSweep(h, files, dirs, counter, Some(FinalVideoPath(dir, format)), format, "",
      if audio.Some? then audio.value.filepath else "", [], [concatenated], volumes.0, volumes.1, false);
    var e := Mixdown(h, files, dirs, counter, dir, format, concatenated, audio, clear);
    if m.result.Ok? && clear {
      assert e.events[..|e.events| - 1] == m.events;
    }
  }

  /** The same holds once the soundtrack step comes first. */
  lemma ScoredSweepsOnlyAtEnd(
    h: Host, files: map<string, Blob>, dirs: set<string>, counter: nat,
    dir: string, format: string, concatenated: string, audioTracks: seq<string>, clear: bool)
    ensures SweepsOnlyAtEnd(Scored(h, files, dirs, counter, dir, format, concatenated, audioTracks, clear), clear)
  {
    var st := Soundtrack(h, files, dirs, counter, dir, audioTracks);
    SoundtrackNoSweep(h, files, dirs, counter, dir, audioTracks);
    if st.result.Ok? {
      var m := Mixdown(h, st.files, st.dirs, st.counter, dir, format, concatenated, st.result.value, clear);
      MixdownSweepsOnlyAtEnd(h, st.files, st.dirs, st.counter, dir, format, concatenated, st.result.value, clear);
      SweepsOnlyAtEndAfter(st.events, m, Scored(h, files, dirs, counter, dir, format, concatenated, audioTracks, clear),
        clear);
    }
  }

  /** The same holds for the whole tail of the export. */
  lemma FinishedSweepsOnlyAtEnd(
    h: Host, files: map<string, Blob>, dirs: set<string>, counter: nat,
    clap: ClapProject, dir: string, format: string, videoFilePaths: seq<string>, clear: bool)
    ensures SweepsOnlyAtEnd(Finished(h, files, dirs, counter, clap, dir, format, videoFilePaths, clear), clear)
  {
    var cv := Concatenated(h, files, dirs, counter, Given(videoFilePaths), Some(ConcatenatedVideosPath(dir)));
    ConcatenatedNoSweep(h, files, dirs, counter, Given(videoFilePaths), Some(ConcatenatedVideosPath(dir)));
    if cv.result.Ok? {
      var ws := MusicWrites(dir, MusicSegments(clap));
      var s := Scored(h, ApplyWrites(cv.files, ws), cv.dirs, cv.counter, dir, format, cv.result.value.filepath,
        PathsOf(ws), clear);
      ScoredSweepsOnlyAtEnd(h, ApplyWrites(cv.files, ws), cv.dirs, cv.counter, dir, format, cv.result.value.filepath,
        PathsOf(ws), clear);
      WritesOfNoSweep(ws);
      NoSweepAppend(cv.events, WritesOf(ws));
      SweepsOnlyAtEndAfter(cv.events + WritesOf(ws), s,
        Finished(h, files, dirs, counter, clap, dir, format, videoFilePaths, clear), clear);
    }
  }

  /** Apart from the final sweep when clearing, the export deletes nothing
      by name: the shot exporters, the concatenations and the mix delete
      only the paths they made. */
  lemma ExportSweepsOnlyAtEnd(
    h: Host, files: map<string, Blob>, dirs: set<string>, counter: nat,
    clap: ClapProject, format: string, outputDir: string, clearTmpFilesAtEnd: bool)
    requires Renderable(clap)
    ensures SweepsOnlyAtEnd(Export(h, files, dirs, counter, clap, format, outputDir, clearTmpFilesAtEnd),
      clearTmpFilesAtEnd)
  {
    var dir := WorkDirectory(outputDir, counter);
    var shots := ShotFiles(h, files, if outputDir == "" then dirs + {dir} else dirs,
      if outputDir == "" then counter + 1 else counter, clap, dir);
    ShotFilesNoSweep(h, files, if outputDir == "" then dirs + {dir} else dirs,
      if outputDir == "" then counter + 1 else counter, clap, dir);
    if shots.result.Ok? {
      var fmt := NormalisedFormat(format);
      var f := Finished(h, shots.files, shots.dirs, shots.counter, clap, dir, fmt,
        shots.result.value.videoFilePaths, clearTmpFilesAtEnd);
      FinishedSweepsOnlyAtEnd(h, shots.files, shots.dirs, shots.counter, clap, dir, fmt,
        shots.result.value.videoFilePaths, clearTmpFilesAtEnd);
      SweepsOnlyAtEndAfter(shots.events, f, Export(h, files, dirs, counter, clap, format, outputDir, clearTmpFilesAtEnd),
        clearTmpFilesAtEnd);
    }
  }

  /** The soundtrack is `tmp_asset_concatenated_audio.wav` in the working
      directory, except for a single music file, which `concatenateAudio`
      returns as `audio_0.wav` in its own fresh directory. */
  lemma SoundtrackPath(h: Host, files: map<string, Blob>, dirs: set<string>, counter: nat, dir: string, audioTracks: seq<string>)
    ensures var st := Soundtrack(h, files, dirs, counter, dir, audioTracks);
      st.result.Ok? && st.result.value.Some? ==>
        || st.result.value.value.filepath == ConcatenatedAudioPath(dir)
        || st.result.value.value.filepath == Join(Join(TmpDir, Token(counter)), "audio_0.wav")
  {
    if audioTracks != [] && !IsSingleTrack(audioTracks) {
      var tempDir := Join(TmpDir, Token(counter));
      var m := MixedTracks(h, files, dirs + {tempDir}, counter + 1, tempDir, audioTracks, [], 2, "wav",
        Some(ConcatenatedAudioPath(dir)));
      assert m.result.Ok? ==> m.result.value.filepath == ConcatenatedAudioPath(dir);
    }
  }

  /** `final_video.<format>` differs from the other files the mix removes. */
  lemma FinalVideoPathDistinct(dir: string, format: string, k: nat)
    requires '/' !in format
    ensures FinalVideoPath(dir, format) != ConcatenatedVideosPath(dir)
    ensures FinalVideoPath(dir, format) != ConcatenatedAudioPath(dir)
    ensures FinalVideoPath(dir, format) != Join(Join(TmpDir, Token(k)), "audio_0.wav")
    ensures FinalVideoPath(dir, format) != ""
  {
    var name := "final_video." + format;
    assert name[0] == 'f';
    JoinSameDirectory(dir, name, "tmp_asset_concatenated_videos.mp4");
    JoinSameDirectory(dir, name, "tmp_asset_concatenated_audio.wav");
    assert '/' !in name by {
      forall j | 0 <= j < |name| ensures name[j] != '/' {
        if j >= 12 {
          assert name[j] == format[j - 12];
        }
      }
    }
    JoinDistinctNames(dir, name, Join(TmpDir, Token(k)), "audio_0.wav");
    assert |Join(dir, name)| >= |name|;
  }

  /** Without clearing, a successful mixdown leaves `final_video.<format>`
      when it is none of the mix's inputs. */
  lemma MixdownKeepsFinalVideo(
    h: Host, files: map<string, Blob>, dirs: set<string>, counter: nat,
    dir: string, format: string, concatenated: string, audio: Option<ConcatenateAudioOutput>, clear: bool)
    requires concatenated != FinalVideoPath(dir, format) && FinalVideoPath(dir, format) != ""
    requires audio.Some? ==> audio.value.filepath != FinalVideoPath(dir, format)
    ensures var e := Mixdown(h, files, dirs, counter, dir, format, concatenated, audio, clear);
      e.result.Ok? && !clear ==> FinalVideoPath(dir, format) in e.files
  {
    var volumes := MixVolumes(audio.Some?);
    var out := Some(FinalVideoPath(dir, format));
    assert Truthy(out);
    ConcatenationKeepsOutput(h, files, dirs, counter, out, format, "",
      if audio.Some? then audio.value.filepath else "", [], [concatenated], volumes.0, volumes.1, false);
  }

  /** The same holds after the soundtrack step, whose file is never the
      final video. */
  lemma ScoredKeepsFinalVideo(
    h: Host, files: map<string, Blob>, dirs: set<string>, counter: nat,
    dir: string, format: string, concatenated: string, audioTracks: seq<string>, clear: bool)
    requires '/' !in format && concatenated == ConcatenatedVideosPath(dir)
    ensures var e := Scored(h, files, dirs, counter, dir, format, concatenated, audioTracks, clear);
      e.result.Ok? && !clear ==> FinalVideoPath(dir, format) in e.files
  {
    var st := Soundtrack(h, files, dirs, counter, dir, audioTracks);
    if st.result.Ok? {
      SoundtrackPath(h, files, dirs, counter, dir, audioTracks);
      FinalVideoPathDistinct(dir, format, counter);
      MixdownKeepsFinalVideo(h, st.files, st.dirs, st.counter, dir, format, concatenated, st.result.value, clear);
    }
  }

  /** The same holds for the whole tail of the export. */
  lemma FinishedKeepsFinalVideo(
    h: Host, files: map<string, Blob>, dirs: set<string>, counter: nat,
    clap: ClapProject, dir: string, format: string, videoFilePaths: seq<string>, clear: bool)
    requires '/' !in format
    ensures var e := Finished(h, files, dirs, counter, clap, dir, format, videoFilePaths, clear);
      e.result.Ok? && !clear ==> FinalVideoPath(dir, format) in e.files
  {
    var out := Some(ConcatenatedVideosPath(dir));
    assert Truthy(out) by {
      assert |"tmp_asset_concatenated_videos.mp4"| > 0;
    }
    var cv := Concatenated(h, files, dirs, counter, Given(videoFilePaths), out);
    ConcatenatedMergesExisting(h, files, dirs, counter, Given(videoFilePaths), out);
    if cv.result.Ok? {
      var ws := MusicWrites(dir, MusicSegments(clap));
      ScoredKeepsFinalVideo(h, ApplyWrites(cv.files, ws), cv.dirs, cv.counter, dir, format, cv.result.value.filepath,
        PathsOf(ws), clear);
    }
  }

  /** Without clearing, a successful export leaves `final_video.<format>`
      in the working directory: the mix's cleanup removes only its inputs,
      the concatenated shots and the soundtrack. */
  lemma ExportKeepsFinalVideo(
    h: Host, files: map<string, Blob>, dirs: set<string>, counter: nat,
    clap: ClapProject, format: string, outputDir: string, clearTmpFilesAtEnd: bool)
    requires Renderable(clap)
    ensures var e := Export(h, files, dirs, counter, clap, format, outputDir, clearTmpFilesAtEnd);
      e.result.Ok? && !clearTmpFilesAtEnd ==>
        FinalVideoPath(WorkDirectory(outputDir, counter), NormalisedFormat(format)) in e.files
  {
    var dir := WorkDirectory(outputDir, counter);
    var fmt := NormalisedFormat(format);
    var shots := ShotFiles(h, files, if outputDir == "" then dirs + {dir} else dirs,
      if outputDir == "" then counter + 1 else counter, clap, dir);
    if shots.result.Ok? {
      FinishedKeepsFinalVideo(h, shots.files, shots.dirs, shots.counter, clap, dir, fmt,
        shots.result.value.videoFilePaths, clearTmpFilesAtEnd);
    }
  }
}
