/** `clapWithVideosToVideoFile`: every video shot of a project exported
    into one working directory. */
module ClapWithVideosToVideoFile {
  import opened Wrappers
  import opened Seqs
  import opened Clap
  import opened Host
  import opened ShotSteps
  import opened VideoSegmentToVideoFile

  /** `segment => videoSegmentToVideoFile({ clap, segment, outputDir })` */
  function VideoStep(h: Host, clap: ClapProject, outputDir: string)
    : (map<string, Blob>, set<string>, nat, Segment) -> Effect<string>
  {
    (f: map<string, Blob>, d: set<string>, c: nat, s: Segment) => VideoShot(h, f, d, c, clap, s, outputDir)
  }

  /** Every shot exported, in order, into the chosen directory. */
  function Runs(
    h: Host, files: map<string, Blob>, dirs: set<string>, counter: nat,
    clap: ClapProject, videoSegments: seq<Segment>, outputDir: string)
    : ShotRuns
  {
    var dir := WorkDirectory(outputDir, counter);
    RunShots(VideoStep(h, clap, dir), files,
      if outputDir == "" then dirs + {dir} else dirs,
      if outputDir == "" then counter + 1 else counter, videoSegments)
  }

  /** The directory chosen, then every shot exported into it. */
  function WithVideos(
    h: Host, files: map<string, Blob>, dirs: set<string>, counter: nat,
    clap: ClapProject, videoSegments: seq<Segment>, outputDir: string)
    : Effect<ExportedShots>
  {
    var runs := Runs(h, files, dirs, counter, clap, videoSegments, outputDir);
    var paths := Collect(runs.results);
    Effect(runs.files, runs.dirs, runs.counter, runs.events,
      if paths.Err? then Err(paths.error) else Ok(ExportedShots(WorkDirectory(outputDir, counter), paths.value)))
  }

  /** Exports the shots one after the other into `dir`. */
  method ExportAll(h: Host, clap: ClapProject, videoSegments: seq<Segment>, dir: string)
    returns (videoFilePaths: seq<Result<string>>)
    modifies h
    ensures var runs := RunShots(VideoStep(h, clap, dir), old(h.files), old(h.dirs), old(h.counter), videoSegments);
      && h.files == runs.files && h.dirs == runs.dirs && h.counter == runs.counter
      && h.history == old(h.history) + runs.events && videoFilePaths == runs.results
  {
    ghost var files0, dirs0, counter0 := h.files, h.dirs, h.counter;
    ghost var step := VideoStep(h, clap, dir);
    videoFilePaths := [];
    for i := 0 to |videoSegments|
      invariant var runs := RunShots(step, files0, dirs0, counter0, videoSegments[..i]);
        && h.files == runs.files && h.dirs == runs.dirs && h.counter == runs.counter
        && h.history == old(h.history) + runs.events && videoFilePaths == runs.results
    {
      ghost var runs := RunShots(step, files0, dirs0, counter0, videoSegments[..i]);
      ghost var e := VideoShot(h, h.files, h.dirs, h.counter, clap, videoSegments[i], dir);
      assert step(h.files, h.dirs, h.counter, videoSegments[i]) == e;
      var path := VideoSegmentToVideoFile.VideoSegmentToVideoFile(h, clap, videoSegments[i], dir);
      videoFilePaths := videoFilePaths + [path];
      RunShotsSnoc(step, files0, dirs0, counter0, videoSegments[..i], videoSegments[i]);
      PrefixSnoc(videoSegments, i);
      AppendAssoc(old(h.history), runs.events, e.events);
    }
    assert videoSegments[..|videoSegments|] == videoSegments;
  }

  method ClapWithVideosToVideoFile(h: Host, clap: ClapProject, videoSegments: seq<Segment> := [], outputDir: string := "")
    returns (r: Result<ExportedShots>)
    modifies h
    ensures var e := WithVideos(h, old(h.files), old(h.dirs), old(h.counter), clap, videoSegments, outputDir);
      && h.files == e.files && h.dirs == e.dirs && h.counter == e.counter
      && h.history == old(h.history) + e.events && r == e.result
  {
    var dir := ChooseWorkDirectory(h, outputDir);
    ghost var runs := RunShots(VideoStep(h, clap, dir), h.files, h.dirs, h.counter, videoSegments);
    assert runs == Runs(h, old(h.files), old(h.dirs), old(h.counter), clap, videoSegments, outputDir);
    var videoFilePaths := ExportAll(h, clap, videoSegments, dir);
    var all := Collect(videoFilePaths);
    r := if all.Err? then Err(all.error) else Ok(ExportedShots(dir, all.value));
  }

  /** The k-th shot's own effect, run from the state the shots before it left. */
  function Shot(
    h: Host, files: map<string, Blob>, dirs: set<string>, counter: nat,
    clap: ClapProject, videoSegments: seq<Segment>, outputDir: string, k: nat)
    : Effect<string>
    requires k < |videoSegments|
  {
    var dir := WorkDirectory(outputDir, counter);
    ShotAt(VideoStep(h, clap, dir), files,
      if outputDir == "" then dirs + {dir} else dirs,
      if outputDir == "" then counter + 1 else counter, videoSegments, k)
  }

  /** The export resolves with the working directory and one path per
      shot, in the order of the shots: the k-th is what the k-th shot
      resolved with, whose name follows from its caption and dialogue; with
      no shots nothing happens but the choice of the directory. */
  lemma WithVideosPaths(
    h: Host, files: map<string, Blob>, dirs: set<string>, counter: nat,
    clap: ClapProject, videoSegments: seq<Segment>, outputDir: string)
    ensures var e := WithVideos(h, files, dirs, counter, clap, videoSegments, outputDir);
      var dir := WorkDirectory(outputDir, counter);
      && (e.result.Ok? ==>
            && e.result.value.outputDir == dir
            && |e.result.value.videoFilePaths| == |videoSegments|
            && forall k :: 0 <= k < |videoSegments| ==>
                 var shot := videoSegments[k];
                 && Shot(h, files, dirs, counter, clap, videoSegments, outputDir, k).result == Ok(e.result.value.videoFilePaths[k])
                 && e.result.value.videoFilePaths[k] == FinalPath(dir, shot.id, AssetPath(h.lib, dir, shot),
                      CaptionOf(h.lib, clap, shot).Some?, DialogueOf(h.lib, clap, shot).Some?))
      && (videoSegments == [] ==> e.result == Ok(ExportedShots(dir, [])) && e.files == files && e.events == [])
  {
    var dir := WorkDirectory(outputDir, counter);
    var dirs1 := if outputDir == "" then dirs + {dir} else dirs;
    var counter1 := if outputDir == "" then counter + 1 else counter;
    var step := VideoStep(h, clap, dir);
    RunShotsCollect(step, files, dirs1, counter1, videoSegments);
    forall k | 0 <= k < |videoSegments|
      ensures var shot := videoSegments[k];
        var r := Shot(h, files, dirs, counter, clap, videoSegments, outputDir, k).result;
        r.Ok? ==> r.value == FinalPath(dir, shot.id, AssetPath(h.lib, dir, shot),
          CaptionOf(h.lib, clap, shot).Some?, DialogueOf(h.lib, clap, shot).Some?)
    {
      var before := RunShots(step, files, dirs1, counter1, videoSegments[..k]);
      VideoShotPathChain(h, before.files, before.dirs, before.counter, clap, videoSegments[k], dir);
    }
  }

  /** The export fails exactly when one of its shots does, and then with
      the error of the first shot, in the order of the shots, that failed. */
  lemma WithVideosFailure(
    h: Host, files: map<string, Blob>, dirs: set<string>, counter: nat,
    clap: ClapProject, videoSegments: seq<Segment>, outputDir: string)
    ensures var e := WithVideos(h, files, dirs, counter, clap, videoSegments, outputDir);
      && (e.result.Err? <==>
            exists k :: 0 <= k < |videoSegments| && Shot(h, files, dirs, counter, clap, videoSegments, outputDir, k).result.Err?)
      && (e.result.Err? ==>
            exists k :: 0 <= k < |videoSegments|
              && Shot(h, files, dirs, counter, clap, videoSegments, outputDir, k).result == Err(e.result.error)
              && forall i :: 0 <= i < k ==> Shot(h, files, dirs, counter, clap, videoSegments, outputDir, i).result.Ok?)
  {
    var dir := WorkDirectory(outputDir, counter);
    var dirs1 := if outputDir == "" then dirs + {dir} else dirs;
    var counter1 := if outputDir == "" then counter + 1 else counter;
    var step := VideoStep(h, clap, dir);
    RunShotsCollect(step, files, dirs1, counter1, videoSegments);
    forall k | 0 <= k < |videoSegments|
      ensures Shot(h, files, dirs, counter, clap, videoSegments, outputDir, k)
        == ShotAt(step, files, dirs1, counter1, videoSegments, k)
    {
    }
  }

  /** Exporting the video shots deletes nothing by name. */
  lemma WithVideosNoSweep(
    h: Host, files: map<string, Blob>, dirs: set<string>, counter: nat,
    clap: ClapProject, videoSegments: seq<Segment>, outputDir: string)
    ensures NoSweep(WithVideos(h, files, dirs, counter, clap, videoSegments, outputDir).events)
  {
    var dir := WorkDirectory(outputDir, counter);
    var step := VideoStep(h, clap, dir);
    forall f, d, c, s ensures NoSweep(step(f, d, c, s).events) {
      VideoShotNoSweep(h, f, d, c, clap, s, dir);
    }
    RunShotsNoSweep(step, files, if outputDir == "" then dirs + {dir} else dirs,
      if outputDir == "" then counter + 1 else counter, videoSegments);
  }
}
