/** `clapWithStoryboardsToVideoFile`: every storyboard of a project
    turned into a shot in one working directory. */
module ClapWithStoryboardsToVideoFile {
  import opened Wrappers
  import opened Seqs
  import opened Clap
  import opened Host
  import opened ShotSteps
  import opened StoryboardSegmentToVideoFile

  /** `segment => storyboardSegmentToVideoFile({ clap, segment, outputDir })` */
  function StoryboardStep(h: Host, clap: ClapProject, outputDir: string)
    : (step: (map<string, Blob>, set<string>, nat, Segment) --> Effect<string>)
    requires clap.meta.width > 0 && clap.meta.height > 0
    ensures forall f, d, c, s :: step.requires(f, d, c, s)
  {
    (f: map<string, Blob>, d: set<string>, c: nat, s: Segment) requires clap.meta.width > 0 && clap.meta.height > 0 =>
      StoryboardShot(h, f, d, c, clap, s, outputDir)
  }

  /** Every shot exported, in order, into the chosen directory. */
  function Runs(
    h: Host, files: map<string, Blob>, dirs: set<string>, counter: nat,
    clap: ClapProject, storyboardSegments: seq<Segment>, outputDir: string)
    : ShotRuns
    requires clap.meta.width > 0 && clap.meta.height > 0
  {
    var dir := WorkDirectory(outputDir, counter);
    RunShots(StoryboardStep(h, clap, dir), files,
      if outputDir == "" then dirs + {dir} else dirs,
      if outputDir == "" then counter + 1 else counter, storyboardSegments)
  }

  /** The directory chosen, then every shot exported into it. */
  function WithStoryboards(
    h: Host, files: map<string, Blob>, dirs: set<string>, counter: nat,
    clap: ClapProject, storyboardSegments: seq<Segment>, outputDir: string)
    : Effect<ExportedShots>
    requires clap.meta.width > 0 && clap.meta.height > 0
  {
    var runs := Runs(h, files, dirs, counter, clap, storyboardSegments, outputDir);
    var paths := Collect(runs.results);
    Effect(runs.files, runs.dirs, runs.counter, runs.events,
      if paths.Err? then Err(paths.error) else Ok(ExportedShots(WorkDirectory(outputDir, counter), paths.value)))
  }

  /** Exports the shots one after the other into `dir`. */
  method ExportAll(h: Host, clap: ClapProject, storyboardSegments: seq<Segment>, dir: string)
    returns (videoFilePaths: seq<Result<string>>)
    requires clap.meta.width > 0 && clap.meta.height > 0
    modifies h
    ensures var runs := RunShots(StoryboardStep(h, clap, dir), old(h.files), old(h.dirs), old(h.counter), storyboardSegments);
      && h.files == runs.files && h.dirs == runs.dirs && h.counter == runs.counter
      && h.history == old(h.history) + runs.events && videoFilePaths == runs.results
  {
    ghost var files0, dirs0, counter0 := h.files, h.dirs, h.counter;
    ghost var step := StoryboardStep(h, clap, dir);
    videoFilePaths := [];
    for i := 0 to |storyboardSegments|
      invariant var runs := RunShots(step, files0, dirs0, counter0, storyboardSegments[..i]);
        && h.files == runs.files && h.dirs == runs.dirs && h.counter == runs.counter
        && h.history == old(h.history) + runs.events && videoFilePaths == runs.results
    {
      ghost var runs := RunShots(step, files0, dirs0, counter0, storyboardSegments[..i]);
      ghost var e := StoryboardShot(h, h.files, h.dirs, h.counter, clap, storyboardSegments[i], dir);
      assert step(h.files, h.dirs, h.counter, storyboardSegments[i]) == e;
      var path := StoryboardSegmentToVideoFile.StoryboardSegmentToVideoFile(h, clap, storyboardSegments[i], dir);
      videoFilePaths := videoFilePaths + [path];
      RunShotsSnoc(step, files0, dirs0, counter0, storyboardSegments[..i], storyboardSegments[i]);
      PrefixSnoc(storyboardSegments, i);
      AppendAssoc(old(h.history), runs.events, e.events);
    }
    assert storyboardSegments[..|storyboardSegments|] == storyboardSegments;
  }

  method ClapWithStoryboardsToVideoFile(h: Host, clap: ClapProject, storyboardSegments: seq<Segment> := [], outputDir: string := "")
    returns (r: Result<ExportedShots>)
    requires clap.meta.width > 0 && clap.meta.height > 0
    modifies h
    ensures var e := WithStoryboards(h, old(h.files), old(h.dirs), old(h.counter), clap, storyboardSegments, outputDir);
      && h.files == e.files && h.dirs == e.dirs && h.counter == e.counter
      && h.history == old(h.history) + e.events && r == e.result
  {
    var dir := ChooseWorkDirectory(h, outputDir);
    ghost var runs := RunShots(StoryboardStep(h, clap, dir), h.files, h.dirs, h.counter, storyboardSegments);
    assert runs == Runs(h, old(h.files), old(h.dirs), old(h.counter), clap, storyboardSegments, outputDir);
    var videoFilePaths := ExportAll(h, clap, storyboardSegments, dir);
    var all := Collect(videoFilePaths);
    r := if all.Err? then Err(all.error) else Ok(ExportedShots(dir, all.value));
  }

  /** The k-th shot's own effect, run from the state the shots before it left. */
  function Shot(
    h: Host, files: map<string, Blob>, dirs: set<string>, counter: nat,
    clap: ClapProject, storyboardSegments: seq<Segment>, outputDir: string, k: nat)
    : Effect<string>
    requires k < |storyboardSegments|
    requires clap.meta.width > 0 && clap.meta.height > 0
  {
    var dir := WorkDirectory(outputDir, counter);
    ShotAt(StoryboardStep(h, clap, dir), files,
      if outputDir == "" then dirs + {dir} else dirs,
      if outputDir == "" then counter + 1 else counter, storyboardSegments, k)
  }

  /** The export resolves with the working directory and one path per
      shot, in the order of the shots: the k-th is what the k-th shot
      resolved with, whose name follows from its caption and dialogue; with
      no shots nothing happens but the choice of the directory. */
  lemma WithStoryboardsPaths(
    h: Host, files: map<string, Blob>, dirs: set<string>, counter: nat,
    clap: ClapProject, storyboardSegments: seq<Segment>, outputDir: string)
    requires clap.meta.width > 0 && clap.meta.height > 0
    ensures var e := WithStoryboards(h, files, dirs, counter, clap, storyboardSegments, outputDir);
      var dir := WorkDirectory(outputDir, counter);
      && (e.result.Ok? ==>
            && e.result.value.outputDir == dir
            && |e.result.value.videoFilePaths| == |storyboardSegments|
            && forall k :: 0 <= k < |storyboardSegments| ==>
                 var shot := storyboardSegments[k];
                 && Shot(h, files, dirs, counter, clap, storyboardSegments, outputDir, k).result == Ok(e.result.value.videoFilePaths[k])
                 && e.result.value.videoFilePaths[k] == FinalPath(dir, shot.id, AsVideoPath(dir, shot.id),
                      CaptionOf(h.lib, clap, shot).Some?, DialogueOf(h.lib, clap, shot).Some?))
      && (storyboardSegments == [] ==> e.result == Ok(ExportedShots(dir, [])) && e.files == files && e.events == [])
  {
    var dir := WorkDirectory(outputDir, counter);
    var dirs1 := if outputDir == "" then dirs + {dir} else dirs;
    var counter1 := if outputDir == "" then counter + 1 else counter;
    var step := StoryboardStep(h, clap, dir);
    RunShotsCollect(step, files, dirs1, counter1, storyboardSegments);
    forall k | 0 <= k < |storyboardSegments|
      ensures var shot := storyboardSegments[k];
        var r := Shot(h, files, dirs, counter, clap, storyboardSegments, outputDir, k).result;
        r.Ok? ==> r.value == FinalPath(dir, shot.id, AsVideoPath(dir, shot.id),
          CaptionOf(h.lib, clap, shot).Some?, DialogueOf(h.lib, clap, shot).Some?)
    {
      var before := RunShots(step, files, dirs1, counter1, storyboardSegments[..k]);
      StoryboardShotPathChain(h, before.files, before.dirs, before.counter, clap, storyboardSegments[k], dir);
    }
  }

  /** The export fails exactly when one of its shots does, and then with
      the error of the first shot, in the order of the shots, that failed. */
  lemma WithStoryboardsFailure(
    h: Host, files: map<string, Blob>, dirs: set<string>, counter: nat,
    clap: ClapProject, storyboardSegments: seq<Segment>, outputDir: string)
    requires clap.meta.width > 0 && clap.meta.height > 0
    ensures var e := WithStoryboards(h, files, dirs, counter, clap, storyboardSegments, outputDir);
      && (e.result.Err? <==>
            exists k :: 0 <= k < |storyboardSegments| && Shot(h, files, dirs, counter, clap, storyboardSegments, outputDir, k).result.Err?)
      && (e.result.Err? ==>
            exists k :: 0 <= k < |storyboardSegments|
              && Shot(h, files, dirs, counter, clap, storyboardSegments, outputDir, k).result == Err(e.result.error)
              && forall i :: 0 <= i < k ==> Shot(h, files, dirs, counter, clap, storyboardSegments, outputDir, i).result.Ok?)
  {
    var dir := WorkDirectory(outputDir, counter);
    var dirs1 := if outputDir == "" then dirs + {dir} else dirs;
    var counter1 := if outputDir == "" then counter + 1 else counter;
    var step := StoryboardStep(h, clap, dir);
    RunShotsCollect(step, files, dirs1, counter1, storyboardSegments);
    forall k | 0 <= k < |storyboardSegments|
      ensures Shot(h, files, dirs, counter, clap, storyboardSegments, outputDir, k)
        == ShotAt(step, files, dirs1, counter1, storyboardSegments, k)
    {
    }
  }

  /** Exporting the storyboards deletes nothing by name. */
  lemma WithStoryboardsNoSweep(
    h: Host, files: map<string, Blob>, dirs: set<string>, counter: nat,
    clap: ClapProject, storyboardSegments: seq<Segment>, outputDir: string)
    requires clap.meta.width > 0 && clap.meta.height > 0
    ensures NoSweep(WithStoryboards(h, files, dirs, counter, clap, storyboardSegments, outputDir).events)
  {
    var dir := WorkDirectory(outputDir, counter);
    var step := StoryboardStep(h, clap, dir);
    forall f, d, c, s ensures NoSweep(step(f, d, c, s).events) {
      StoryboardShotNoSweep(h, f, d, c, clap, s, dir);
    }
    RunShotsNoSweep(step, files, if outputDir == "" then dirs + {dir} else dirs,
      if outputDir == "" then counter + 1 else counter, storyboardSegments);
  }
}
