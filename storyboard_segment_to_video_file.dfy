/** `storyboardSegmentToVideoFile`: one storyboard still, animated into a
    clip, then captioned and given its dialogue when the project has them. */
module StoryboardSegmentToVideoFile {
  import opened Wrappers
  import opened Strings
  import opened Seqs
  import opened Paths
  import opened Clap
  import opened Lib
  import opened Host
  import opened ImageToVideoBase64
  import opened ShotSteps

  /** `tmp_asset_<id>_as_video.mp4` */
  function AsVideoPath(outputDir: string, id: string): string {
    Join(outputDir, "tmp_asset_" + id + "_as_video.mp4")
  }

  /** The clip and the captioned video never share a path: after
      `tmp_asset_<id>_` one has 'a', the other 'w'. */
  lemma AsVideoPathIsNotCaptioned(outputDir: string, id: string)
    ensures AsVideoPath(outputDir, id) != WithInterfacePath(outputDir, id)
  {
    var a := "tmp_asset_" + id + "_as_video.mp4";
    var b := "tmp_asset_" + id + "_with_interface.mp4";
    var k := |"tmp_asset_" + id + "_"|;
    assert a[k] == 'a' && b[k] == 'w';
    JoinSameDirectory(outputDir, a, b);
  }

  /** `filterSegments(BOTH, segment, clap.segments, INTERFACE).at(0)` */
  function CaptionOf(lib: Library, clap: ClapProject, shot: Segment): Option<Segment> {
    Head(lib.filterSegmentsBoth(shot, clap.segments, lib.enumInterface))
  }

  predicate HasAudioAsset(s: Segment) {
    StartsWith(s.assetUrl, "data:audio/")
  }

  /** `filterSegments(BOTH, segment, clap.segments, DIALOGUE).filter(s => s.assetUrl.startsWith("data:audio/"))` */
  function DialogueCandidates(lib: Library, clap: ClapProject, shot: Segment): seq<Segment> {
    Filter(HasAudioAsset, lib.filterSegmentsBoth(shot, clap.segments, lib.enumDialogue))
  }

  function DialogueOf(lib: Library, clap: ClapProject, shot: Segment): Option<Segment> {
    Head(DialogueCandidates(lib, clap, shot))
  }

  /** The dialogue is the first of the dialogue segments `filterSegments`
      returns that has a `data:audio/` asset, and there is none exactly
      when none of them has one. */
  lemma DialogueIsFirstAudioMatch(lib: Library, clap: ClapProject, shot: Segment)
    ensures var found := lib.filterSegmentsBoth(shot, clap.segments, lib.enumDialogue);
      && (DialogueOf(lib, clap, shot).None? <==> forall j :: 0 <= j < |found| ==> !HasAudioAsset(found[j]))
      && (DialogueOf(lib, clap, shot).Some? ==>
            exists k :: IsFirstMatch(HasAudioAsset, found, k) && found[k] == DialogueOf(lib, clap, shot).value)
  {
    var found := lib.filterSegmentsBoth(shot, clap.segments, lib.enumDialogue);
    HeadOfFilterNone(HasAudioAsset, found);
    if DialogueOf(lib, clap, shot).Some? {
      HeadOfFilterIsFirst(HasAudioAsset, found);
    }
  }

  function CaptionTextOf(lib: Library, clap: ClapProject, shot: Segment): Option<string> {
    match CaptionOf(lib, clap, shot)
    case None => None
    case Some(c) => Some(CaptionText(lib, c))
  }

  /** The `imageToVideoBase64` call: the still into `tmp_asset_<id>_as_video.mp4`
      in the output directory, which is kept, at the project's size, for the
      segment's duration, as mp4, at the default frame rate and zoom. */
  function StillToClip(
    h: Host, files: map<string, Blob>, dirs: set<string>, counter: nat,
    clap: ClapProject, shot: Segment, outputDir: string)
    : Effect<string>
    requires clap.meta.width > 0 && clap.meta.height > 0
  {
    Rendering(h, files, dirs, counter, shot.assetUrl, Some(AsVideoPath(outputDir, shot.id)), Some(outputDir),
      false, "mp4", shot.assetDurationInMs, None, clap.meta.width, clap.meta.height, 25, 0.02)
  }

  /** `storyboardSegmentToVideoFile` started from a state with the given
      files, directories and counter. */
  function StoryboardShot(
    h: Host, files: map<string, Blob>, dirs: set<string>, counter: nat,
    clap: ClapProject, shot: Segment, outputDir: string)
    : Effect<string>
    requires clap.meta.width > 0 && clap.meta.height > 0
  {
    var clip := StillToClip(h, files, dirs, counter, clap, shot, outputDir);
    if clip.result.Err? then clip
    else
      var t := ShotTail(h, clip.files, clip.dirs, clip.counter, outputDir, shot.id, AsVideoPath(outputDir, shot.id),
        CaptionTextOf(h.lib, clap, shot), clap.meta.width, clap.meta.height, DialogueOf(h.lib, clap, shot));
      Effect(t.files, t.dirs, t.counter, clip.events + t.events, t.result)
  }

  method StoryboardSegmentToVideoFile(h: Host, clap: ClapProject, segment: Segment, outputDir: string)
    returns (r: Result<string>)
    requires clap.meta.width > 0 && clap.meta.height > 0
    modifies h
    ensures var e := StoryboardShot(h, old(h.files), old(h.dirs), old(h.counter), clap, segment, outputDir);
      && h.files == e.files && h.dirs == e.dirs && h.counter == e.counter
      && h.history == old(h.history) + e.events && r == e.result
  {
    var storyboardSegmentVideoFilePath := AsVideoPath(outputDir, segment.id);
    ghost var clip := StillToClip(h, h.files, h.dirs, h.counter, clap, segment, outputDir);
    var rendered := ImageToVideoBase64.ImageToVideoBase64(h, segment.assetUrl,
      outputFilePath := Some(storyboardSegmentVideoFilePath), width := clap.meta.width, height := clap.meta.height,
      outputVideoDurationInMs := segment.assetDurationInMs, outputDir := Some(outputDir),
      clearOutputDirAtTheEnd := false, outputVideoFormat := "mp4");
    if rendered.Err? {
      return Err(rendered.error);
    }
    ghost var t := ShotTail(h, h.files, h.dirs, h.counter, outputDir, segment.id, storyboardSegmentVideoFilePath,
      CaptionTextOf(h.lib, clap, segment), clap.meta.width, clap.meta.height, DialogueOf(h.lib, clap, segment));
    r := FinishShot(h, outputDir, segment.id, storyboardSegmentVideoFilePath, CaptionTextOf(h.lib, clap, segment),
      clap.meta.width, clap.meta.height, DialogueOf(h.lib, clap, segment));
    AppendAssoc(old(h.history), clip.events, t.events);
  }

  /** The still is written first, as its payload; the shot resolves with
      `<id>_video_with_audio.mp4` when it has a dialogue, else
      `tmp_asset_<id>_with_interface.mp4` when it has a caption, else
      `tmp_asset_<id>_as_video.mp4`, which is then there. */
  lemma StoryboardShotPathChain(
    h: Host, files: map<string, Blob>, dirs: set<string>, counter: nat,
    clap: ClapProject, shot: Segment, outputDir: string)
    requires clap.meta.width > 0 && clap.meta.height > 0
    ensures var e := StoryboardShot(h, files, dirs, counter, clap, shot, outputDir);
      && e.events[0].Wrote? && e.events[0].blob == Base64Text(ImagePayload(shot.assetUrl))
      && (e.result.Ok? ==>
            e.result.value == (if DialogueOf(h.lib, clap, shot).Some? then WithAudioPath(outputDir, shot.id)
                               else if CaptionOf(h.lib, clap, shot).Some? then WithInterfacePath(outputDir, shot.id)
                               else AsVideoPath(outputDir, shot.id)))
      && (e.result.Ok? && CaptionOf(h.lib, clap, shot).None? && DialogueOf(h.lib, clap, shot).None? ==>
            AsVideoPath(outputDir, shot.id) in e.files)
  {
    var clip := StillToClip(h, files, dirs, counter, clap, shot, outputDir);
    var asVideo := AsVideoPath(outputDir, shot.id);
    RenderingWritesImageFirst(h, files, dirs, counter, shot.assetUrl, Some(asVideo), Some(outputDir),
      false, "mp4", shot.assetDurationInMs, None, clap.meta.width, clap.meta.height, 25, 0.02);
    assert Truthy(Some(asVideo)) by {
      assert |"tmp_asset_" + shot.id + "_as_video.mp4"| > 0;
    }
    if clip.result.Ok? {
      ShotTailPath(h, clip.files, clip.dirs, clip.counter, outputDir, shot.id, asVideo,
        CaptionTextOf(h.lib, clap, shot), clap.meta.width, clap.meta.height, DialogueOf(h.lib, clap, shot));
    }
  }

  /** Unfolding helper for proofs: once the clip is rendered, the shot is
      the caption and dialogue steps on it. */
  lemma StoryboardShotOnClip(
    h: Host, files: map<string, Blob>, dirs: set<string>, counter: nat,
    clap: ClapProject, shot: Segment, outputDir: string)
    requires clap.meta.width > 0 && clap.meta.height > 0
    requires StillToClip(h, files, dirs, counter, clap, shot, outputDir).result.Ok?
    ensures var clip := StillToClip(h, files, dirs, counter, clap, shot, outputDir);
      var t := ShotTail(h, clip.files, clip.dirs, clip.counter, outputDir, shot.id, AsVideoPath(outputDir, shot.id),
        CaptionTextOf(h.lib, clap, shot), clap.meta.width, clap.meta.height, DialogueOf(h.lib, clap, shot));
      StoryboardShot(h, files, dirs, counter, clap, shot, outputDir)
      == Effect(t.files, t.dirs, t.counter, clip.events + t.events, t.result)
  {
  }

  /** A captioned shot deletes the clip once the caption is burnt in, and
      without a dialogue ends with the captioned file there and the clip gone. */
  lemma StoryboardShotCaptionSupersedes(
    h: Host, files: map<string, Blob>, dirs: set<string>, counter: nat,
    clap: ClapProject, shot: Segment, outputDir: string)
    requires clap.meta.width > 0 && clap.meta.height > 0
    ensures var e := StoryboardShot(h, files, dirs, counter, clap, shot, outputDir);
      var asVideo := AsVideoPath(outputDir, shot.id);
      var captioned := CaptionOf(h.lib, clap, shot).Some?;
      && (e.result.Ok? && captioned ==> Deleted(asVideo) in e.events)
      && (e.result.Ok? && captioned && DialogueOf(h.lib, clap, shot).None? ==>
            asVideo !in e.files && WithInterfacePath(outputDir, shot.id) in e.files)
  {
    var clip := StillToClip(h, files, dirs, counter, clap, shot, outputDir);
    var asVideo := AsVideoPath(outputDir, shot.id);
    var caption := CaptionTextOf(h.lib, clap, shot);
    var dialogue := DialogueOf(h.lib, clap, shot);
    if clip.result.Ok? && caption.Some? {
      var t := ShotTail(h, clip.files, clip.dirs, clip.counter, outputDir, shot.id, asVideo,
        caption, clap.meta.width, clap.meta.height, dialogue);
      StoryboardShotOnClip(h, files, dirs, counter, clap, shot, outputDir);
      AsVideoPathIsNotCaptioned(outputDir, shot.id);
      ShotTailCaptionSupersedes(h, clip.files, clip.dirs, clip.counter, outputDir, shot.id, asVideo,
        caption, clap.meta.width, clap.meta.height, dialogue);
      if t.result.Ok? {
        assert (clip.events + t.events)[|clip.events| + 1] == t.events[1];
      }
    }
  }

  /** A shot with a dialogue ends by deleting the dialogue file and the
      video it was mixed over (the captioned file when there is a caption,
      else the clip), which are then gone. */
  lemma StoryboardShotDialogueSupersedes(
    h: Host, files: map<string, Blob>, dirs: set<string>, counter: nat,
    clap: ClapProject, shot: Segment, outputDir: string)
    requires clap.meta.width > 0 && clap.meta.height > 0
    ensures var e := StoryboardShot(h, files, dirs, counter, clap, shot, outputDir);
      var before := if CaptionOf(h.lib, clap, shot).Some? then WithInterfacePath(outputDir, shot.id)
        else AsVideoPath(outputDir, shot.id);
      e.result.Ok? && DialogueOf(h.lib, clap, shot).Some? ==>
        var path := DialoguePath(h.lib, outputDir, shot.id, DialogueOf(h.lib, clap, shot).value);
        && |e.events| >= 2
        && e.events[|e.events| - 2] == Deleted(path) && e.events[|e.events| - 1] == Deleted(before)
        && path !in e.files && before !in e.files
  {
    var clip := StillToClip(h, files, dirs, counter, clap, shot, outputDir);
    var dialogue := DialogueOf(h.lib, clap, shot);
    if clip.result.Ok? && dialogue.Some? {
      StoryboardShotOnClip(h, files, dirs, counter, clap, shot, outputDir);
      ShotTailDialogueSupersedes(h, clip.files, clip.dirs, clip.counter, outputDir, shot.id,
        AsVideoPath(outputDir, shot.id), CaptionTextOf(h.lib, clap, shot), clap.meta.width, clap.meta.height, dialogue);
    }
  }

  /** A storyboard shot deletes nothing by name. */
  lemma StoryboardShotNoSweep(
    h: Host, files: map<string, Blob>, dirs: set<string>, counter: nat,
    clap: ClapProject, shot: Segment, outputDir: string)
    requires clap.meta.width > 0 && clap.meta.height > 0
    ensures NoSweep(StoryboardShot(h, files, dirs, counter, clap, shot, outputDir).events)
  {
    var clip := StillToClip(h, files, dirs, counter, clap, shot, outputDir);
    if clip.result.Ok? {
      var t := ShotTail(h, clip.files, clip.dirs, clip.counter, outputDir, shot.id, AsVideoPath(outputDir, shot.id),
        CaptionTextOf(h.lib, clap, shot), clap.meta.width, clap.meta.height, DialogueOf(h.lib, clap, shot));
      ShotTailNoSweep(h, clip.files, clip.dirs, clip.counter, outputDir, shot.id, AsVideoPath(outputDir, shot.id),
        CaptionTextOf(h.lib, clap, shot), clap.meta.width, clap.meta.height, DialogueOf(h.lib, clap, shot));
      NoSweepAppend(clip.events, t.events);
    }
  }
}
