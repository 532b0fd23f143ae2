/** `videoSegmentToVideoFile`: one video shot, written unconverted, then
    captioned and given its dialogue when the project has them. */
module VideoSegmentToVideoFile {
  import opened Wrappers
  import opened Strings
  import opened Seqs
  import opened Paths
  import opened Clap
  import opened Lib
  import opened Host
  import opened ShotSteps

  /** An "interface" segment whose start lies within the shot. */
  predicate IsCaptionOf(lib: Library, shot: Segment, s: Segment) {
    s.category == "interface" && lib.isWithin(s, shot)
  }

  /** A "dialogue" segment with an inline audio asset whose start lies within the shot. */
  predicate IsDialogueOf(lib: Library, shot: Segment, s: Segment) {
    StartsWith(s.assetUrl, "data:audio/") && s.category == "dialogue" && lib.isWithin(s, shot)
  }

  /** `interfaceSegments.at(0)` */
  function CaptionOf(lib: Library, clap: ClapProject, shot: Segment): Option<Segment> {
    Head(Filter(s => IsCaptionOf(lib, shot, s), clap.segments))
  }

  /** `dialogueSegments.at(0)` */
  function DialogueOf(lib: Library, clap: ClapProject, shot: Segment): Option<Segment> {
    Head(Filter(s => IsDialogueOf(lib, shot, s), clap.segments))
  }

  /** The caption is the first interface segment of the project, in its
      order, whose start lies within the shot, and there is none exactly
      when no segment is one. */
  lemma CaptionIsFirstMatch(lib: Library, clap: ClapProject, shot: Segment)
    ensures CaptionOf(lib, clap, shot).None? <==>
      forall j :: 0 <= j < |clap.segments| ==> !IsCaptionOf(lib, shot, clap.segments[j])
    ensures CaptionOf(lib, clap, shot).Some? ==>
      exists k :: IsFirstMatch(s => IsCaptionOf(lib, shot, s), clap.segments, k)
        && clap.segments[k] == CaptionOf(lib, clap, shot).value
  {
    var p := s => IsCaptionOf(lib, shot, s);
    HeadOfFilterNone(p, clap.segments);
    if CaptionOf(lib, clap, shot).Some? {
      HeadOfFilterIsFirst(p, clap.segments);
    }
  }

  /** The dialogue is the first `data:audio/` dialogue segment of the
      project whose start lies within the shot, and there is none exactly
      when no segment is one. */
  lemma DialogueIsFirstMatch(lib: Library, clap: ClapProject, shot: Segment)
    ensures DialogueOf(lib, clap, shot).None? <==>
      forall j :: 0 <= j < |clap.segments| ==> !IsDialogueOf(lib, shot, clap.segments[j])
    ensures DialogueOf(lib, clap, shot).Some? ==>
      exists k :: IsFirstMatch(s => IsDialogueOf(lib, shot, s), clap.segments, k)
        && clap.segments[k] == DialogueOf(lib, clap, shot).value
  {
    var p := s => IsDialogueOf(lib, shot, s);
    HeadOfFilterNone(p, clap.segments);
    if DialogueOf(lib, clap, shot).Some? {
      HeadOfFilterIsFirst(p, clap.segments);
    }
  }

  /** `tmp_asset_<id>.<extension of the shot's own URI>` */
  function AssetPath(lib: Library, outputDir: string, shot: Segment): string {
    Join(outputDir, "tmp_asset_" + shot.id + "." + lib.extension(shot.assetUrl))
  }

  /** The unconverted asset and the captioned video never share a path:
      after `tmp_asset_<id>` one has '.', the other '_'. */
  lemma AssetPathIsNotCaptioned(lib: Library, outputDir: string, shot: Segment)
    ensures AssetPath(lib, outputDir, shot) != WithInterfacePath(outputDir, shot.id)
  {
    var a := "tmp_asset_" + shot.id + "." + lib.extension(shot.assetUrl);
    var b := "tmp_asset_" + shot.id + "_with_interface.mp4";
    var k := |"tmp_asset_" + shot.id|;
    assert a[k] == '.' && b[k] == '_';
    JoinSameDirectory(outputDir, a, b);
  }

  /** The caption text `addTextToVideo` is given, when there is a caption. */
  function CaptionTextOf(lib: Library, clap: ClapProject, shot: Segment): Option<string> {
    match CaptionOf(lib, clap, shot)
    case None => None
    case Some(c) => Some(CaptionText(lib, c))
  }

  /** `videoSegmentToVideoFile` started from a state with the given files,
      directories and counter. */
  function VideoShot(
    h: Host, files: map<string, Blob>, dirs: set<string>, counter: nat,
    clap: ClapProject, shot: Segment, outputDir: string)
    : Effect<string>
  {
    var first := AssetPath(h.lib, outputDir, shot);
    var blob := Base64Text(shot.assetUrl);
    var t := ShotTail(h, files[first := blob], dirs, counter, outputDir, shot.id, first,
      CaptionTextOf(h.lib, clap, shot), clap.meta.width, clap.meta.height, DialogueOf(h.lib, clap, shot));
    Effect(t.files, t.dirs, t.counter, [Wrote(first, blob)] + t.events, t.result)
  }

  method VideoSegmentToVideoFile(h: Host, clap: ClapProject, segment: Segment, outputDir: string)
    returns (r: Result<string>)
    modifies h
    ensures var e := VideoShot(h, old(h.files), old(h.dirs), old(h.counter), clap, segment, outputDir);
      && h.files == e.files && h.dirs == e.dirs && h.counter == e.counter
      && h.history == old(h.history) + e.events && r == e.result
  {
    var videoSegmentFilePath := AssetPath(h.lib, outputDir, segment);
    h.WriteBase64(segment.assetUrl, videoSegmentFilePath);
    ghost var w := Wrote(videoSegmentFilePath, Base64Text(segment.assetUrl));
    ghost var t := ShotTail(h, h.files, h.dirs, h.counter, outputDir, segment.id, videoSegmentFilePath,
      CaptionTextOf(h.lib, clap, segment), clap.meta.width, clap.meta.height, DialogueOf(h.lib, clap, segment));
    r := FinishShot(h, outputDir, segment.id, videoSegmentFilePath, CaptionTextOf(h.lib, clap, segment),
      clap.meta.width, clap.meta.height, DialogueOf(h.lib, clap, segment));
    AppendAssoc(old(h.history), [w], t.events);
  }

  /** The shot's asset is written first, unconverted, to `tmp_asset_<id>.<ext>`;
      the shot resolves with `<id>_video_with_audio.mp4` when it has a
      dialogue, else `tmp_asset_<id>_with_interface.mp4` when it has a
      caption, else the written asset, which is then all that happened. */
  lemma VideoShotPathChain(
    h: Host, files: map<string, Blob>, dirs: set<string>, counter: nat,
    clap: ClapProject, shot: Segment, outputDir: string)
    ensures var e := VideoShot(h, files, dirs, counter, clap, shot, outputDir);
      var first := AssetPath(h.lib, outputDir, shot);
      && e.events[0] == Wrote(first, Base64Text(shot.assetUrl))
      && (e.result.Ok? ==>
            e.result.value == (if DialogueOf(h.lib, clap, shot).Some? then WithAudioPath(outputDir, shot.id)
                               else if CaptionOf(h.lib, clap, shot).Some? then WithInterfacePath(outputDir, shot.id)
                               else first))
      && (CaptionOf(h.lib, clap, shot).None? && DialogueOf(h.lib, clap, shot).None? ==>
            e == Effect(files[first := Base64Text(shot.assetUrl)], dirs, counter,
              [Wrote(first, Base64Text(shot.assetUrl))], Ok(first)))
  {
    var first := AssetPath(h.lib, outputDir, shot);
    ShotTailPath(h, files[first := Base64Text(shot.assetUrl)], dirs, counter, outputDir, shot.id, first,
      CaptionTextOf(h.lib, clap, shot), clap.meta.width, clap.meta.height, DialogueOf(h.lib, clap, shot));
  }

  /** Every file a successful shot supersedes is deleted: the asset once
      the caption is burnt in (the captioned file then being there when no
      dialogue follows), and the dialogue file and the video it was mixed
      over, by the last two events, which leave neither behind. */
  lemma VideoShotDeletesSuperseded(
    h: Host, files: map<string, Blob>, dirs: set<string>, counter: nat,
    clap: ClapProject, shot: Segment, outputDir: string)
    ensures var e := VideoShot(h, files, dirs, counter, clap, shot, outputDir);
      var first := AssetPath(h.lib, outputDir, shot);
      var captioned := CaptionOf(h.lib, clap, shot).Some?;
      var before := if captioned then WithInterfacePath(outputDir, shot.id) else first;
      && (e.result.Ok? && captioned ==> Deleted(first) in e.events)
      && (e.result.Ok? && captioned && DialogueOf(h.lib, clap, shot).None? ==>
            first !in e.files && WithInterfacePath(outputDir, shot.id) in e.files)
      && (e.result.Ok? && DialogueOf(h.lib, clap, shot).Some? ==>
            var path := DialoguePath(h.lib, outputDir, shot.id, DialogueOf(h.lib, clap, shot).value);
            && e.events[|e.events| - 2] == Deleted(path) && e.events[|e.events| - 1] == Deleted(before)
            && path !in e.files && before !in e.files)
  {
    var first := AssetPath(h.lib, outputDir, shot);
    var blob := Base64Text(shot.assetUrl);
    var caption := CaptionTextOf(h.lib, clap, shot);
    var dialogue := DialogueOf(h.lib, clap, shot);
    var t := ShotTail(h, files[first := blob], dirs, counter, outputDir, shot.id, first,
      caption, clap.meta.width, clap.meta.height, dialogue);
    var e := VideoShot(h, files, dirs, counter, clap, shot, outputDir);
    assert e.events == [Wrote(first, blob)] + t.events;
    if caption.Some? {
      AssetPathIsNotCaptioned(h.lib, outputDir, shot);
      ShotTailCaptionSupersedes(h, files[first := blob], dirs, counter, outputDir, shot.id, first,
        caption, clap.meta.width, clap.meta.height, dialogue);
      if e.result.Ok? {
        assert e.events[2] == t.events[1];
      }
    }
    if dialogue.Some? {
      ShotTailDialogueSupersedes(h, files[first := blob], dirs, counter, outputDir, shot.id, first,
        caption, clap.meta.width, clap.meta.height, dialogue);
    }
  }

  /** A caption is burnt in right after the asset is written, from the
      asset into `tmp_asset_<id>_with_interface.mp4`, with the decoded
      payload of a `data:text/` caption and the raw URI of any other. */
  lemma VideoShotCaptionText(
    h: Host, files: map<string, Blob>, dirs: set<string>, counter: nat,
    clap: ClapProject, shot: Segment, outputDir: string)
    requires CaptionOf(h.lib, clap, shot).Some?
    ensures var e := VideoShot(h, files, dirs, counter, clap, shot, outputDir);
      var c := CaptionOf(h.lib, clap, shot).value;
      && |e.events| >= 2 && e.events[1].Overlaid?
      && e.events[1].input == AssetPath(h.lib, outputDir, shot)
      && e.events[1].output == WithInterfacePath(outputDir, shot.id)
      && e.events[1].caption ==
           (if StartsWith(c.assetUrl, "data:text/") then h.lib.atob(h.lib.payload(c.assetUrl)) else c.assetUrl)
  {
    var first := AssetPath(h.lib, outputDir, shot);
    var blob := Base64Text(shot.assetUrl);
    var caption := CaptionTextOf(h.lib, clap, shot);
    var dialogue := DialogueOf(h.lib, clap, shot);
    var e1 := CaptionStep(h, files[first := blob], dirs, counter, first, WithInterfacePath(outputDir, shot.id),
      caption.value, clap.meta.width, clap.meta.height);
    var t := ShotTail(h, files[first := blob], dirs, counter, outputDir, shot.id, first,
      caption, clap.meta.width, clap.meta.height, dialogue);
    assert t.events[0] == e1.events[0];
  }

  /** A video shot deletes nothing by name. */
  lemma VideoShotNoSweep(
    h: Host, files: map<string, Blob>, dirs: set<string>, counter: nat,
    clap: ClapProject, shot: Segment, outputDir: string)
    ensures NoSweep(VideoShot(h, files, dirs, counter, clap, shot, outputDir).events)
  {
    var first := AssetPath(h.lib, outputDir, shot);
    var blob := Base64Text(shot.assetUrl);
    var t := ShotTail(h, files[first := blob], dirs, counter, outputDir, shot.id, first,
      CaptionTextOf(h.lib, clap, shot), clap.meta.width, clap.meta.height, DialogueOf(h.lib, clap, shot));
    ShotTailNoSweep(h, files[first := blob], dirs, counter, outputDir, shot.id, first,
      CaptionTextOf(h.lib, clap, shot), clap.meta.width, clap.meta.height, DialogueOf(h.lib, clap, shot));
    NoSweepAppend([Wrote(first, blob)], t.events);
  }
}
