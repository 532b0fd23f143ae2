/** The two steps both shot exporters run on a shot's video file once it is
    on disk: burning in the caption (`_with_interface.mp4`), then mixing in
    the dialogue (`_video_with_audio.mp4`), each deleting the file it
    supersedes. */
module ShotSteps {
  import opened Wrappers
  import opened Strings
  import opened Seqs
  import opened Paths
  import opened Clap
  import opened Lib
  import opened Host
  import opened ConcatenateVideosWithAudio

  /** `interfaceSegment.assetUrl.startsWith("data:text/") ? atob(extractBase64(...).data) : assetUrl` */
  function CaptionText(lib: Library, caption: Segment): string {
    if StartsWith(caption.assetUrl, "data:text/") then lib.atob(lib.payload(caption.assetUrl)) else caption.assetUrl
  }

  /** `tmp_asset_<id>_with_interface.mp4` */
  function WithInterfacePath(outputDir: string, id: string): string {
    Join(outputDir, "tmp_asset_" + id + "_with_interface.mp4")
  }

  /** `tmp_asset_<id>_dialogue.<extension of the dialogue's URI>` */
  function DialoguePath(lib: Library, outputDir: string, id: string, dialogue: Segment): string {
    Join(outputDir, "tmp_asset_" + id + "_dialogue." + lib.extension(dialogue.assetUrl))
  }

  /** `<id>_video_with_audio.mp4` */
  function WithAudioPath(outputDir: string, id: string): string {
    Join(outputDir, id + "_video_with_audio.mp4")
  }

  lemma WithAudioPathTruthy(outputDir: string, id: string)
    ensures Truthy(Some(WithAudioPath(outputDir, id)))
  {
    var name := id + "_video_with_audio.mp4";
    assert |name| > 0;
  }

  /** `addTextToVideo` from `video` to `output`, then `deleteFile(video)`. */
  function CaptionStep(
    h: Host, files: map<string, Blob>, dirs: set<string>, counter: nat,
    video: string, output: string, text: string, width: nat, height: nat)
    : Effect<string>
  {
    var o := h.overlay(if video in files then Some(files[video]) else None, text, width, height);
    if o.Fail? then Effect(files, dirs, counter, [Overlaid(video, output, text, o)], Err(o.message))
    else Effect(RemovePaths(files[output := Captioned(video, text, width, height)], [video]), dirs, counter,
      [Overlaid(video, output, text, o), Deleted(video)], Ok(output))
  }

  /** The caption step resolves with the output path after deleting the
      video, which is then gone while the output is there; a failure of
      the renderer leaves the files as they were. */
  lemma CaptionStepResolves(
    h: Host, files: map<string, Blob>, dirs: set<string>, counter: nat,
    video: string, output: string, text: string, width: nat, height: nat)
    ensures var e := CaptionStep(h, files, dirs, counter, video, output, text, width, height);
      && e.dirs == dirs && e.counter == counter
      && (e.result.Ok? ==>
            && e.result.value == output && |e.events| == 2 && e.events[1] == Deleted(video)
            && video !in e.files && (output != video ==> output in e.files))
      && (e.result.Err? ==> e.files == files && |e.events| == 1)
  {
  }

  method Caption(h: Host, video: string, output: string, text: string, width: nat, height: nat)
    returns (r: Result<string>)
    modifies h`files, h`history
    ensures var e := CaptionStep(h, old(h.files), old(h.dirs), old(h.counter), video, output, text, width, height);
      h.files == e.files && h.history == old(h.history) + e.events && r == e.result
  {
    var o := h.AddTextToVideo(video, output, text, width, height);
    if o.Fail? {
      return Err(o.message);
    }
    h.DeleteFile(video);
    r := Ok(output);
  }

  /** The dialogue is written next to the shot, mixed at volume 1.0 over the
      video at volume 0.0 into `<id>_video_with_audio.mp4`, and once that
      resolves the dialogue file and the video are deleted. */
  function DialogueStep(
    h: Host, files: map<string, Blob>, dirs: set<string>, counter: nat,
    outputDir: string, id: string, video: string, dialogue: Segment)
    : Effect<string>
  {
    var path := DialoguePath(h.lib, outputDir, id, dialogue);
    var blob := Base64Text(dialogue.assetUrl);
    var m := DialogueMix(h, files, dirs, counter, outputDir, id, video, dialogue);
    if m.result.Err? then Effect(m.files, m.dirs, m.counter, [Wrote(path, blob)] + m.events, m.result)
    else Effect(RemovePaths(RemovePaths(m.files, [path]), [video]), m.dirs, m.counter,
      [Wrote(path, blob)] + m.events + [Deleted(path), Deleted(video)], m.result)
  }

  /** The mix the dialogue step runs, from the state the dialogue write leaves. */
  function DialogueMix(
    h: Host, files: map<string, Blob>, dirs: set<string>, counter: nat,
    outputDir: string, id: string, video: string, dialogue: Segment)
    : Effect<string>
  {
    var path := DialoguePath(h.lib, outputDir, id, dialogue);
    Concatenation(h, files[path := Base64Text(dialogue.assetUrl)], dirs, counter, Some(WithAudioPath(outputDir, id)),
      DefaultExportFormat, "", path, [], [video], 0.0, 1.0, false)
  }

  /** Unfolding helper for proofs: the dialogue step is the write, the mix,
      and on success the two deletions. */
  lemma DialogueStepComposes(
    h: Host, files: map<string, Blob>, dirs: set<string>, counter: nat,
    outputDir: string, id: string, video: string, dialogue: Segment)
    ensures var path := DialoguePath(h.lib, outputDir, id, dialogue);
      var w := Wrote(path, Base64Text(dialogue.assetUrl));
      var m := DialogueMix(h, files, dirs, counter, outputDir, id, video, dialogue);
      DialogueStep(h, files, dirs, counter, outputDir, id, video, dialogue)
      == if m.result.Err? then Effect(m.files, m.dirs, m.counter, [w] + m.events, m.result)
         else Effect(RemovePaths(RemovePaths(m.files, [path]), [video]), m.dirs, m.counter,
           [w] + m.events + [Deleted(path), Deleted(video)], m.result)
  {
  }

  /** Writes the dialogue and runs the mix. */
  method Mix(h: Host, outputDir: string, id: string, video: string, dialogue: Segment)
    returns (r: Result<string>)
    modifies h
    ensures var m := DialogueMix(h, old(h.files), old(h.dirs), old(h.counter), outputDir, id, video, dialogue);
      var w := Wrote(DialoguePath(h.lib, outputDir, id, dialogue), Base64Text(dialogue.assetUrl));
      && h.files == m.files && h.dirs == m.dirs && h.counter == m.counter
      && h.history == old(h.history) + ([w] + m.events) && r == m.result
  {
    var path := DialoguePath(h.lib, outputDir, id, dialogue);
    h.WriteBase64(dialogue.assetUrl, path);
    ghost var history1 := h.history;
    r := ConcatenateVideosWithAudio.ConcatenateVideosWithAudio(h, output := Some(WithAudioPath(outputDir, id)),
      audioFilePath := path, videoFilePaths := [video], videoTracksVolume := 0.0, audioTrackVolume := 1.0);
    AppendAssoc(old(h.history), [Wrote(path, Base64Text(dialogue.assetUrl))], h.history[|history1|..]);
  }

  /** The dialogue is written first, as the segment's own URI; the step
      resolves with `<id>_video_with_audio.mp4` after deleting the dialogue
      file and the video it supersedes, which are then gone; and a failure
      is the mix's "Failed to assemble video: " error. */
  lemma DialogueStepResolves(
    h: Host, files: map<string, Blob>, dirs: set<string>, counter: nat,
    outputDir: string, id: string, video: string, dialogue: Segment)
    ensures var e := DialogueStep(h, files, dirs, counter, outputDir, id, video, dialogue);
      var path := DialoguePath(h.lib, outputDir, id, dialogue);
      && |e.events| >= 1 && e.events[0] == Wrote(path, Base64Text(dialogue.assetUrl))
      && (e.result.Ok? ==>
            && e.result.value == WithAudioPath(outputDir, id)
            && |e.events| >= 3
            && e.events[|e.events| - 2] == Deleted(path) && e.events[|e.events| - 1] == Deleted(video)
            && path !in e.files && video !in e.files)
      && (e.result.Err? ==> StartsWith(e.result.error, AssemblyPrefix))
  {
    var path := DialoguePath(h.lib, outputDir, id, dialogue);
    var m := DialogueMix(h, files, dirs, counter, outputDir, id, video, dialogue);
    WithAudioPathTruthy(outputDir, id);
    ConcatenationResolvesWithOutput(h, files[path := Base64Text(dialogue.assetUrl)], dirs, counter,
      Some(WithAudioPath(outputDir, id)), DefaultExportFormat, "", path, [], [video], 0.0, 1.0);
    DialogueStepComposes(h, files, dirs, counter, outputDir, id, video, dialogue);
    var e := DialogueStep(h, files, dirs, counter, outputDir, id, video, dialogue);
    if e.result.Ok? {
      assert e.events == [Wrote(path, Base64Text(dialogue.assetUrl))] + m.events + [Deleted(path), Deleted(video)];
    }
  }

  /** Deletes the dialogue file, then the video it was mixed over. */
  method Discard(h: Host, path: string, video: string)
    modifies h`files, h`history
    ensures h.files == RemovePaths(RemovePaths(old(h.files), [path]), [video])
    ensures h.history == old(h.history) + [Deleted(path), Deleted(video)]
  {
    h.DeleteFile(path);
    h.DeleteFile(video);
  }

  method Dialogue(h: Host, outputDir: string, id: string, video: string, dialogue: Segment)
    returns (r: Result<string>)
    modifies h
    ensures var e := DialogueStep(h, old(h.files), old(h.dirs), old(h.counter), outputDir, id, video, dialogue);
      && h.files == e.files && h.dirs == e.dirs && h.counter == e.counter
      && h.history == old(h.history) + e.events && r == e.result
  {
    ghost var m := DialogueMix(h, h.files, h.dirs, h.counter, outputDir, id, video, dialogue);
    DialogueStepComposes(h, h.files, h.dirs, h.counter, outputDir, id, video, dialogue);
    var path := DialoguePath(h.lib, outputDir, id, dialogue);
    ghost var w := Wrote(path, Base64Text(dialogue.assetUrl));
    r := Mix(h, outputDir, id, video, dialogue);
    if r.Err? {
      return;
    }
    ghost var e := DialogueStep(h, old(h.files), old(h.dirs), old(h.counter), outputDir, id, video, dialogue);
    assert e == Effect(RemovePaths(RemovePaths(m.files, [path]), [video]), m.dirs, m.counter,
      [w] + m.events + [Deleted(path), Deleted(video)], m.result);
    Discard(h, path, video);
    AppendAssoc(old(h.history), [w] + m.events, [Deleted(path), Deleted(video)]);
  }

  /** What follows once the shot's video file `video` is on disk: the
      caption step when there is a caption text, then the dialogue step
      when there is a dialogue, each starting from what the previous left. */
  function ShotTail(
    h: Host, files: map<string, Blob>, dirs: set<string>, counter: nat,
    outputDir: string, id: string, video: string, caption: Option<string>, width: nat, height: nat,
    dialogue: Option<Segment>)
    : Effect<string>
  {
    var e1 := if caption.None? then Effect(files, dirs, counter, [], Ok(video))
      else CaptionStep(h, files, dirs, counter, video, WithInterfacePath(outputDir, id), caption.value, width, height);
    if e1.result.Err? || dialogue.None? then e1
    else
      var e2 := DialogueStep(h, e1.files, e1.dirs, e1.counter, outputDir, id, e1.result.value, dialogue.value);
      Effect(e2.files, e2.dirs, e2.counter, e1.events + e2.events, e2.result)
  }

  /** The caption and dialogue steps, reassigning the current path as the
      source does. */
  method FinishShot(
    h: Host, outputDir: string, id: string, video: string, caption: Option<string>, width: nat, height: nat,
    dialogue: Option<Segment>)
    returns (r: Result<string>)
    modifies h
    ensures var e := ShotTail(h, old(h.files), old(h.dirs), old(h.counter), outputDir, id, video, caption,
        width, height, dialogue);
      && h.files == e.files && h.dirs == e.dirs && h.counter == e.counter
      && h.history == old(h.history) + e.events && r == e.result
  {
    ghost var e1 := if caption.None? then Effect(h.files, h.dirs, h.counter, [], Ok(video))
      else CaptionStep(h, h.files, h.dirs, h.counter, video, WithInterfacePath(outputDir, id), caption.value,
        width, height);
    var path := video;
    if caption.Some? {
      r := Caption(h, path, WithInterfacePath(outputDir, id), caption.value, width, height);
      if r.Err? {
        return;
      }
      path := r.value;
    }
    assert h.history == old(h.history) + e1.events;
    if dialogue.Some? {
      ghost var e2 := DialogueStep(h, h.files, h.dirs, h.counter, outputDir, id, path, dialogue.value);
      r := Dialogue(h, outputDir, id, path, dialogue.value);
      AppendAssoc(old(h.history), e1.events, e2.events);
    } else {
      r := Ok(path);
    }
  }

  /** The path the shot resolves with: `<id>_video_with_audio.mp4` when
      there is a dialogue, else `tmp_asset_<id>_with_interface.mp4` when
      there is a caption, else the video itself, untouched; a failure is
      either the caption's or the mix's "Failed to assemble video: " error. */
  lemma ShotTailPath(
    h: Host, files: map<string, Blob>, dirs: set<string>, counter: nat,
    outputDir: string, id: string, video: string, caption: Option<string>, width: nat, height: nat,
    dialogue: Option<Segment>)
    ensures var e := ShotTail(h, files, dirs, counter, outputDir, id, video, caption, width, height, dialogue);
      && (e.result.Ok? ==>
            e.result.value == (if dialogue.Some? then WithAudioPath(outputDir, id)
                               else if caption.Some? then WithInterfacePath(outputDir, id)
                               else video))
      && (caption.None? && dialogue.None? ==> e == Effect(files, dirs, counter, [], Ok(video)))
      && (e.result.Err? && caption.None? ==> StartsWith(e.result.error, AssemblyPrefix))
  {
    var e1 := if caption.None? then Effect(files, dirs, counter, [], Ok(video))
      else CaptionStep(h, files, dirs, counter, video, WithInterfacePath(outputDir, id), caption.value, width, height);
    if e1.result.Ok? && dialogue.Some? {
      DialogueStepResolves(h, e1.files, e1.dirs, e1.counter, outputDir, id, e1.result.value, dialogue.value);
    }
  }

  /** A captioned shot deletes the video once the caption is burnt in;
      without a dialogue it ends with the captioned file there and the
      video gone. */
  lemma ShotTailCaptionSupersedes(
    h: Host, files: map<string, Blob>, dirs: set<string>, counter: nat,
    outputDir: string, id: string, video: string, caption: Option<string>, width: nat, height: nat,
    dialogue: Option<Segment>)
    requires caption.Some? && video != WithInterfacePath(outputDir, id)
    ensures var e := ShotTail(h, files, dirs, counter, outputDir, id, video, caption, width, height, dialogue);
      && (e.result.Ok? ==> |e.events| >= 2 && e.events[1] == Deleted(video))
      && (e.result.Ok? && dialogue.None? ==> video !in e.files && WithInterfacePath(outputDir, id) in e.files)
  {
    var e1 := CaptionStep(h, files, dirs, counter, video, WithInterfacePath(outputDir, id), caption.value, width, height);
    CaptionStepResolves(h, files, dirs, counter, video, WithInterfacePath(outputDir, id), caption.value, width, height);
    if e1.result.Ok? && dialogue.Some? {
      var e2 := DialogueStep(h, e1.files, e1.dirs, e1.counter, outputDir, id, e1.result.value, dialogue.value);
      assert ShotTail(h, files, dirs, counter, outputDir, id, video, caption, width, height, dialogue).events
        == e1.events + e2.events;
    }
  }

  /** A shot with a dialogue ends by deleting the dialogue file and the
      video it was mixed over (the captioned file when there is a caption),
      which are then gone. */
  lemma ShotTailDialogueSupersedes(
    h: Host, files: map<string, Blob>, dirs: set<string>, counter: nat,
    outputDir: string, id: string, video: string, caption: Option<string>, width: nat, height: nat,
    dialogue: Option<Segment>)
    requires dialogue.Some?
    ensures var e := ShotTail(h, files, dirs, counter, outputDir, id, video, caption, width, height, dialogue);
      var before := if caption.Some? then WithInterfacePath(outputDir, id) else video;
      var path := DialoguePath(h.lib, outputDir, id, dialogue.value);
      e.result.Ok? ==>
        && |e.events| >= 2
        && e.events[|e.events| - 2] == Deleted(path) && e.events[|e.events| - 1] == Deleted(before)
        && path !in e.files && before !in e.files
  {
    var before := if caption.Some? then WithInterfacePath(outputDir, id) else video;
    var e1 := if caption.None? then Effect(files, dirs, counter, [], Ok(video))
      else CaptionStep(h, files, dirs, counter, video, WithInterfacePath(outputDir, id), caption.value, width, height);
    if caption.Some? {
      CaptionStepResolves(h, files, dirs, counter, video, WithInterfacePath(outputDir, id), caption.value, width, height);
    }
    if e1.result.Ok? {
      assert e1.result.value == before;
      var e2 := DialogueStep(h, e1.files, e1.dirs, e1.counter, outputDir, id, before, dialogue.value);
      DialogueStepResolves(h, e1.files, e1.dirs, e1.counter, outputDir, id, before, dialogue.value);
      var e := Effect(e2.files, e2.dirs, e2.counter, e1.events + e2.events, e2.result);
      assert ShotTail(h, files, dirs, counter, outputDir, id, video, caption, width, height, dialogue) == e;
    }
  }

  /** The state after running a list of shots one after the other, and the
      result of each. */
  datatype ShotRuns = ShotRuns(
    files: map<string, Blob>, dirs: set<string>, counter: nat, events: seq<Event>, results: seq<Result<string>>)

  /** `Promise.all(shots.map(step))`, the shots taken in list order, each
      starting from the state the previous one left; every shot runs, even
      after one has failed. */
  function RunShots(
    step: (map<string, Blob>, set<string>, nat, Segment) --> Effect<string>,
    files: map<string, Blob>, dirs: set<string>, counter: nat, shots: seq<Segment>)
    : (r: ShotRuns)
    requires forall f, d, c, s :: step.requires(f, d, c, s)
    ensures |r.results| == |shots|
    decreases |shots|
  {
    if shots == [] then ShotRuns(files, dirs, counter, [], [])
    else
      var before := RunShots(step, files, dirs, counter, shots[..|shots| - 1]);
      var e := step(before.files, before.dirs, before.counter, shots[|shots| - 1]);
      ShotRuns(e.files, e.dirs, e.counter, before.events + e.events, before.results + [e.result])
  }

  /** One more shot extends the runs by its own effect. */
  lemma RunShotsSnoc(
    step: (map<string, Blob>, set<string>, nat, Segment) --> Effect<string>,
    files: map<string, Blob>, dirs: set<string>, counter: nat, shots: seq<Segment>, shot: Segment)
    requires forall f, d, c, s :: step.requires(f, d, c, s)
    ensures var before := RunShots(step, files, dirs, counter, shots);
      var e := step(before.files, before.dirs, before.counter, shot);
      RunShots(step, files, dirs, counter, shots + [shot])
        == ShotRuns(e.files, e.dirs, e.counter, before.events + e.events, before.results + [e.result])
  {
    assert (shots + [shot])[..|shots|] == shots;
  }

  /** The k-th shot's own effect, run from the state the shots before it left. */
  function ShotAt(
    step: (map<string, Blob>, set<string>, nat, Segment) --> Effect<string>,
    files: map<string, Blob>, dirs: set<string>, counter: nat, shots: seq<Segment>, k: nat)
    : Effect<string>
    requires forall f, d, c, s :: step.requires(f, d, c, s)
    requires k < |shots|
  {
    var before := RunShots(step, files, dirs, counter, shots[..k]);
    step(before.files, before.dirs, before.counter, shots[k])
  }

  /** The k-th result is the k-th shot's. */
  lemma {:induction false} RunShotsInOrder(
    step: (map<string, Blob>, set<string>, nat, Segment) --> Effect<string>,
    files: map<string, Blob>, dirs: set<string>, counter: nat, shots: seq<Segment>, k: nat)
    requires forall f, d, c, s :: step.requires(f, d, c, s)
    requires k < |shots|
    ensures RunShots(step, files, dirs, counter, shots).results[k] == ShotAt(step, files, dirs, counter, shots, k).result
    decreases |shots|
  {
    var n := |shots| - 1;
    if k < n {
      RunShotsInOrder(step, files, dirs, counter, shots[..n], k);
      assert shots[..n][..k] == shots[..k];
    } else {
      assert shots[..k] == shots[..n];
    }
  }

  /** What `Promise.all` resolves with: every value, in order, or the error
      of the first shot in list order that failed. */
  function Collect(results: seq<Result<string>>): Result<seq<string>> {
    if results == [] then Ok([])
    else if results[0].Err? then Err(results[0].error)
    else
      match Collect(results[1..])
      case Err(m) => Err(m)
      case Ok(rest) => Ok([results[0].value] + rest)
  }

  predicate Failed(r: Result<string>) {
    r.Err?
  }

  /** `Collect` resolves exactly when every shot did, with their values in
      order, and otherwise fails with the first failure's error. */
  lemma {:induction false} CollectKeepsOrder(results: seq<Result<string>>)
    ensures Collect(results).Ok? <==> forall j :: 0 <= j < |results| ==> results[j].Ok?
    ensures Collect(results).Ok? ==>
      |Collect(results).value| == |results| && forall j :: 0 <= j < |results| ==> results[j] == Ok(Collect(results).value[j])
    ensures Collect(results).Err? ==>
      exists k :: IsFirstMatch(Failed, results, k) && results[k].error == Collect(results).error
  {
    if results != [] {
      var tail := results[1..];
      CollectKeepsOrder(tail);
      if results[0].Err? {
        assert IsFirstMatch(Failed, results, 0);
      } else if Collect(tail).Err? {
        var k :| IsFirstMatch(Failed, tail, k) && tail[k].error == Collect(tail).error;
        assert IsFirstMatch(Failed, results, k + 1);
        assert !results[k + 1].Ok?;
      } else {
        var v := Collect(results).value;
        forall j | 0 <= j < |results| ensures results[j] == Ok(v[j]) {
          if j > 0 {
            assert results[j] == tail[j - 1];
          }
        }
      }
    }
  }

  /** `Promise.all` over the shots resolves with every shot's value, in
      order, exactly when no shot failed, and otherwise fails with the error
      of the first shot, in list order, that failed. */
  lemma RunShotsCollect(
    step: (map<string, Blob>, set<string>, nat, Segment) --> Effect<string>,
    files: map<string, Blob>, dirs: set<string>, counter: nat, shots: seq<Segment>)
    requires forall f, d, c, s :: step.requires(f, d, c, s)
    ensures var all := Collect(RunShots(step, files, dirs, counter, shots).results);
      && (all.Ok? ==>
            |all.value| == |shots|
            && forall k :: 0 <= k < |shots| ==> ShotAt(step, files, dirs, counter, shots, k).result == Ok(all.value[k]))
      && (all.Err? <==> exists k :: 0 <= k < |shots| && ShotAt(step, files, dirs, counter, shots, k).result.Err?)
      && (all.Err? ==>
            exists k :: 0 <= k < |shots|
              && ShotAt(step, files, dirs, counter, shots, k).result == Err(all.error)
              && forall i :: 0 <= i < k ==> ShotAt(step, files, dirs, counter, shots, i).result.Ok?)
  {
    var results := RunShots(step, files, dirs, counter, shots).results;
    CollectKeepsOrder(results);
    forall k | 0 <= k < |shots|
      ensures results[k] == ShotAt(step, files, dirs, counter, shots, k).result
    {
      RunShotsInOrder(step, files, dirs, counter, shots, k);
    }
    var all := Collect(results);
    if all.Err? {
      var k :| IsFirstMatch(Failed, results, k) && results[k].error == all.error;
      assert results[k] == Err(all.error);
      assert forall i :: 0 <= i < k ==> results[i].Ok? by {
        forall i | 0 <= i < k ensures results[i].Ok? {
          assert !Failed(results[i]);
        }
      }
    }
  }

  /** `outputDir || (await getRandomDirectory())`: the given directory, or a
      fresh one under the temporary directory when it is empty. */
  function WorkDirectory(outputDir: string, counter: nat): string {
    if outputDir != "" then outputDir else Join(TmpDir, Token(counter))
  }

  method ChooseWorkDirectory(h: Host, outputDir: string) returns (dir: string)
    modifies h`counter, h`dirs
    ensures dir == WorkDirectory(outputDir, old(h.counter))
    ensures h.dirs == if outputDir == "" then old(h.dirs) + {dir} else old(h.dirs)
    ensures h.counter == if outputDir == "" then old(h.counter) + 1 else old(h.counter)
  {
    dir := outputDir;
    if dir == "" {
      dir := h.RandomDirectory();
    }
  }

  /** What both project exporters resolve with. */
  datatype ExportedShots = ExportedShots(outputDir: string, videoFilePaths: seq<string>)

  /** The path a shot resolves with: the mixed file when it has a
      dialogue, else the captioned file when it has a caption, else its own
      video. */
  function FinalPath(outputDir: string, id: string, video: string, captioned: bool, dialogued: bool): string {
    if dialogued then WithAudioPath(outputDir, id)
    else if captioned then WithInterfacePath(outputDir, id)
    else video
  }

  /** The dialogue step writes the dialogue file, mixes it and deletes the
      two files it superseded by path, never by name. */
  lemma DialogueStepNoSweep(
    h: Host, files: map<string, Blob>, dirs: set<string>, counter: nat,
    outputDir: string, id: string, video: string, dialogue: Segment)
    ensures NoSweep(DialogueStep(h, files, dirs, counter, outputDir, id, video, dialogue).events)
  {
    var path := DialoguePath(h.lib, outputDir, id, dialogue);
    var m := DialogueMix(h, files, dirs, counter, outputDir, id, video, dialogue);
    ConcatenationNoSweep(h, files[path := Base64Text(dialogue.assetUrl)], dirs, counter,
      Some(WithAudioPath(outputDir, id)), DefaultExportFormat, "", path, [], [video], 0.0, 1.0, false);
    var w: seq<Event> := [Wrote(path, Base64Text(dialogue.assetUrl))];
    NoSweepAppend(w, m.events);
    NoSweepAppend(w + m.events, [Deleted(path), Deleted(video)]);
  }

  /** The caption and dialogue steps delete what they supersede by path,
      never by name. */
  lemma ShotTailNoSweep(
    h: Host, files: map<string, Blob>, dirs: set<string>, counter: nat,
    outputDir: string, id: string, video: string, caption: Option<string>, width: nat, height: nat,
    dialogue: Option<Segment>)
    ensures NoSweep(ShotTail(h, files, dirs, counter, outputDir, id, video, caption, width, height, dialogue).events)
  {
    var e1 := if caption.None? then Effect(files, dirs, counter, [], Ok(video))
      else CaptionStep(h, files, dirs, counter, video, WithInterfacePath(outputDir, id), caption.value, width, height);
    if e1.result.Ok? && dialogue.Some? {
      var e2 := DialogueStep(h, e1.files, e1.dirs, e1.counter, outputDir, id, e1.result.value, dialogue.value);
      DialogueStepNoSweep(h, e1.files, e1.dirs, e1.counter, outputDir, id, e1.result.value, dialogue.value);
      NoSweepAppend(e1.events, e2.events);
    }
  }

  /** Shots that each delete nothing by name, run one after the other,
      delete nothing by name. */
  lemma {:induction false} RunShotsNoSweep(
    step: (map<string, Blob>, set<string>, nat, Segment) --> Effect<string>,
    files: map<string, Blob>, dirs: set<string>, counter: nat, shots: seq<Segment>)
    requires forall f, d, c, s :: step.requires(f, d, c, s)
    requires forall f, d, c, s :: NoSweep(step(f, d, c, s).events)
    ensures NoSweep(RunShots(step, files, dirs, counter, shots).events)
    decreases |shots|
  {
    if shots != [] {
      var before := RunShots(step, files, dirs, counter, shots[..|shots| - 1]);
      RunShotsNoSweep(step, files, dirs, counter, shots[..|shots| - 1]);
      var e := step(before.files, before.dirs, before.counter, shots[|shots| - 1]);
      NoSweepAppend(before.events, e.events);
    }
  }
}
