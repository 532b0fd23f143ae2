/** `concatenateVideos`: joins the existing video files, in the given order,
    with ffmpeg's `mergeToFile`. */
module ConcatenateVideos {
  import opened Wrappers
  import opened Paths
  import opened Host

  datatype ConcatenateVideoOutput = ConcatenateVideoOutput(filepath: string, durationInSec: real)

  const NotAnArrayError := "Videos must be provided in an array"

  /** `videos.forEach(v => cmd = cmd.addInput(v))` */
  method AddInputs(cmd: Command, videos: seq<string>) returns (c: Command)
    ensures c.inputs == cmd.inputs + videos
    ensures c == cmd.(inputs := c.inputs)
  {
    c := cmd;
    var k := 0;
    while k < |videos|
      invariant 0 <= k <= |videos|
      invariant c == cmd.(inputs := cmd.inputs + videos[..k])
    {
      c := c.(inputs := c.inputs + [videos[k]]);
      k := k + 1;
    }
    assert videos[..k] == videos;
  }

  /** The file the concatenation is written to: `output` when truthy, else
      `<uuid>.mp4` in the fresh directory. */
  function OutputPath(output: Option<string>, tempDir: string, uuid: string): (p: string)
    requires tempDir != ""
    ensures p != ""
    ensures Truthy(output) ==> p == output.value
    ensures !Truthy(output) && '/' !in uuid ==> InDirectory(p, tempDir)
  {
    if Truthy(output) then output.value else Join(tempDir, uuid + ".mp4")
  }

  /** The command that concatenates `kept` into `filePath`. */
  function MergeCommand(kept: seq<string>, filePath: string, tempDir: string): Command {
    Command(kept, None, None, None, [], Merge(filePath, tempDir))
  }

  /** `concatenateVideos` started from a state with the given files,
      directories and counter: the existing paths are merged, in their
      order, into `output` or a fresh `<uuid>.mp4`. */
  function Concatenated(
    h: Host, files: map<string, Blob>, dirs: set<string>, counter: nat,
    videoFilePaths: ArrayArg<string>, output: Option<string>)
    : Effect<ConcatenateVideoOutput>
  {
    if videoFilePaths.NotAnArray? then Effect(files, dirs, counter, [], Err(NotAnArrayError))
    else
      var kept := KeepExisting(files, dirs, videoFilePaths.Elements());
      var tempDir := Join(TmpDir, Token(counter));
      var filePath := if Truthy(output) then output.value else Join(tempDir, Token(counter + 1) + ".mp4");
      var cmd := MergeCommand(kept, filePath, tempDir);
      var o := h.engine(cmd);
      Effect(
        if o.Pass? then files[filePath := Rendered(cmd)] else files,
        dirs + {tempDir},
        counter + (if Truthy(output) then 1 else 2),
        [Ran(cmd, o)],
        if o.Pass? then Ok(ConcatenateVideoOutput(filePath, h.mediaInfo(Some(Rendered(cmd))).durationInSec))
        else Err(o.message))
  }

  /** A non-array input is refused before anything happens; otherwise one
      merge runs over exactly the existing paths, in their order, and it
      resolves with the chosen output path precisely when ffmpeg ends well. */
  lemma ConcatenatedMergesExisting(
    h: Host, files: map<string, Blob>, dirs: set<string>, counter: nat,
    videoFilePaths: ArrayArg<string>, output: Option<string>)
    ensures var e := Concatenated(h, files, dirs, counter, videoFilePaths, output);
      && (videoFilePaths.NotAnArray? ==> e.result == Err(NotAnArrayError) && e.events == [] && e.files == files)
      && (!videoFilePaths.NotAnArray? ==>
            var filePath := OrElse(output, Join(Join(TmpDir, Token(counter)), Token(counter + 1) + ".mp4"));
            && |e.events| == 1 && e.events[0].Ran?
            && e.events[0].cmd.inputs == KeepExisting(files, dirs, videoFilePaths.Elements())
            && e.events[0].cmd.sink.path == filePath
            && (e.result.Ok? <==> e.events[0].outcome.Pass?)
            && (e.result.Ok? ==> e.result.value.filepath == filePath && filePath in e.files))
  {
  }

  /** Unfolding helper for proofs: without an output, the concatenation of
      a list runs the merge into a fresh `<uuid>.mp4` of a fresh directory
      and draws two names. */
  lemma ConcatenatedFresh(h: Host, files: map<string, Blob>, dirs: set<string>, counter: nat, paths: seq<string>)
    ensures var e := Concatenated(h, files, dirs, counter, Given(paths), None);
      var tempDir := Join(TmpDir, Token(counter));
      var filePath := Join(tempDir, Token(counter + 1) + ".mp4");
      var cmd := MergeCommand(KeepExisting(files, dirs, paths), filePath, tempDir);
      && e.events == [Ran(cmd, h.engine(cmd))] && e.counter == counter + 2
      && (e.result.Ok? <==> h.engine(cmd).Pass?)
      && (e.result.Ok? ==> e.result.value.filepath == filePath && e.files == files[filePath := Rendered(cmd)])
  {
  }

  method ConcatenateVideos(h: Host, videoFilePaths: ArrayArg<string> := Missing, output: Option<string> := None)
    returns (r: Result<ConcatenateVideoOutput>)
    modifies h
    ensures var e := Concatenated(h, old(h.files), old(h.dirs), old(h.counter), videoFilePaths, output);
      && h.files == e.files && h.dirs == e.dirs && h.counter == e.counter
      && h.history == old(h.history) + e.events && r == e.result
  {
    if videoFilePaths.NotAnArray? {
      return Err(NotAnArrayError);
    }
    var paths := KeepExisting(h.files, h.dirs, videoFilePaths.Elements());
    var tempDir := h.RandomDirectory();
    var filePath;
    if Truthy(output) {
      filePath := output.value;
    } else {
      var uuid := h.Uuid();
      filePath := OutputPath(output, tempDir, uuid);
    }
    // the source's "Failed to generate a valid temporary file path" cannot happen
    assert filePath != "";
    var cmd := AddInputs(MergeCommand([], filePath, tempDir), paths);
    assert cmd == MergeCommand(paths, filePath, tempDir) by {
      assert [] + paths == paths;
    }
    var outcome := h.Run(cmd);
    if outcome.Fail? {
      return Err(outcome.message);
    }
    var info := h.MediaInfoOf(filePath);
    r := Ok(ConcatenateVideoOutput(filePath, info.durationInSec));
  }

  /** The concatenation deletes nothing by name. */
  lemma ConcatenatedNoSweep(
    h: Host, files: map<string, Blob>, dirs: set<string>, counter: nat,
    videoFilePaths: ArrayArg<string>, output: Option<string>)
    ensures NoSweep(Concatenated(h, files, dirs, counter, videoFilePaths, output).events)
  {
  }
}
