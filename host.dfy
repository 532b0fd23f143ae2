/** The world the pipeline runs in: the file system, the source of fresh
    names, and the foreign programs (ffmpeg, ffprobe, `getMediaInfo`, the
    caption renderer behind `addTextToVideo`). A foreign program is a function
    the model knows nothing about except its signature; what it does to the
    file system is stated by the method that calls it. */
module Host {
  import opened Wrappers
  import opened Strings
  import opened Paths
  import opened Lib
  import opened Seqs

  /** `os.tmpdir()` */
  const TmpDir := "/tmp"

  /** A `complexFilter(graph, outputs)` call of fluent-ffmpeg. */
  datatype Graph = Graph(spec: string, outputs: Option<string>)

  /** How a command is finally started: `save(path)` (also `saveToFile`) or
      `mergeToFile(path, tempDir)`. */
  datatype Sink = Save(path: string) | Merge(path: string, tempDir: string)

  /** An ffmpeg invocation as fluent-ffmpeg assembles it: the inputs in the
      order they were added, the filters, the output options in the order
      they were given, and where the result goes. */
  datatype Command = Command(
    inputs: seq<string>,
    graph: Option<Graph>,
    videoFilters: Option<string>,
    format: Option<string>,
    outputOptions: seq<string>,
    sink: Sink)

  /** How a foreign program ended: the `end` event, or `error` with its message. */
  datatype Outcome = Pass | Fail(message: string)

  /** The content of a file: the base64 text handed to a writer, the output
      of an ffmpeg command, or a video with a caption burnt in. */
  datatype Blob =
    | Base64Text(text: string)
    | Rendered(cmd: Command)
    | Captioned(source: string, caption: string, width: nat, height: nat)

  /** One entry of `ffprobe`'s `streams`; a width or height of 0 stands for
      a missing one. */
  datatype Stream = Stream(codecType: string, width: nat, height: nat)

  /** What `getMediaInfo` reports about a file. */
  datatype MediaInfo = MediaInfo(durationInSec: real, hasAudio: bool)

  /** What happened, in order; it lets the contracts say which files were
      written, which were deleted and which commands were run. */
  datatype Event =
    | Wrote(path: string, blob: Blob)
    | Deleted(path: string)
    | RemovedFiles(paths: seq<string>)
    | DeletedMatching(dir: string, pattern: string)
    | RemovedTree(dir: string)
    | Ran(cmd: Command, outcome: Outcome)
    | Overlaid(input: string, output: string, caption: string, outcome: Outcome)

  /** What an operation does when started from a state: the files, the
      directories and the counter it leaves, the events it adds to the
      history, and the value it resolves with or the error it throws. */
  datatype Effect<+T> = Effect(
    files: map<string, Blob>,
    dirs: set<string>,
    counter: nat,
    events: seq<Event>,
    result: Result<T>)

  /** None of the events deletes files by a name pattern, as
      `deleteFilesWithName` does. */
  predicate NoSweep(events: seq<Event>) {
    forall i :: 0 <= i < |events| ==> !events[i].DeletedMatching?
  }

  /** Proof helper: histories without a sweep stay so when joined. */
  lemma NoSweepAppend(a: seq<Event>, b: seq<Event>)
    requires NoSweep(a) && NoSweep(b)
    ensures NoSweep(a + b)
  {
    forall i | 0 <= i < |a + b| ensures !(a + b)[i].DeletedMatching? {
      if i >= |a| {
        assert (a + b)[i] == b[i - |a|];
      }
    }
  }

  /** The name `uuidv4()` (or the random suffix of `mkdtemp`) yields when the
      counter of names handed out so far is `k`. */
  function Token(k: nat): (t: string)
    ensures t != "" && '/' !in t
  {
    seq(k + 1, _ => 'u')
  }

  /** Distinct counters give distinct names. */
  lemma TokenInjective(j: nat, k: nat)
    requires Token(j) == Token(k)
    ensures j == k
  {
    assert |Token(j)| == j + 1;
  }

  /** Whether `p` lies somewhere below directory `dir`. */
  predicate Under(p: string, dir: string) {
    StartsWith(p, dir + "/")
  }

  /** The text Node puts in the error a missing file raises. */
  function NoSuchFile(syscall: string, p: string): string {
    "ENOENT: no such file or directory, " + syscall + " '" + p + "'"
  }

  /** `files` without the entries at `paths`. */
  function RemovePaths(files: map<string, Blob>, paths: seq<string>): (r: map<string, Blob>)
    ensures forall p :: p in r <==> p in files && p !in paths
    ensures forall p :: p in r ==> r[p] == files[p]
  {
    map p | p in files && p !in paths :: files[p]
  }

  /** `files` without the entries below directory `dir`. */
  function RemoveTree(files: map<string, Blob>, dir: string): (r: map<string, Blob>)
    ensures forall p :: p in r <==> p in files && !Under(p, dir)
    ensures forall p :: p in r ==> r[p] == files[p]
  {
    map p | p in files && !Under(p, dir) :: files[p]
  }

  /** `files` without the entries of `dir` whose name `matches` accepts for `pattern`. */
  function RemoveMatching(files: map<string, Blob>, dir: string, matches: (string, string) -> bool, pattern: string)
    : (r: map<string, Blob>)
    ensures forall p :: p in r <==> p in files && !(InDirectory(p, dir) && matches(BaseName(p), pattern))
    ensures forall p :: p in r ==> r[p] == files[p]
  {
    map p | p in files && !(InDirectory(p, dir) && matches(BaseName(p), pattern)) :: files[p]
  }

  /** `paths.filter(existsSync)` against a snapshot of the file system. */
  function KeepExisting(files: map<string, Blob>, dirs: set<string>, paths: seq<string>): (r: seq<string>)
    ensures |r| <= |paths|
  {
    Filter(p => p in files || p in dirs, paths)
  }

  /** The existence filter keeps exactly the paths that exist, in their order. */
  lemma KeepExistingKeeps(files: map<string, Blob>, dirs: set<string>, paths: seq<string>)
    ensures forall p :: p in KeepExisting(files, dirs, paths) <==> p in paths && (p in files || p in dirs)
    ensures IsSubsequence(KeepExisting(files, dirs, paths), paths)
  {
    FilterMembers(p => p in files || p in dirs, paths);
    FilterIsSubsequence(p => p in files || p in dirs, paths);
  }

  /** Checking the same paths against the same files a second time drops nothing. */
  lemma KeepExistingIdempotent(files: map<string, Blob>, dirs: set<string>, paths: seq<string>)
    ensures KeepExisting(files, dirs, KeepExisting(files, dirs, paths)) == KeepExisting(files, dirs, paths)
  {
    FilterIdempotent(p => p in files || p in dirs, paths);
  }

  class Host {
    var files: map<string, Blob>
    var dirs: set<string>
    var counter: nat
    ghost var history: seq<Event>

    /** ffmpeg: how a command ends. */
    const engine: Command -> Outcome
    /** `addTextToVideo`: how rendering a caption over a video ends. */
    const overlay: (Option<Blob>, string, nat, nat) -> Outcome
    /** ffprobe: the streams of a file, or the error it reports. */
    const probe: Option<Blob> -> Result<seq<Stream>>
    /** `getMediaInfo` */
    const mediaInfo: Option<Blob> -> MediaInfo
    /** `readFile(p).toString("base64")` for the content of an existing file. */
    const encode: Blob -> string
    /** The library helpers. */
    const lib: Library

    constructor (
      engine: Command -> Outcome,
      overlay: (Option<Blob>, string, nat, nat) -> Outcome,
      probe: Option<Blob> -> Result<seq<Stream>>,
      mediaInfo: Option<Blob> -> MediaInfo,
      encode: Blob -> string,
      lib: Library,
      files: map<string, Blob>,
      dirs: set<string>)
      ensures this.engine == engine && this.overlay == overlay && this.probe == probe
      ensures this.mediaInfo == mediaInfo && this.encode == encode && this.lib == lib
      ensures this.files == files && this.dirs == dirs && counter == 0 && history == []
    {
      this.engine := engine;
      this.overlay := overlay;
      this.probe := probe;
      this.mediaInfo := mediaInfo;
      this.encode := encode;
      this.lib := lib;
      this.files := files;
      this.dirs := dirs;
      counter := 0;
      history := [];
    }

    function Lookup(p: string): (b: Option<Blob>)
      reads this
      ensures b.Some? <==> p in files
      ensures b.Some? ==> b.value == files[p]
    {
      if p in files then Some(files[p]) else None
    }

    /** `existsSync(p)` */
    predicate Exists(p: string)
      reads this
    {
      p in files || p in dirs
    }

    /** `uuidv4()` */
    method Uuid() returns (u: string)
      modifies this`counter
      ensures u == Token(old(counter)) && counter == old(counter) + 1
    {
      u := Token(counter);
      counter := counter + 1;
    }

    /** `getRandomDirectory()`: a new directory under the temporary root. */
    method RandomDirectory() returns (d: string)
      modifies this`counter, this`dirs
      ensures d == Join(TmpDir, Token(old(counter))) && counter == old(counter) + 1
      ensures dirs == old(dirs) + {d}
    {
      d := Join(TmpDir, Token(counter));
      counter := counter + 1;
      dirs := dirs + {d};
    }

    /** `mkdtemp(join(os.tmpdir(), prefix))`: the prefix followed by a fresh suffix. */
    method MakeTempDirectory(prefix: string) returns (d: string)
      modifies this`counter, this`dirs
      ensures d == Join(TmpDir, prefix) + Token(old(counter)) && counter == old(counter) + 1
      ensures dirs == old(dirs) + {d}
    {
      d := Join(TmpDir, prefix) + Token(counter);
      counter := counter + 1;
      dirs := dirs + {d};
    }

    /** `writeFile(p, Buffer.from(text, "base64"))`, and `writeBase64ToFile(text, p)`,
        which resolves with the path it wrote. */
    method WriteBase64(text: string, p: string)
      modifies this`files, this`history
      ensures files == old(files)[p := Base64Text(text)]
      ensures history == old(history) + [Wrote(p, Base64Text(text))]
    {
      files := files[p := Base64Text(text)];
      history := history + [Wrote(p, Base64Text(text))];
    }

    /** `deleteFile(p)` */
    method DeleteFile(p: string)
      modifies this`files, this`history
      ensures files == RemovePaths(old(files), [p])
      ensures history == old(history) + [Deleted(p)]
    {
      files := RemovePaths(files, [p]);
      history := history + [Deleted(p)];
    }

    /** `removeTemporaryFiles(paths)` */
    method RemoveTemporaryFiles(paths: seq<string>)
      modifies this`files, this`history
      ensures files == RemovePaths(old(files), paths)
      ensures history == old(history) + [RemovedFiles(paths)]
    {
      files := RemovePaths(files, paths);
      history := history + [RemovedFiles(paths)];
    }

    /** `deleteFilesWithName(dir, pattern)`: deletes the files of `dir` whose
        name the library's matcher accepts. */
    method DeleteFilesWithName(dir: string, pattern: string)
      modifies this`files, this`history
      ensures files == RemoveMatching(old(files), dir, lib.nameMatches, pattern)
      ensures history == old(history) + [DeletedMatching(dir, pattern)]
    {
      files := RemoveMatching(files, dir, lib.nameMatches, pattern);
      history := history + [DeletedMatching(dir, pattern)];
    }

    /** `rm(dir, { recursive: true })` */
    method RemoveDirectory(dir: string)
      modifies this`files, this`dirs, this`history
      ensures files == RemoveTree(old(files), dir)
      ensures dirs == set q | q in old(dirs) && q != dir && !Under(q, dir)
      ensures history == old(history) + [RemovedTree(dir)]
    {
      files := RemoveTree(files, dir);
      dirs := set q | q in dirs && q != dir && !Under(q, dir);
      history := history + [RemovedTree(dir)];
    }

    /** `(await stat(p)).isFile()`: fails when nothing is at `p`. */
    method IsFile(p: string) returns (r: Result<bool>)
      ensures r == if p in files then Ok(true) else if p in dirs then Ok(false) else Err(NoSuchFile("stat", p))
    {
      r := if p in files then Ok(true) else if p in dirs then Ok(false) else Err(NoSuchFile("stat", p));
    }

    /** `readFile(p).toString("base64")` */
    method ReadBase64(p: string) returns (r: Result<string>)
      ensures r == if p in files then Ok(encode(files[p])) else Err(NoSuchFile("open", p))
    {
      r := if p in files then Ok(encode(files[p])) else Err(NoSuchFile("open", p));
    }

    /** `ffprobe(p)` */
    method Probe(p: string) returns (r: Result<seq<Stream>>)
      ensures r == probe(Lookup(p))
    {
      r := probe(Lookup(p));
    }

    /** `getMediaInfo(p)` */
    method MediaInfoOf(p: string) returns (m: MediaInfo)
      ensures m == mediaInfo(Lookup(p))
    {
      m := mediaInfo(Lookup(p));
    }

    /** Starts an ffmpeg command and waits for its `end` or `error` event.
        On `end` the output file holds what the command rendered. */
    method Run(cmd: Command) returns (o: Outcome)
      modifies this`files, this`history
      ensures o == engine(cmd)
      ensures files == if o.Pass? then old(files)[cmd.sink.path := Rendered(cmd)] else old(files)
      ensures history == old(history) + [Ran(cmd, o)]
    {
      o := engine(cmd);
      if o.Pass? {
        files := files[cmd.sink.path := Rendered(cmd)];
      }
      history := history + [Ran(cmd, o)];
    }

    /** `addTextToVideo({ inputVideoPath, outputVideoPath, text, width, height })` */
    method AddTextToVideo(input: string, output: string, caption: string, width: nat, height: nat)
      returns (o: Outcome)
      modifies this`files, this`history
      ensures o == overlay(old(Lookup(input)), caption, width, height)
      ensures files == if o.Pass? then old(files)[output := Captioned(input, caption, width, height)] else old(files)
      ensures history == old(history) + [Overlaid(input, output, caption, o)]
    {
      o := overlay(Lookup(input), caption, width, height);
      if o.Pass? {
        files := files[output := Captioned(input, caption, width, height)];
      }
      history := history + [Overlaid(input, output, caption, o)];
    }
  }
}
