/** `convertAudioToWav`: converts an audio file, or an mp3 or wav data URI,
    to a wav file. */
module ConvertAudioToWav {
  import opened Wrappers
  import opened Strings
  import opened Seqs
  import opened Paths
  import opened Host

  const InvalidDataError := "Invalid base64 audio data"
  const WavDataPrefix := "data:audio/wav;base64,"

  /** The two parts the regular expression `^data:audio\/(mp3|wav);base64,(.+)$`
      captures. */
  datatype AudioData = AudioData(format: string, data: string)

  /** What `(.+)$` accepts: at least one character and no line terminator. */
  predicate IsPayload(d: string) {
    d != "" && forall i :: 0 <= i < |d| ==> !IsLineTerminator(d[i])
  }

  predicate IsInputFormat(f: string) {
    f == "mp3" || f == "wav"
  }

  function AudioDataUri(format: string, data: string): string {
    "data:audio/" + format + ";base64," + data
  }

  /** `input.match(/^data:audio\/(mp3|wav);base64,(.+)$/)` */
  function ParseAudioDataUri(input: string): Option<AudioData> {
    if StartsWith(input, AudioDataUri("mp3", "")) && IsPayload(input[22..]) then Some(AudioData("mp3", input[22..]))
    else if StartsWith(input, AudioDataUri("wav", "")) && IsPayload(input[22..]) then Some(AudioData("wav", input[22..]))
    else None
  }

  /** Every well-formed data URI is matched, with its format and payload. */
  lemma ParseAudioDataUriComplete(format: string, data: string)
    requires IsInputFormat(format) && IsPayload(data)
    ensures ParseAudioDataUri(AudioDataUri(format, data)) == Some(AudioData(format, data))
  {
    var u := AudioDataUri(format, data);
    assert u[..22] == AudioDataUri(format, "");
    assert u[22..] == data;
    assert AudioDataUri("mp3", "")[11] == 'm' && AudioDataUri("wav", "")[11] == 'w';
  }

  /** Whatever is matched is such a data URI. */
  lemma ParseAudioDataUriSound(input: string)
    requires ParseAudioDataUri(input).Some?
    ensures var a := ParseAudioDataUri(input).value;
      IsInputFormat(a.format) && IsPayload(a.data) && input == AudioDataUri(a.format, a.data)
  {
    var a := ParseAudioDataUri(input).value;
    assert input == input[..22] + input[22..];
  }

  /** The path of the file to convert, or the error that stops the
      conversion before ffmpeg runs. */
  function InputPath(files: map<string, Blob>, dirs: set<string>, counter: nat, input: string): (r: Result<string>)
    ensures StartsWith(input, "data:") && ParseAudioDataUri(input).None? ==> r == Err(InvalidDataError)
    ensures !StartsWith(input, "data:") ==>
      r == if input in files then Ok(input)
           else if input in dirs then Err("Input audio file does not exist: " + input)
           else Err(NoSuchFile("stat", input))
  {
    if StartsWith(input, "data:") then
      match ParseAudioDataUri(input)
      case None => Err(InvalidDataError)
      case Some(a) => Ok(Join(Join(TmpDir, "ffmpeg-input-") + Token(counter), "temp." + a.format))
    else if input in files then Ok(input)
    else if input in dirs then Err("Input audio file does not exist: " + input)
    else Err(NoSuchFile("stat", input))
  }

  /** A data URI is written to `temp.<format>` in a fresh directory. */
  predicate WritesInput(input: string) {
    StartsWith(input, "data:") && ParseAudioDataUri(input).Some?
  }

  /** Decodes a data URI into a temporary file, or checks that the given
      path is a file. */
  method PrepareInput(h: Host, input: string) returns (r: Result<string>)
    modifies h`files, h`dirs, h`counter, h`history
    ensures var e := InputStage(old(h.files), old(h.dirs), old(h.counter), input);
      && h.files == e.files && h.dirs == e.dirs && h.counter == e.counter
      && h.history == old(h.history) + e.events && r == e.result
  {
    if StartsWith(input, "data:") {
      var matches := ParseAudioDataUri(input);
      if matches.None? {
        return Err(InvalidDataError);
      }
      var tempDir := h.MakeTempDirectory("ffmpeg-input-");
      var inputAudioPath := Join(tempDir, "temp." + matches.value.format);
      h.WriteBase64(matches.value.data, inputAudioPath);
      r := Ok(inputAudioPath);
    } else {
      var isFile := h.IsFile(input);
      if isFile.Err? {
        return Err(isFile.error);
      }
      if !isFile.value {
        return Err("Input audio file does not exist: " + input);
      }
      r := Ok(input);
    }
  }

  /** `outputAudioPath`, or `<name>.wav` in a fresh directory when it is falsy. */
  method OutputPath(h: Host, outputAudioPath: Option<string>, inputAudioPath: string) returns (p: string)
    modifies h`dirs, h`counter
    ensures p == OrElse(outputAudioPath, Join(Join(TmpDir, "ffmpeg-output-") + Token(old(h.counter)),
      ParseName(inputAudioPath) + ".wav"))
    ensures Truthy(outputAudioPath) ==> h.counter == old(h.counter) && h.dirs == old(h.dirs)
    ensures !Truthy(outputAudioPath) ==>
      h.counter == old(h.counter) + 1 && h.dirs == old(h.dirs) + {Join(TmpDir, "ffmpeg-output-") + Token(old(h.counter))}
  {
    if Truthy(outputAudioPath) {
      p := outputAudioPath.value;
    } else {
      var tempDir := h.MakeTempDirectory("ffmpeg-output-");
      p := Join(tempDir, ParseName(inputAudioPath) + ".wav");
    }
  }

  function WavCommand(input: string, out: string): Command {
    Command([input], None, None, Some("wav"), [], Save(out))
  }

  /** What the conversion leaves behind: the events, the files and the result. */
  datatype Conversion = Conversion(events: seq<Event>, files: map<string, Blob>, result: Result<string>)

  /** The ffmpeg run and its `end` handler: the wav path, or its base64 as a
      `data:audio/wav` URI. */
  function Converted(h: Host, files: map<string, Blob>, input: string, out: string, asBase64: bool): (e: Conversion)
    ensures var cmd := WavCommand(input, out);
      && e.events == [Ran(cmd, h.engine(cmd))]
      && (e.result.Ok? <==> h.engine(cmd).Pass?)
      && (h.engine(cmd).Pass? ==> e.files == files[out := Rendered(cmd)])
      && (h.engine(cmd).Fail? ==> e.files == files)
  {
    var cmd := WavCommand(input, out);
    var o := h.engine(cmd);
    if o.Fail? then Conversion([Ran(cmd, o)], files, Err("Error converting audio to WAV: " + o.message))
    else Conversion([Ran(cmd, o)], files[out := Rendered(cmd)],
      if asBase64 then Ok(WavDataPrefix + h.encode(Rendered(cmd))) else Ok(out))
  }

  method Convert(h: Host, input: string, out: string, asBase64: bool) returns (r: Result<string>)
    modifies h`files, h`history
    ensures var e := Converted(h, old(h.files), input, out, asBase64);
      h.files == e.files && h.history == old(h.history) + e.events && r == e.result
  {
    var cmd := WavCommand(input, out);
    var outcome := h.Run(cmd);
    if outcome.Fail? {
      return Err("Error converting audio to WAV: " + outcome.message);
    }
    if asBase64 {
      var content := h.ReadBase64(out);
      // the source's "Error reading audio file" cannot happen: ffmpeg has just written it
      assert content.Ok?;
      r := Ok(WavDataPrefix + content.value);
    } else {
      r := Ok(out);
    }
  }

  /** The input stage from a state with the given files, directories and
      counter: a data URI is decoded into `temp.<format>` in a fresh
      directory, and any other input must be an existing file. */
  function InputStage(files: map<string, Blob>, dirs: set<string>, counter: nat, input: string): (e: Effect<string>)
    ensures e.result == InputPath(files, dirs, counter, input)
  {
    var p := InputPath(files, dirs, counter, input);
    if p.Err? || !WritesInput(input) then Effect(files, dirs, counter, [], p)
    else
      var blob := Base64Text(ParseAudioDataUri(input).value.data);
      Effect(files[p.value := blob], dirs + {Join(TmpDir, "ffmpeg-input-") + Token(counter)}, counter + 1,
        [Wrote(p.value, blob)], p)
  }

  /** Once the input file exists: the output path (`outputAudioPath`, or
      `<name>.wav` in a fresh directory), then the conversion. */
  function OutputStage(
    h: Host, files: map<string, Blob>, dirs: set<string>, counter: nat,
    inputAudioPath: string, outputAudioPath: Option<string>, asBase64: bool)
    : Effect<string>
  {
    var out := OrElse(outputAudioPath, Join(Join(TmpDir, "ffmpeg-output-") + Token(counter),
      ParseName(inputAudioPath) + ".wav"));
    var e := Converted(h, files, inputAudioPath, out, asBase64);
    Effect(e.files,
      if Truthy(outputAudioPath) then dirs else dirs + {Join(TmpDir, "ffmpeg-output-") + Token(counter)},
      if Truthy(outputAudioPath) then counter else counter + 1,
      e.events, e.result)
  }

  /** `convertAudioToWav` started from a state with the given files,
      directories and counter. */
  function WavConversion(
    h: Host, files: map<string, Blob>, dirs: set<string>, counter: nat,
    input: string, outputAudioPath: Option<string>, asBase64: bool)
    : Effect<string>
  {
    var i := InputStage(files, dirs, counter, input);
    if i.result.Err? then i
    else
      var o := OutputStage(h, i.files, i.dirs, i.counter, i.result.value, outputAudioPath, asBase64);
      Effect(o.files, o.dirs, o.counter, i.events + o.events, o.result)
  }

  /** Nothing happens when the input is rejected: a malformed data URI,
      a missing path or a path that is not a file. */
  lemma WavConversionRejects(
    h: Host, files: map<string, Blob>, dirs: set<string>, counter: nat,
    input: string, outputAudioPath: Option<string>, asBase64: bool)
    requires InputPath(files, dirs, counter, input).Err?
    ensures WavConversion(h, files, dirs, counter, input, outputAudioPath, asBase64)
      == Effect(files, dirs, counter, [], InputPath(files, dirs, counter, input))
  {
  }

  /** Once the input is accepted: a data URI is first written to its
      temporary file; then ffmpeg runs once, on that file, and the
      conversion succeeds exactly when that run does, with the wav file
      (at `outputAudioPath` when it is given) or a `data:audio/wav` URI,
      and fails with "Error converting audio to WAV: " and its message. */
  lemma WavConversionOutcome(
    h: Host, files: map<string, Blob>, dirs: set<string>, counter: nat,
    input: string, outputAudioPath: Option<string>, asBase64: bool)
    requires InputPath(files, dirs, counter, input).Ok?
    ensures var e := WavConversion(h, files, dirs, counter, input, outputAudioPath, asBase64);
      var p := InputPath(files, dirs, counter, input).value;
      var last := e.events[|e.events| - 1];
      && |e.events| == (if WritesInput(input) then 2 else 1)
      && (WritesInput(input) ==> e.events[0] == Wrote(p, Base64Text(ParseAudioDataUri(input).value.data)))
      && last.Ran? && last.cmd.inputs == [p] && last.cmd.format == Some("wav")
      && (e.result.Ok? <==> last.outcome.Pass?)
      && (e.result.Ok? && !asBase64 ==>
            e.result.value in e.files && (Truthy(outputAudioPath) ==> e.result.value == outputAudioPath.value))
      && (e.result.Ok? && asBase64 ==> StartsWith(e.result.value, WavDataPrefix))
      && (e.result.Err? ==> StartsWith(e.result.error, "Error converting audio to WAV: "))
  {
    var i := InputStage(files, dirs, counter, input);
    var o := OutputStage(h, i.files, i.dirs, i.counter, i.result.value, outputAudioPath, asBase64);
    var e := WavConversion(h, files, dirs, counter, input, outputAudioPath, asBase64);
    assert e.events == i.events + o.events;
    if e.result.Ok? && asBase64 {
      var v := e.result.value;
      assert v[..|WavDataPrefix|] == WavDataPrefix;
    }
    if e.result.Err? {
      var m := e.result.error;
      assert m[..|"Error converting audio to WAV: "|] == "Error converting audio to WAV: ";
    }
  }

  method ConvertAudioToWav(h: Host, input: string, outputAudioPath: Option<string> := None, asBase64: bool := false)
    returns (r: Result<string>)
    modifies h
    ensures var e := WavConversion(h, old(h.files), old(h.dirs), old(h.counter), input, outputAudioPath, asBase64);
      && h.files == e.files && h.dirs == e.dirs && h.counter == e.counter
      && h.history == old(h.history) + e.events && r == e.result
  {
    var prepared := PrepareInput(h, input);
    if prepared.Err? {
      return prepared;
    }
    ghost var history1 := h.history;
    ghost var o := OutputStage(h, h.files, h.dirs, h.counter, prepared.value, outputAudioPath, asBase64);
    r := ConvertPrepared(h, prepared.value, outputAudioPath, asBase64);
    AppendAssoc(old(h.history), history1[|old(h.history)|..], o.events);
  }

  method ConvertPrepared(h: Host, inputAudioPath: string, outputAudioPath: Option<string>, asBase64: bool)
    returns (r: Result<string>)
    modifies h
    ensures var e := OutputStage(h, old(h.files), old(h.dirs), old(h.counter), inputAudioPath, outputAudioPath, asBase64);
      && h.files == e.files && h.dirs == e.dirs && h.counter == e.counter
      && h.history == old(h.history) + e.events && r == e.result
  {
    var outputPath := OutputPath(h, outputAudioPath, inputAudioPath);
    r := Convert(h, inputAudioPath, outputPath, asBase64);
  }
}
