/** Writing base64 tracks to numbered files, as the concatenation functions
    do in their `for (const track of tracks)` loops: falsy tracks are skipped
    and the counter only moves for the tracks that are written. */
module Tracks {
  import opened Seqs
  import opened Host

  /** A file a track is written to: its path and the text handed to the writer. */
  datatype Written = Written(path: string, text: string)

  /** The files written for the first `n` of `tracks` when the first written
      one gets number `first`; `place(k, track)` says where track number `k`
      goes. */
  function WrittenUpTo(tracks: seq<string>, n: nat, first: nat, place: (nat, string) -> Written): (r: seq<Written>)
    requires n <= |tracks|
    ensures |r| <= n
  {
    if n == 0 then []
    else
      var init := WrittenUpTo(tracks, n - 1, first, place);
      if tracks[n - 1] == "" then init else init + [place(first + |init|, tracks[n - 1])]
  }

  /** The files written for all of `tracks`. */
  function Materialise(tracks: seq<string>, first: nat, place: (nat, string) -> Written): (r: seq<Written>)
    ensures |r| <= |tracks|
  {
    WrittenUpTo(tracks, |tracks|, first, place)
  }

  /** The tracks a loop writes: the truthy ones. */
  function NonEmptyTracks(tracks: seq<string>): seq<string> {
    Filter(t => t != "", tracks)
  }

  function PathsOf(ws: seq<Written>): (r: seq<string>)
    ensures |r| == |ws|
  {
    if ws == [] then [] else PathsOf(ws[..|ws| - 1]) + [ws[|ws| - 1].path]
  }

  function WritesOf(ws: seq<Written>): (r: seq<Event>)
    ensures |r| == |ws|
  {
    if ws == [] then [] else WritesOf(ws[..|ws| - 1]) + [Wrote(ws[|ws| - 1].path, Base64Text(ws[|ws| - 1].text))]
  }

  /** The file system after the writes, in order. */
  function ApplyWrites(files: map<string, Blob>, ws: seq<Written>): map<string, Blob> {
    if ws == [] then files
    else ApplyWrites(files, ws[..|ws| - 1])[ws[|ws| - 1].path := Base64Text(ws[|ws| - 1].text)]
  }

  /** Every written path exists afterwards. */
  lemma {:induction false} ApplyWritesHas(files: map<string, Blob>, ws: seq<Written>)
    ensures forall j :: 0 <= j < |ws| ==> ws[j].path in ApplyWrites(files, ws)
  {
    if ws != [] {
      ApplyWritesHas(files, ws[..|ws| - 1]);
    }
  }

  /** One file per truthy track among the first `n`, and the j-th file holds
      the j-th truthy track under number `first + j`. */
  lemma {:induction false} WrittenUpToNumbering(tracks: seq<string>, n: nat, first: nat, place: (nat, string) -> Written)
    requires n <= |tracks|
    ensures |WrittenUpTo(tracks, n, first, place)| == |NonEmptyTracks(tracks[..n])|
    ensures forall j :: 0 <= j < |NonEmptyTracks(tracks[..n])| ==>
      WrittenUpTo(tracks, n, first, place)[j] == place(first + j, NonEmptyTracks(tracks[..n])[j])
  {
    if n > 0 {
      var init := WrittenUpTo(tracks, n - 1, first, place);
      var before := NonEmptyTracks(tracks[..n - 1]);
      var now := NonEmptyTracks(tracks[..n]);
      var t := tracks[n - 1];
      WrittenUpToNumbering(tracks, n - 1, first, place);
      assert tracks[..n] == tracks[..n - 1] + [t];
      FilterSnoc(u => u != "", tracks[..n - 1], t);
      if t == "" {
        assert now == before;
        assert WrittenUpTo(tracks, n, first, place) == init;
      } else {
        assert now == before + [t];
        assert WrittenUpTo(tracks, n, first, place) == init + [place(first + |init|, t)];
        forall j | 0 <= j < |now|
          ensures WrittenUpTo(tracks, n, first, place)[j] == place(first + j, now[j])
        {
          if j < |before| {
            assert now[j] == before[j];
          }
        }
      }
    }
  }

  lemma MaterialiseNumbering(tracks: seq<string>, first: nat, place: (nat, string) -> Written)
    ensures |Materialise(tracks, first, place)| == |NonEmptyTracks(tracks)|
    ensures forall j :: 0 <= j < |NonEmptyTracks(tracks)| ==>
      Materialise(tracks, first, place)[j] == place(first + j, NonEmptyTracks(tracks)[j])
  {
    WrittenUpToNumbering(tracks, |tracks|, first, place);
    assert tracks[..|tracks|] == tracks;
  }

  /** The j-th path is the j-th file's. */
  lemma {:induction false} PathsOfAt(ws: seq<Written>, j: nat)
    requires j < |ws|
    ensures PathsOf(ws)[j] == ws[j].path
    decreases |ws|
  {
    if j < |ws| - 1 {
      PathsOfAt(ws[..|ws| - 1], j);
    }
  }

  /** The j-th write event is the j-th file's. */
  lemma {:induction false} WritesOfAt(ws: seq<Written>, j: nat)
    requires j < |ws|
    ensures WritesOf(ws)[j] == Wrote(ws[j].path, Base64Text(ws[j].text))
    decreases |ws|
  {
    if j < |ws| - 1 {
      WritesOfAt(ws[..|ws| - 1], j);
    }
  }

  /** Writing files deletes nothing by name. */
  lemma WritesOfNoSweep(ws: seq<Written>)
    ensures NoSweep(WritesOf(ws))
  {
    forall j | 0 <= j < |WritesOf(ws)| ensures !WritesOf(ws)[j].DeletedMatching? {
      WritesOfAt(ws, j);
    }
  }

  /** A truthy first track is the first one written, under number `first`. */
  lemma FirstMaterialised(tracks: seq<string>, first: nat, place: (nat, string) -> Written)
    requires |tracks| > 0 && tracks[0] != ""
    ensures |Materialise(tracks, first, place)| > 0
    ensures Materialise(tracks, first, place)[0] == place(first, tracks[0])
    ensures WritesOf(Materialise(tracks, first, place))[0]
      == Wrote(place(first, tracks[0]).path, Base64Text(place(first, tracks[0]).text))
  {
    MaterialiseNumbering(tracks, first, place);
    assert NonEmptyTracks(tracks)[0] == tracks[0];
    WritesOfAt(Materialise(tracks, first, place), 0);
  }

  /** Appending one file to a list of writes. */
  lemma PathsSnoc(ws: seq<Written>, w: Written)
    ensures PathsOf(ws + [w]) == PathsOf(ws) + [w.path]
  {
    assert (ws + [w])[..|ws|] == ws;
  }

  lemma WritesSnoc(ws: seq<Written>, w: Written)
    ensures WritesOf(ws + [w]) == WritesOf(ws) + [Wrote(w.path, Base64Text(w.text))]
  {
    assert (ws + [w])[..|ws|] == ws;
  }

  lemma ApplySnoc(files: map<string, Blob>, ws: seq<Written>, w: Written)
    ensures ApplyWrites(files, ws + [w]) == ApplyWrites(files, ws)[w.path := Base64Text(w.text)]
  {
    assert (ws + [w])[..|ws|] == ws;
  }

  /** The body of the loop in `WriteTracks`: track `k` is written under
      number `i` unless it is falsy, and the written paths, the number, the
      files and the history go from those of the first `k` tracks to those of
      the first `k + 1`. */
  method WriteStep(
    h: Host, tracks: seq<string>, k: nat, first: nat, place: (nat, string) -> Written,
    written: seq<string>, i: nat, ghost files0: map<string, Blob>, ghost history0: seq<Event>)
    returns (written': seq<string>, i': nat)
    requires k < |tracks|
    requires i == first + |WrittenUpTo(tracks, k, first, place)|
    requires written == PathsOf(WrittenUpTo(tracks, k, first, place))
    requires h.files == ApplyWrites(files0, WrittenUpTo(tracks, k, first, place))
    requires h.history == history0 + WritesOf(WrittenUpTo(tracks, k, first, place))
    modifies h`files, h`history
    ensures i' == first + |WrittenUpTo(tracks, k + 1, first, place)|
    ensures written' == PathsOf(WrittenUpTo(tracks, k + 1, first, place))
    ensures h.files == ApplyWrites(files0, WrittenUpTo(tracks, k + 1, first, place))
    ensures h.history == history0 + WritesOf(WrittenUpTo(tracks, k + 1, first, place))
  {
    ghost var done := WrittenUpTo(tracks, k, first, place);
    written', i' := written, i;
    var track := tracks[k];
    if track != "" {
      var w := place(i, track);
      assert WrittenUpTo(tracks, k + 1, first, place) == done + [w];
      PathsSnoc(done, w);
      WritesSnoc(done, w);
      ApplySnoc(files0, done, w);
      h.WriteBase64(w.text, w.path);
      written' := written + [w.path];
      i' := i + 1;
    } else {
      assert WrittenUpTo(tracks, k + 1, first, place) == done;
    }
  }

  /** Writes each truthy track with `WriteBase64`, numbering from `first`. */
  method WriteTracks(h: Host, tracks: seq<string>, first: nat, place: (nat, string) -> Written)
    returns (written: seq<string>)
    modifies h`files, h`history
    ensures written == PathsOf(Materialise(tracks, first, place))
    ensures h.files == ApplyWrites(old(h.files), Materialise(tracks, first, place))
    ensures h.history == old(h.history) + WritesOf(Materialise(tracks, first, place))
  {
    written := [];
    var i := first;
    var k := 0;
    ghost var files0 := h.files;
    ghost var history0 := h.history;
    while k < |tracks|
      invariant 0 <= k <= |tracks|
      invariant i == first + |WrittenUpTo(tracks, k, first, place)|
      invariant written == PathsOf(WrittenUpTo(tracks, k, first, place))
      invariant h.files == ApplyWrites(files0, WrittenUpTo(tracks, k, first, place))
      invariant h.history == history0 + WritesOf(WrittenUpTo(tracks, k, first, place))
    {
      written, i := WriteStep(h, tracks, k, first, place, written, i, files0, history0);
      k := k + 1;
    }
  }
}
