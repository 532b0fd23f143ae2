/** `videoChunksOnly`: the video segments of a project, leaving out a video
    that already spans the whole project. */
module VideoChunksOnly {
  import opened Wrappers
  import opened Strings
  import opened Seqs
  import opened Clap
  import opened Lib

  /** A finished video segment covering the project from 0 to its end. */
  predicate IsEmbeddedFinalVideo(lib: Library, clap: ClapProject, s: Segment) {
    s.category == lib.enumVideo && s.status == "completed" && s.startTimeInMs == 0
    && s.endTimeInMs == clap.meta.durationInMs && s.assetUrl != ""
  }

  /** A video segment whose asset is an inline video. */
  predicate IsVideoChunk(lib: Library, s: Segment) {
    s.category == lib.enumVideo && StartsWith(s.assetUrl, "data:video/")
  }

  /** `ignoreThisVideoSegmentId`: the id of the first embedded final video, or "". */
  function IgnoredId(lib: Library, clap: ClapProject): string {
    match Head(Filter(s => IsEmbeddedFinalVideo(lib, clap, s), clap.segments))
    case None => ""
    case Some(s) => OrElse(Some(s.id), "")
  }

  function VideoChunksOnly(lib: Library, clap: ClapProject): (r: seq<Segment>)
    ensures |r| <= |clap.segments|
  {
    var ignore := IgnoredId(lib, clap);
    Filter(s => IsVideoChunk(lib, s) && s.id != ignore, clap.segments)
  }

  /** A segment is returned exactly when it is a video chunk of the project
      whose id is not the ignored one. */
  lemma VideoChunksOnlyMembers(lib: Library, clap: ClapProject)
    ensures forall s :: s in VideoChunksOnly(lib, clap) <==>
      s in clap.segments && IsVideoChunk(lib, s) && s.id != IgnoredId(lib, clap)
  {
    var ignore := IgnoredId(lib, clap);
    FilterMembers(s => IsVideoChunk(lib, s) && s.id != ignore, clap.segments);
  }

  /** The result keeps the project's order. */
  lemma VideoChunksOnlyOrder(lib: Library, clap: ClapProject)
    ensures IsSubsequence(VideoChunksOnly(lib, clap), clap.segments)
  {
    var ignore := IgnoredId(lib, clap);
    FilterIsSubsequence(s => IsVideoChunk(lib, s) && s.id != ignore, clap.segments);
  }

  /** The ignored id is the id of the first embedded final video. */
  lemma IgnoredIdOfFirstEmbedded(lib: Library, clap: ClapProject, k: int)
    requires IsFirstMatch(s => IsEmbeddedFinalVideo(lib, clap, s), clap.segments, k)
    ensures IgnoredId(lib, clap) == clap.segments[k].id
  {
    HeadOfFilter(s => IsEmbeddedFinalVideo(lib, clap, s), clap.segments, k);
  }

  /** Without an embedded final video the ignored id is "", so only video
      chunks whose id is "" are dropped. */
  lemma NoEmbeddedFinalVideo(lib: Library, clap: ClapProject)
    requires forall j :: 0 <= j < |clap.segments| ==> !IsEmbeddedFinalVideo(lib, clap, clap.segments[j])
    ensures IgnoredId(lib, clap) == ""
    ensures forall s :: s in VideoChunksOnly(lib, clap) <==>
      s in clap.segments && IsVideoChunk(lib, s) && s.id != ""
  {
    HeadOfFilterNone(s => IsEmbeddedFinalVideo(lib, clap, s), clap.segments);
    VideoChunksOnlyMembers(lib, clap);
  }
}
