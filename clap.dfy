/** The timeline project ("clap") the exporter reads: a canvas and an ordered
    list of segments. The pipeline never changes it. */
module Clap {

  datatype Segment = Segment(
    id: string,
    category: string,
    startTimeInMs: int,
    endTimeInMs: int,
    status: string,
    assetUrl: string,
    assetDurationInMs: nat)

  datatype ClapMeta = ClapMeta(width: nat, height: nat, durationInMs: int)

  datatype ClapProject = ClapProject(meta: ClapMeta, segments: seq<Segment>)
}
