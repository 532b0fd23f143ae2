/** The library helpers the core calls but does not define (`@aitube/clap`,
    `@aitube/encoders`, `@aitube/io`, and the unshown
    `startOfSegment1IsWithinSegment2`). Each is a field of a `Library` value,
    so the model says nothing about them beyond their signatures. */
module Lib {
  import opened Clap

  datatype Library = Library(
    /** `extractBase64(uri).extension` */
    extension: string -> string,
    /** `extractBase64(uri).data` */
    payload: string -> string,
    /** `atob(text)` */
    atob: string -> string,
    /** `addBase64Header(data, extension)` */
    addBase64Header: (string, string) -> string,
    /** `startOfSegment1IsWithinSegment2(s1, s2)` */
    isWithin: (Segment, Segment) -> bool,
    /** `filterSegments(ClapSegmentFilteringMode.BOTH, shot, segments, category)` */
    filterSegmentsBoth: (Segment, seq<Segment>, string) -> seq<Segment>,
    /** whether `deleteFilesWithName(dir, pattern)` deletes the entry with this base name */
    nameMatches: (string, string) -> bool,
    /** the values of `ClapSegmentCategory.VIDEO`, `.INTERFACE` and `.DIALOGUE` */
    enumVideo: string,
    enumInterface: string,
    enumDialogue: string,
    /** `${x}` for a JavaScript number that need not be an integer */
    numberText: real -> string,
    /** `${a / b}` for JavaScript numbers, where `b` may be 0 */
    quotientText: (real, real) -> string)
}
