# Clap exporter: a verified model

The exporter turns a "clap" project into one video file. A clap is a timeline of segments: videos, storyboards, captions ("interface"), dialogue and music. `clapToTmpVideoFilePath` works in five steps:

1. It picks the shots. These are the inline video segments when there are any; otherwise the inline storyboard images are used.
2. It turns each shot into a video file in a working directory:
   - a video shot is written unconverted;
   - a storyboard still is animated by `imageToVideoBase64` with a slow zoom.
3. It burns the shot's first caption into that file, then mixes in its first dialogue.
4. It concatenates the shot files.
5. It concatenates the music files with crossfades, mixes them under the video into `final_video.<format>`, and optionally deletes every `tmp_asset_` file.

Around this core sit the ffmpeg helpers the pipeline uses or ships:

- `concatenateVideos`, `concatenateAudio`, `concatenateVideosWithAudio` and `concatenateVideosAndMergeAudio`;
- `imageToVideoBase64`;
- `cropVideo` and `cropBase64Video`;
- `convertAudioToWav`;
- `videoChunksOnly`, which picks the video chunks of a project.

One Dafny module models each source file, under the source function's name.

## How the world is modelled

`Host.Host` is a class holding the state every operation changes:

- `files`: a map from path to content;
- `dirs`: the directories that exist;
- `counter`: the fresh names handed out so far.

`uuidv4()`, `getRandomDirectory()` and the suffix of `mkdtemp` all yield `Token(counter)`. Each call then increments the counter.

A ghost `history` records every write, deletion, ffmpeg run and caption overlay, in order. The contracts use it to say which files were written, which were deleted and which commands were run.

The model knows only the signatures of the foreign programs. These are ffmpeg (given a `Command` value, it returns `Pass` or `Fail(message)`), ffprobe, `getMediaInfo`, the caption renderer behind `addTextToVideo`, and the helpers of the `@aitube/*` libraries (`Lib.Library`). Each appears as a function-valued constant.

Every operation is specified in the same way:

- A function takes the starting files, directories and counter and returns an `Effect`: the new files, directories and counter, the events appended, and the value resolved or the error thrown.
- The imperative method that mirrors the source promises exactly that effect.
- The lemmas beside the function state what the source promises about it.

A `throw` becomes an `Err` carrying the message the source builds. A `try … finally` becomes a clean-up event that happens on both paths.

Some source quirks are kept as written:

- `concatenateVideosWithAudio` names every written video file after the extension of the *audio* track (`VideoExtensionFromAudio`).
- `clapToTmpVideoFilePath` hands the paths of the music files to `concatenateAudio` as if they were base64 tracks. The file that reaches ffmpeg then holds the path text with a `wav` header (`SoundtrackFromTrackPaths`).
- The single-track case of `concatenateAudio` ignores the `output` argument (`SingleTrackIgnoresOutput`).

## Model

| member | source | states |
|---|---|---|
| ClapToTmpVideoFilePath.NormalisedFormat | src/main.ts:44-46 | the export format is always mp4 or webm, and a supported format is kept |
| ClapToTmpVideoFilePath.MixVolumes | src/main.ts:138-146 | the volumes are exactly (video 0.85, music 0.15) when there is concatenated music and (1.0, 0.0) otherwise; so they add up to 1, the video is always the louder, and the music is audible exactly when there is music |
| ClapToTmpVideoFilePath.ExportShots | src/main.ts:50-83 | the new state is that of the video exporter when the project has inline video shots; otherwise it is that of the storyboard exporter or the no-media error |
| ClapToTmpVideoFilePath.MusicWritesInOrder | src/main.ts:99-113 | the j-th music file is `tmp_asset_<id>.wav` of the j-th inline music segment, written verbatim |
| ClapToTmpVideoFilePath.WriteMusic | src/main.ts:106-113 | the loop writes one file per music segment, in order, returns their paths, and appends exactly those writes |
| ClapToTmpVideoFilePath.AddSoundtrack | src/main.ts:115-126 | the new state is the soundtrack step: nothing happens without music; otherwise `concatenateAudio` runs into `tmp_asset_concatenated_audio.wav` with a 2-second crossfade |
| ClapToTmpVideoFilePath.MixAndClear | src/main.ts:138-154 | the new state is the mixdown followed by the optional clearing |
| ClapToTmpVideoFilePath.MixdownCommands | src/main.ts:138-154 | the mixdown first merges the concatenated shots, then lays the soundtrack, when there is one, over them at the `MixVolumes` volumes into `final_video.<format>`; it resolves exactly when both ffmpeg runs pass |
| ClapToTmpVideoFilePath.Score | src/main.ts:115-154 | the new state is the soundtrack followed by the mixdown, which is skipped when the soundtrack fails |
| ClapToTmpVideoFilePath.Finish | src/main.ts:90-164 | the new state is the concatenation of the shot files, the music writes, the soundtrack and the mixdown, stopping at the first failure |
| ClapToTmpVideoFilePath.ClapToTmpVideoFilePath | src/main.ts:44-164 | the new state and result are the whole export started from the old state |
| ClapToTmpVideoFilePath.ExportWithoutMedia | src/main.ts:48-83 | a project with neither inline videos nor inline storyboards is rejected with the no-media message; no file is written or run, and at most the random working directory is created |
| ClapToTmpVideoFilePath.SegmentSelection | src/main.ts:50-102 | the video shots, storyboards and music are exactly the segments of category "video", "storyboard" and "music" whose asset is an inline video, image or audio URI, each kept in project order; storyboards are used exactly when there is no video shot and at least one storyboard |
| ClapToTmpVideoFilePath.ShotFilesFromVideos | src/main.ts:50-70 | with inline videos, the k-th shot path is that video shot's final file: dialogue mix, else captioned video, else the written asset |
| ClapToTmpVideoFilePath.ShotFilesFromStoryboards | src/main.ts:51-80 | without videos but with storyboards, the k-th shot path is that storyboard shot's final file: dialogue mix, else captioned video, else the animated still |
| ClapToTmpVideoFilePath.FinishedConcatenatesShots | src/main.ts:90-93 | the first command merges the existing shot files, in their order, into `tmp_asset_concatenated_videos.mp4`; if it fails, nothing else happens |
| ClapToTmpVideoFilePath.FinishedWritesMusic | src/main.ts:97-113 | after the concatenation succeeds, the next events write the music files in segment order, each to `tmp_asset_<id>.wav` in the working directory |
| ClapToTmpVideoFilePath.SingleMusicSoundtrack | src/main.ts:115-126 | with one music segment the soundtrack file `audio_0.wav` holds the music file's path with a `wav` header |
| ClapToTmpVideoFilePath.MixedMusicSoundtrack | src/main.ts:115-126 | with several music segments the first crossfade input `audio_1.wav` holds the first music file's path with a `wav` header |
| ClapToTmpVideoFilePath.SoundtrackFromTrackPaths | src/main.ts:115-126 | no music means no soundtrack and no event; otherwise the first thing written holds the first music path, not its audio |
| ClapToTmpVideoFilePath.MixdownEndsWithMix | src/main.ts:138-154 | a successful mixdown resolves with `final_video.<format>` and ends either with the temporary-file removal of `concatenateVideosWithAudio` or, when clearing, with the deletion that leaves no `tmp_asset_` file in the directory; a failure carries the "Failed to assemble video: " prefix |
| ClapToTmpVideoFilePath.ScoredEndsWithMix | src/main.ts:115-154 | the same ending holds after the soundtrack step |
| ClapToTmpVideoFilePath.FinishedEndsWithMix | src/main.ts:90-164 | the same ending holds for the whole tail of the export |
| ClapToTmpVideoFilePath.AfterShotsEndsWithMix | src/main.ts:90-164 | the same ending holds with the `{tmpWorkDir, outputFilePath}` result, whatever the shot step did |
| ClapToTmpVideoFilePath.ExportResult | src/main.ts:44-164 | a successful export resolves with the working directory (the given one, or a fresh one) and `final_video.<normalised format>` in it; with `clearTmpFilesAtEnd` no `tmp_asset_` file is left there; the only deletion by name is that final sweep; without clearing, the final video is left in place |
| ClapToTmpVideoFilePath.ShotFilesNoSweep | src/main.ts:50-83 | making the shot files never deletes files by name pattern |
| ClapToTmpVideoFilePath.SoundtrackNoSweep | src/main.ts:115-126 | the soundtrack step never deletes files by name pattern |
| ClapToTmpVideoFilePath.MixdownSweepsOnlyAtEnd | src/main.ts:138-154 | the `tmp_asset_` sweep comes only after a successful mix with clearing, as the last event; otherwise there is no deletion by name |
| ClapToTmpVideoFilePath.ScoredSweepsOnlyAtEnd | src/main.ts:115-154 | the same holds after the soundtrack step |
| ClapToTmpVideoFilePath.FinishedSweepsOnlyAtEnd | src/main.ts:90-164 | the same holds for the whole tail of the export |
| ClapToTmpVideoFilePath.ExportSweepsOnlyAtEnd | src/main.ts:44-164 | the whole export deletes by name only in the final `tmp_asset_` sweep, which happens exactly after success with clearing and as the last event |
| ClapToTmpVideoFilePath.SoundtrackPath | src/main.ts:115-126 | the soundtrack is `tmp_asset_concatenated_audio.wav` in the working directory, or `audio_0.wav` in a fresh temporary directory for a single music file |
| ClapToTmpVideoFilePath.MixdownKeepsFinalVideo | src/main.ts:138-154 | without clearing, a successful mixdown leaves `final_video.<format>` in place when it is none of the mix's inputs |
| ClapToTmpVideoFilePath.ScoredKeepsFinalVideo | src/main.ts:115-154 | the same holds after the soundtrack step |
| ClapToTmpVideoFilePath.FinishedKeepsFinalVideo | src/main.ts:90-164 | the same holds for the whole tail of the export |
| ClapToTmpVideoFilePath.ExportKeepsFinalVideo | src/main.ts:44-164 | without clearing, a successful export leaves `final_video.<normalised format>` in the working directory |
| VideoChunksOnly.VideoChunksOnlyMembers | src/core/utils/videoChunksOnly.ts:32-38 | a segment is kept exactly when it is a video segment with an inline video asset whose id is not the ignored one |
| VideoChunksOnly.VideoChunksOnlyOrder | src/core/utils/videoChunksOnly.ts:32-38 | the kept segments keep the project's order |
| VideoChunksOnly.IgnoredIdOfFirstEmbedded | src/core/utils/videoChunksOnly.ts:4-14 | the ignored id is that of the first completed, truthy-asset video segment spanning the whole project |
| VideoChunksOnly.NoEmbeddedFinalVideo | src/core/utils/videoChunksOnly.ts:4-36 | without such a segment nothing is ignored but segments with an empty id |
| VideoSegmentToVideoFile.CaptionIsFirstMatch | src/core/exporters/videoSegmentToVideoFile.ts:28-35 | the caption is the first interface segment, in project order, that starts within the shot; there is none exactly when no segment qualifies |
| VideoSegmentToVideoFile.DialogueIsFirstMatch | src/core/exporters/videoSegmentToVideoFile.ts:52-57 | the dialogue is the first inline-audio dialogue segment that starts within the shot; there is none exactly when no segment qualifies |
| VideoSegmentToVideoFile.AssetPathIsNotCaptioned | src/core/exporters/videoSegmentToVideoFile.ts:24-38 | the written asset and the captioned video never share a path, so deleting one never deletes the other |
| VideoSegmentToVideoFile.VideoSegmentToVideoFile | src/core/exporters/videoSegmentToVideoFile.ts:11-81 | the new state and result are the video shot started from the old state |
| VideoSegmentToVideoFile.VideoShotPathChain | src/core/exporters/videoSegmentToVideoFile.ts:21-81 | the asset is written first; the shot resolves with the dialogue mix, else the captioned video, else the asset, which is then all that happened |
| VideoSegmentToVideoFile.VideoShotDeletesSuperseded | src/core/exporters/videoSegmentToVideoFile.ts:36-79 | each superseded file is deleted: the asset once captioned, and the dialogue file and the pre-mix video by the last two events, none of which remain |
| VideoSegmentToVideoFile.VideoShotCaptionText | src/core/exporters/videoSegmentToVideoFile.ts:36-47 | the caption is burnt from the asset into `tmp_asset_<id>_with_interface.mp4` right after the write, with the decoded payload of a `data:text/` caption and the raw URI otherwise |
| VideoSegmentToVideoFile.VideoShotNoSweep | src/core/exporters/videoSegmentToVideoFile.ts:11-81 | a video shot deletes only by path, never by name pattern |
| StoryboardSegmentToVideoFile.AsVideoPathIsNotCaptioned | src/core/exporters/storyboardSegmentToVideoFile.ts:19-44 | the animated still and the captioned video never share a path |
| StoryboardSegmentToVideoFile.DialogueIsFirstAudioMatch | src/core/exporters/storyboardSegmentToVideoFile.ts:61-70 | the dialogue is the first inline-audio segment among the dialogue segments `filterSegments` returns; there is none exactly when none has inline audio |
| StoryboardSegmentToVideoFile.StoryboardSegmentToVideoFile | src/core/exporters/storyboardSegmentToVideoFile.ts:8-98 | the new state and result are the storyboard shot started from the old state |
| StoryboardSegmentToVideoFile.StoryboardShotPathChain | src/core/exporters/storyboardSegmentToVideoFile.ts:19-98 | the still's payload is written first; the shot resolves with the dialogue mix, else the captioned video, else `tmp_asset_<id>_as_video.mp4`, which then exists |
| StoryboardSegmentToVideoFile.StoryboardShotCaptionSupersedes | src/core/exporters/storyboardSegmentToVideoFile.ts:41-59 | a caption deletes the animated still, and without dialogue only the captioned video remains of the two |
| StoryboardSegmentToVideoFile.StoryboardShotDialogueSupersedes | src/core/exporters/storyboardSegmentToVideoFile.ts:70-96 | a dialogue mix ends by deleting the dialogue file and the video it was mixed over, neither of which remain |
| StoryboardSegmentToVideoFile.StoryboardShotNoSweep | src/core/exporters/storyboardSegmentToVideoFile.ts:8-98 | a storyboard shot deletes only by path, never by name pattern |
| ShotSteps.CaptionStepResolves | src/core/exporters/videoSegmentToVideoFile.ts:36-51 | a successful caption resolves with the captioned path and deletes the previous video; a failed one changes no file |
| ShotSteps.Caption | src/core/exporters/videoSegmentToVideoFile.ts:36-51 | the new state is the caption step |
| ShotSteps.Mix | src/core/exporters/videoSegmentToVideoFile.ts:61-73 | writes the dialogue file, then mixes it at full volume over the silent video into `<id>_video_with_audio.mp4` |
| ShotSteps.DialogueStepResolves | src/core/exporters/videoSegmentToVideoFile.ts:58-79 | a successful dialogue step resolves with `<id>_video_with_audio.mp4` and leaves neither the dialogue file nor the previous video; a failure carries the assembly prefix |
| ShotSteps.Discard | src/core/exporters/videoSegmentToVideoFile.ts:74-77 | deletes the dialogue file, then the previous video |
| ShotSteps.Dialogue | src/core/exporters/videoSegmentToVideoFile.ts:58-79 | the new state is the dialogue step |
| ShotSteps.FinishShot | src/core/exporters/videoSegmentToVideoFile.ts:36-81 | the new state is the caption step, if any, followed by the dialogue step, if any |
| ShotSteps.ShotTailPath | src/core/exporters/videoSegmentToVideoFile.ts:36-81 | the shot resolves with the dialogue mix, else the captioned path, else the input video untouched |
| ShotSteps.ShotTailCaptionSupersedes | src/core/exporters/videoSegmentToVideoFile.ts:36-51 | after a caption the input video is deleted, and without dialogue the captioned file exists |
| ShotSteps.ShotTailDialogueSupersedes | src/core/exporters/videoSegmentToVideoFile.ts:58-79 | after a dialogue the last two events delete the dialogue file and the video it was mixed over |
| ShotSteps.DialogueStepNoSweep | src/core/exporters/videoSegmentToVideoFile.ts:58-79 | the dialogue step deletes only the two files it superseded, by path, never by name pattern |
| ShotSteps.ShotTailNoSweep | src/core/exporters/videoSegmentToVideoFile.ts:36-81 | the caption and dialogue steps delete only by path, never by name pattern |
| ShotSteps.RunShotsNoSweep | src/core/exporters/clapWithVideosToVideoFile.ts:21-27 | running shots that never sweep by name never sweeps by name |
| ShotSteps.RunShotsSnoc | src/core/exporters/clapWithVideosToVideoFile.ts:21-27 | running one more shot appends its effect after those of the earlier shots |
| ShotSteps.RunShotsInOrder | src/core/exporters/clapWithVideosToVideoFile.ts:21-27 | the k-th result is the k-th shot's result when started from the state the earlier shots left |
| ShotSteps.CollectKeepsOrder | src/core/exporters/clapWithVideosToVideoFile.ts:21-27 | `Promise.all` resolves exactly when every shot does, with the paths in shot order; otherwise it rejects with the first failure |
| ShotSteps.RunShotsCollect | src/core/exporters/clapWithVideosToVideoFile.ts:21-27 | all shots resolve with their paths in order, or the first failing shot's error is reported |
| ShotSteps.ChooseWorkDirectory | src/core/exporters/clapWithVideosToVideoFile.ts:19 | a given directory is kept; otherwise exactly one fresh directory is created and used |
| ClapWithVideosToVideoFile.ExportAll | src/core/exporters/clapWithVideosToVideoFile.ts:21-27 | the loop leaves the state of running every video shot in order and returns their results |
| ClapWithVideosToVideoFile.ClapWithVideosToVideoFile | src/core/exporters/clapWithVideosToVideoFile.ts:6-34 | the new state and result are the video export started from the old state |
| ClapWithVideosToVideoFile.WithVideosPaths | src/core/exporters/clapWithVideosToVideoFile.ts:19-34 | on success the working directory is returned with one path per shot, in order, each the shot's final file; no shot means no event |
| ClapWithVideosToVideoFile.WithVideosFailure | src/core/exporters/clapWithVideosToVideoFile.ts:21-27 | the export fails exactly when some shot fails, with the error of the first failing shot |
| ClapWithVideosToVideoFile.WithVideosNoSweep | src/core/exporters/clapWithVideosToVideoFile.ts:6-34 | the video export never deletes files by name pattern |
| ClapWithStoryboardsToVideoFile.ExportAll | src/core/exporters/clapWithStoryboardsToVideoFile.ts:21-27 | the loop leaves the state of running every storyboard shot in order and returns their results |
| ClapWithStoryboardsToVideoFile.ClapWithStoryboardsToVideoFile | src/core/exporters/clapWithStoryboardsToVideoFile.ts:19-34 | the new state and result are the storyboard export started from the old state |
| ClapWithStoryboardsToVideoFile.WithStoryboardsPaths | src/core/exporters/clapWithStoryboardsToVideoFile.ts:19-34 | on success the working directory is returned with one path per storyboard, in order, each the shot's final file |
| ClapWithStoryboardsToVideoFile.WithStoryboardsFailure | src/core/exporters/clapWithStoryboardsToVideoFile.ts:21-27 | the export fails exactly when some shot fails, with the error of the first failing shot |
| ClapWithStoryboardsToVideoFile.WithStoryboardsNoSweep | src/core/exporters/clapWithStoryboardsToVideoFile.ts:19-34 | the storyboard export never deletes files by name pattern |
| ConcatenateVideos.AddInputs | src/bug-in-bun/aitube_ffmpeg/concatenate/concatenateVideos.ts:39-43 | the inputs gain the videos in order, and nothing else about the command changes |
| ConcatenateVideos.OutputPath | src/bug-in-bun/aitube_ffmpeg/concatenate/concatenateVideos.ts:33-37 | the path is never empty (the guard cannot fire); it is the given output when truthy, else, for a uuid without `/`, a file of the fresh directory |
| ConcatenateVideos.ConcatenatedMergesExisting | src/bug-in-bun/aitube_ffmpeg/concatenate/concatenateVideos.ts:24-59 | a non-array is refused before anything happens; otherwise one merge runs over the existing paths in order into the output or a fresh `<uuid>.mp4`, and success means the merge passed and the file exists |
| ConcatenateVideos.ConcatenateVideos | src/bug-in-bun/aitube_ffmpeg/concatenate/concatenateVideos.ts:15-60 | the new state and result are the concatenation started from the old state |
| ConcatenateAudio.CrossfadeGraph | src/bug-in-bun/aitube_ffmpeg/concatenate/concatenateAudio.ts:71-78 | the loop builds one crossfade stage per input after the first and leaves the label of the last stage (`0` when there is at most one input) |
| ConcatenateAudio.LabelInjective | src/bug-in-bun/aitube_ffmpeg/concatenate/concatenateAudio.ts:72-77 | distinct stages write distinct labels |
| ConcatenateAudio.StagesExtend | src/bug-in-bun/aitube_ffmpeg/concatenate/concatenateAudio.ts:71-78 | each iteration only appends to the filter |
| ConcatenateAudio.ChainEndsAtOutput | src/bug-in-bun/aitube_ffmpeg/concatenate/concatenateAudio.ts:71-110 | with two or more inputs the graph ends by writing the label passed as the filter's output |
| ConcatenateAudio.AudioPlaceInjective | src/bug-in-bun/aitube_ffmpeg/concatenate/concatenateAudio.ts:60 | distinct track numbers give distinct `audio_<n>.wav` files |
| ConcatenateAudio.AssembleTracks | src/bug-in-bun/aitube_ffmpeg/concatenate/concatenateAudio.ts:55-123 | the new state is the write, filter, mix and clean-up of the several-track case |
| ConcatenateAudio.BuildMixCommand | src/bug-in-bun/aitube_ffmpeg/concatenate/concatenateAudio.ts:90-111 | the command reads the kept paths in order through the crossfade graph into the output |
| ConcatenateAudio.MixTracks | src/bug-in-bun/aitube_ffmpeg/concatenate/concatenateAudio.ts:69-123 | the mix goes to the given output (`??`) or a fresh file; either way the inputs are then removed; the error is "Failed to assemble audio: " with the message, or "Error" when it is empty |
| ConcatenateAudio.SingleTrackIgnoresOutput | src/bug-in-bun/aitube_ffmpeg/concatenate/concatenateAudio.ts:41-49 | one truthy track is written to `audio_0.<format>` in the fresh directory and returned, whatever `output` is, and no ffmpeg command runs |
| ConcatenateAudio.MixedTracksCleanedUp | src/bug-in-bun/aitube_ffmpeg/concatenate/concatenateAudio.ts:51-123 | the tracks are written, the existing given and written paths are crossfaded in order, and the last event removes exactly those paths, none of which remain; success means the mix passed |
| ConcatenateAudio.AudioConcatenationRejects | src/bug-in-bun/aitube_ffmpeg/concatenate/concatenateAudio.ts:32-53 | a non-array `audioTracks` fails with "Audios must be provided in an array" and changes nothing; exactly one caller path, without a single truthy track, fails with "not implemented yet" after only the temporary directory is made; these are the only errors that come with no event |
| ConcatenateAudio.MixedTracksWriteFirstTrack | src/bug-in-bun/aitube_ffmpeg/concatenate/concatenateAudio.ts:57-64 | the first truthy track is written first, as `audio_1.wav` with a `wav` header |
| ConcatenateAudio.ConcatenateAudio | src/bug-in-bun/aitube_ffmpeg/concatenate/concatenateAudio.ts:25-124 | the new state and result are the audio concatenation started from the old state |
| ConcatenateAudio.MixedTracksNoSweep | src/bug-in-bun/aitube_ffmpeg/concatenate/concatenateAudio.ts:51-123 | the several-track case deletes only by path, never by name pattern |
| ConcatenateAudio.AudioConcatenationNoSweep | src/bug-in-bun/aitube_ffmpeg/concatenate/concatenateAudio.ts:25-124 | the audio concatenation never deletes files by name pattern |
| Tracks.WriteTracks | src/bug-in-bun/aitube_ffmpeg/concatenate/concatenateAudio.ts:57-64 | the loop writes each truthy track in order and returns exactly the written paths |
| Tracks.MaterialiseNumbering | src/bug-in-bun/aitube_ffmpeg/concatenate/concatenateAudio.ts:57-64 | the j-th truthy track gets number `first + j`; falsy tracks are skipped and take no number |
| Tracks.WriteStep | src/bug-in-bun/aitube_ffmpeg/concatenate/concatenateVideosWithAudio.ts:55-67 | the body of the `WriteTracks` loop: after track k the written paths, the next number, the files and the history are those of the first k+1 tracks, a falsy track writing nothing |
| ConcatenateVideosWithAudio.MixWhenBothHaveSound | src/bug-in-bun/aitube_ffmpeg/concatenate/concatenateVideosWithAudio.ts:101-116 | with extra audio over a video that has sound, the options mix both through the volume graph into AAC |
| ConcatenateVideosWithAudio.ReplaceWhenVideosAreSilent | src/bug-in-bun/aitube_ffmpeg/concatenate/concatenateVideosWithAudio.ts:117-127 | with extra audio over a silent video, the extra audio replaces the sound without a filter |
| ConcatenateVideosWithAudio.KeepOrDropWithoutExtraTrack | src/bug-in-bun/aitube_ffmpeg/concatenate/concatenateVideosWithAudio.ts:128-136 | without extra audio the original sound is copied exactly when there is one, and dropped otherwise |
| ConcatenateVideosWithAudio.VideoStreamCopied | src/bug-in-bun/aitube_ffmpeg/concatenate/concatenateVideosWithAudio.ts:96-136 | in every case the video stream is copied |
| ConcatenateVideosWithAudio.VideoExtensionFromAudio | src/bug-in-bun/aitube_ffmpeg/concatenate/concatenateVideosWithAudio.ts:54-67 | the j-th truthy video track goes to `video<j+1>.<audio track's extension>` with that extension's header |
| ConcatenateVideosWithAudio.WriteInputs | src/bug-in-bun/aitube_ffmpeg/concatenate/concatenateVideosWithAudio.ts:45-69 | writes the extra audio track, if any, then the video tracks, and keeps the existing given and written video paths |
| ConcatenateVideosWithAudio.Prepare | src/bug-in-bun/aitube_ffmpeg/concatenate/concatenateVideosWithAudio.ts:43-69 | the new state is the fresh directory plus those writes |
| ConcatenateVideosWithAudio.BuildFinalCommand | src/bug-in-bun/aitube_ffmpeg/concatenate/concatenateVideosWithAudio.ts:88-136 | the command reads the merged video and the extra audio, if any, with the options chosen above |
| ConcatenateVideosWithAudio.MixDown | src/bug-in-bun/aitube_ffmpeg/concatenate/concatenateVideosWithAudio.ts:77-177 | the new state is the probe of the merged file, the output choice and the final run |
| ConcatenateVideosWithAudio.MixedDownCommand | src/bug-in-bun/aitube_ffmpeg/concatenate/concatenateVideosWithAudio.ts:77-177 | the mix is exactly one ffmpeg run: it reads the merged video, then the extra audio when its path is non-empty, with `-loglevel debug` and the sound options selected by the extra audio and by whether the merged video has sound, no separate filter graph, saved to the given output or a fresh `<uuid>.<format>`; it resolves exactly when that run passes |
| ConcatenateVideosWithAudio.Assemble | src/bug-in-bun/aitube_ffmpeg/concatenate/concatenateVideosWithAudio.ts:72-177 | the new state is the concatenation followed by the mixdown |
| ConcatenateVideosWithAudio.AssembledCommands | src/bug-in-bun/aitube_ffmpeg/concatenate/concatenateVideosWithAudio.ts:72-177 | the try block first merges the existing kept videos into a fresh `<uuid>.mp4` of a fresh directory; only when that passes does it run the final command over that file, its options chosen by the sound ffmpeg left in it, mixing at the two given volumes; success means both runs passed |
| ConcatenateVideosWithAudio.AssembledResolvesWithOutput | src/bug-in-bun/aitube_ffmpeg/concatenate/concatenateVideosWithAudio.ts:72-183 | success resolves with the given output or a fresh `<uuid>.<format>`; a failure carries "Failed to assemble video: " |
| ConcatenateVideosWithAudio.MixedDownAsBase64 | src/bug-in-bun/aitube_ffmpeg/concatenate/concatenateVideosWithAudio.ts:159-176 | a passing final mix read as base64 resolves with the header for the format over the content ffmpeg saved at the chosen output path, after exactly one ffmpeg run |
| ConcatenateVideosWithAudio.AssembledAsBase64 | src/bug-in-bun/aitube_ffmpeg/concatenate/concatenateVideosWithAudio.ts:152-176 | with `asBase64`, success resolves with the base64 of what the final ffmpeg run saved, with a data-URI header for the format, and that video is at the chosen output path |
| ConcatenateVideosWithAudio.ConcatenationResolvesWithOutput | src/bug-in-bun/aitube_ffmpeg/concatenate/concatenateVideosWithAudio.ts:41-187 | the call always ends by removing the video files and the audio path, none of which remain; success resolves with the output; failure carries the assembly prefix |
| ConcatenateVideosWithAudio.ConcatenationCommands | src/bug-in-bun/aitube_ffmpeg/concatenate/concatenateVideosWithAudio.ts:41-187 | right after the written inputs, the call runs the merge of the kept videos and, when it passes, the final command with the audio path, the two volumes and the chosen output; it resolves exactly when both runs pass |
| ConcatenateVideosWithAudio.ConcatenateVideosWithAudio | src/bug-in-bun/aitube_ffmpeg/concatenate/concatenateVideosWithAudio.ts:29-187 | the new state and result are the whole operation started from the old state, with the source's defaults |
| ConcatenateVideosWithAudio.ConcatenationNoSweep | src/bug-in-bun/aitube_ffmpeg/concatenate/concatenateVideosWithAudio.ts:29-187 | the operation deletes only by path, never by name pattern |
| ConcatenateVideosWithAudio.AssembledNoSweep | src/bug-in-bun/aitube_ffmpeg/concatenate/concatenateVideosWithAudio.ts:72-177 | the try block's two ffmpeg runs delete nothing by name pattern |
| ConcatenateVideosWithAudio.AssembledSavesOutput | src/bug-in-bun/aitube_ffmpeg/concatenate/concatenateVideosWithAudio.ts:72-177 | a successful try block leaves what ffmpeg saved at the given output or the fresh `<uuid>.<format>` |
| ConcatenateVideosWithAudio.ConcatenationKeepsOutput | src/bug-in-bun/aitube_ffmpeg/concatenate/concatenateVideosWithAudio.ts:29-187 | after success the output remains unless it is one of the removed inputs: a given video file, a written video track or the audio file |
| ConcatenateVideosAndMergeAudio.OwnExtension | src/bug-in-bun/aitube_ffmpeg/concatenate/concatenateVideosAndMergeAudio.ts:39-61 | the j-th truthy track is written as number j+1 under its own extension |
| ConcatenateVideosAndMergeAudio.PadsExtend | src/bug-in-bun/aitube_ffmpeg/concatenate/concatenateVideosAndMergeAudio.ts:96 | the pad list only grows as paths are added |
| ConcatenateVideosAndMergeAudio.MixFilterReadsEveryInput | src/bug-in-bun/aitube_ffmpeg/concatenate/concatenateVideosAndMergeAudio.ts:94-98 | the mix filter reads audio inputs 1 to n, in order |
| ConcatenateVideosAndMergeAudio.MergeOptionsMapAudioIffTracks | src/bug-in-bun/aitube_ffmpeg/concatenate/concatenateVideosAndMergeAudio.ts:88-108 | the video is always mapped from the concatenation; the mixed audio, AAC and `-shortest` are used exactly when there are audio inputs |
| ConcatenateVideosAndMergeAudio.BuildMixCommand | src/bug-in-bun/aitube_ffmpeg/concatenate/concatenateVideosAndMergeAudio.ts:88-108 | the command reads the merged video, then every audio path, with the mix when there is audio |
| ConcatenateVideosAndMergeAudio.WriteInputs | src/bug-in-bun/aitube_ffmpeg/concatenate/concatenateVideosAndMergeAudio.ts:39-62 | writes the audio tracks, filters the audio paths, writes the video tracks, then filters the video paths |
| ConcatenateVideosAndMergeAudio.MixDown | src/bug-in-bun/aitube_ffmpeg/concatenate/concatenateVideosAndMergeAudio.ts:87-121 | one run into the output; a failure carries "Failed to assemble video: " |
| ConcatenateVideosAndMergeAudio.Merged | src/bug-in-bun/aitube_ffmpeg/concatenate/concatenateVideosAndMergeAudio.ts:79-121 | the first ffmpeg run merges the existing videos into a fresh `<uuid>.mp4` of a fresh directory; the second runs only if the first passed, and lays every audio file over that merged video into the output, with the mix and the options above; success means both passed, and it resolves with the output, which holds what the mix rendered |
| ConcatenateVideosAndMergeAudio.MergedMixesEveryTrack | src/bug-in-bun/aitube_ffmpeg/concatenate/concatenateVideosAndMergeAudio.ts:79-121 | after success, the mix reads the merged video first and audio file k as input k; its graph takes pad k after the pads before it, and it maps the mixed sound into the output |
| ConcatenateVideosAndMergeAudio.Merge | src/bug-in-bun/aitube_ffmpeg/concatenate/concatenateVideosAndMergeAudio.ts:79-125 | the new state is the concatenation and the mix |
| ConcatenateVideosAndMergeAudio.ConcatenateVideosAndMergeAudio | src/bug-in-bun/aitube_ffmpeg/concatenate/concatenateVideosAndMergeAudio.ts:27-131 | the new state is the preparation, the merge, and the final removal of every kept video and audio path, none of which remain |
| ConcatenateVideosAndMergeAudio.Prepare | src/bug-in-bun/aitube_ffmpeg/concatenate/concatenateVideosAndMergeAudio.ts:37-65 | the new state is the fresh directory, the writes and the output choice |
| ConcatenateVideosAndMergeAudio.FinalOutputPath | src/bug-in-bun/aitube_ffmpeg/concatenate/concatenateVideosAndMergeAudio.ts:65 | a truthy output is used as is; otherwise a fresh `<uuid>.mp4` in the directory |
| ConvertAudioToWav.ParseAudioDataUriComplete | src/bug-in-bun/aitube_ffmpeg/convert/convertAudioToWav.ts:23 | every `data:audio/<mp3 or wav>;base64,<payload>` URI is recognised, with its format and payload |
| ConvertAudioToWav.ParseAudioDataUriSound | src/bug-in-bun/aitube_ffmpeg/convert/convertAudioToWav.ts:23 | only such URIs are recognised, and the parts rebuild the input |
| ConvertAudioToWav.InputPath | src/bug-in-bun/aitube_ffmpeg/convert/convertAudioToWav.ts:22-41 | a malformed data URI gives "Invalid base64 audio data"; a path must be a file, else the directory or missing-file error |
| ConvertAudioToWav.PrepareInput | src/bug-in-bun/aitube_ffmpeg/convert/convertAudioToWav.ts:22-41 | the new state is the input stage: a decoded `temp.<format>` in a fresh `ffmpeg-input-` directory, or the checked path |
| ConvertAudioToWav.OutputPath | src/bug-in-bun/aitube_ffmpeg/convert/convertAudioToWav.ts:44-47 | a truthy output path is kept; otherwise `<input name>.wav` in a fresh `ffmpeg-output-` directory |
| ConvertAudioToWav.Converted | src/bug-in-bun/aitube_ffmpeg/convert/convertAudioToWav.ts:49-69 | one wav conversion runs, and success means it passed and its output exists |
| ConvertAudioToWav.Convert | src/bug-in-bun/aitube_ffmpeg/convert/convertAudioToWav.ts:49-69 | the new state is that conversion |
| ConvertAudioToWav.WavConversionRejects | src/bug-in-bun/aitube_ffmpeg/convert/convertAudioToWav.ts:22-41 | a rejected input changes nothing |
| ConvertAudioToWav.WavConversionOutcome | src/bug-in-bun/aitube_ffmpeg/convert/convertAudioToWav.ts:14-69 | an accepted input is decoded first when it is a URI, then converted; success means the run passed, and yields the given or fresh wav path (which exists) or a `data:audio/wav` URI; a failure carries "Error converting audio to WAV: " |
| ConvertAudioToWav.ConvertAudioToWav | src/bug-in-bun/aitube_ffmpeg/convert/convertAudioToWav.ts:14-69 | the new state and result are the whole conversion started from the old state |
| ConvertAudioToWav.ConvertPrepared | src/bug-in-bun/aitube_ffmpeg/convert/convertAudioToWav.ts:44-69 | the new state is the output choice followed by the conversion |
| CropVideo.CropOffset | src/bug-in-bun/aitube_ffmpeg/transform/cropVideo.ts:46-47 | the offset is the floor of half the surplus, which may be negative |
| CropVideo.CropCentred | src/bug-in-bun/aitube_ffmpeg/transform/cropVideo.ts:46-51 | the window is centred: the margin after it equals the one before, or one more |
| CropVideo.FirstVideoStreamIsFirst | src/bug-in-bun/aitube_ffmpeg/transform/cropVideo.ts:38-42 | the stream used is the first video stream, and there is none exactly when no stream is video |
| CropVideo.CropOption | src/bug-in-bun/aitube_ffmpeg/transform/cropVideo.ts:32-51 | a probe error and a missing video stream give their messages; otherwise the crop filter uses the centred offsets from the first video stream |
| CropVideo.CroppedPathInTempDir | src/bug-in-bun/aitube_ffmpeg/transform/cropVideo.ts:26-27 | the output is `<input name>-cropped.mp4` directly in the fresh directory |
| CropVideo.CropRun | src/bug-in-bun/aitube_ffmpeg/transform/cropVideo.ts:49-73 | exactly one crop runs; success means it passed; a failure carries "Error cropping video: "; with `asBase64` the result is the data URI and the fresh directory is gone with everything in it |
| CropVideo.RunCrop | src/bug-in-bun/aitube_ffmpeg/transform/cropVideo.ts:49-73 | the new state is that crop |
| CropVideo.CropVideo | src/bug-in-bun/aitube_ffmpeg/transform/cropVideo.ts:7-75 | a missing input fails like `stat` and a directory with "Input video file does not exist"; neither changes anything; otherwise one fresh `ffmpeg-crop-` directory is created, then probe and crop follow |
| CropBase64Video.StripVideoHeader | src/bug-in-bun/aitube_ffmpeg/transform/cropBase64Video.ts:17 | the mp4 data-URI header is removed when present, and the text is otherwise unchanged |
| CropBase64Video.StripUndoesHeader | src/bug-in-bun/aitube_ffmpeg/transform/cropBase64Video.ts:17 | stripping undoes adding the header |
| CropBase64Video.CropBase64Video | src/bug-in-bun/aitube_ffmpeg/transform/cropBase64Video.ts:7-64 | two fresh directories are created (input and output); the decoded video is written to `input.mp4`; probe and crop follow into `output-cropped.mp4`, resolving with its path |
| ImageToVideoBase64.DefaultCodec | src/bug-in-bun/aitube_ffmpeg/overlay/imageToVideoBase64.ts:29 | the codec is VP9 exactly for webm |
| ImageToVideoBase64.ImagePayload | src/bug-in-bun/aitube_ffmpeg/overlay/imageToVideoBase64.ts:53 | the payload is what follows the first comma, or the whole text when there is none |
| ImageToVideoBase64.ImagePayloadOfDataUri | src/bug-in-bun/aitube_ffmpeg/overlay/imageToVideoBase64.ts:53-54 | a data URI loses exactly its header |
| ImageToVideoBase64.CropWindowFitsAndKeepsAspect | src/bug-in-bun/aitube_ffmpeg/overlay/imageToVideoBase64.ts:65-81 | the crop fits in the image, keeps one full side, and has the other side at the target aspect rounded down |
| ImageToVideoBase64.ZoomFrames | src/bug-in-bun/aitube_ffmpeg/overlay/imageToVideoBase64.ts:96 | the zoom lasts the duration's frame count rounded up |
| ImageToVideoBase64.ImageOptionsEncode | src/bug-in-bun/aitube_ffmpeg/overlay/imageToVideoBase64.ts:135-142 | the options set the codec, the `<width>x<height>` size, still-image tuning and yuv420p |
| ImageToVideoBase64.Animated | src/bug-in-bun/aitube_ffmpeg/overlay/imageToVideoBase64.ts:131-164 | exactly one render runs; success means it passed and yields a `data:video/<format>` URI; with clearing the output directory is gone with everything in it; nothing is deleted by name pattern |
| ImageToVideoBase64.Animate | src/bug-in-bun/aitube_ffmpeg/overlay/imageToVideoBase64.ts:131-162 | the new state is that render |
| ImageToVideoBase64.ChooseOutputDir | src/bug-in-bun/aitube_ffmpeg/overlay/imageToVideoBase64.ts:48-50 | a truthy directory is used; otherwise exactly one fresh directory is created |
| ImageToVideoBase64.ProbeAndAnimate | src/bug-in-bun/aitube_ffmpeg/overlay/imageToVideoBase64.ts:58-148 | the new state is the probe and, when the image has a stream, the render |
| ImageToVideoBase64.RenderingWritesImageFirst | src/bug-in-bun/aitube_ffmpeg/overlay/imageToVideoBase64.ts:48-164 | the image payload is written first; success yields a data URI of the output format; without clearing, a given output file remains |
| ImageToVideoBase64.ProbedAnimationCommand | src/bug-in-bun/aitube_ffmpeg/overlay/imageToVideoBase64.ts:58-148 | an ffprobe error or an empty stream list ends the call with no further event; otherwise ffmpeg reads the image and saves to the given path or to `output_<uuid>.<format>` in the output directory, cropping the probed size, with each missing side replaced by the target's, with the image output options above, and a fresh name is drawn only when no output path is given |
| ImageToVideoBase64.Rendering | src/bug-in-bun/aitube_ffmpeg/overlay/imageToVideoBase64.ts:22-164 | rendering a still never deletes files by name pattern |
| ImageToVideoBase64.ProbedAnimationNoSweep | src/bug-in-bun/aitube_ffmpeg/overlay/imageToVideoBase64.ts:58-164 | the probe and the render delete at most the whole output directory, never files by name pattern |
| ImageToVideoBase64.PlaceImage | src/bug-in-bun/aitube_ffmpeg/overlay/imageToVideoBase64.ts:48-56 | chooses the directory and writes the decoded image to a fresh `<uuid>.png` there |
| ImageToVideoBase64.ImageToVideoBase64 | src/bug-in-bun/aitube_ffmpeg/overlay/imageToVideoBase64.ts:22-164 | the new state and result are the whole rendering started from the old state, with the source's defaults |
| Host.KeepExistingKeeps | src/bug-in-bun/aitube_ffmpeg/concatenate/concatenateVideos.ts:28 | a path is kept exactly when it was given and exists, in the given order |
| Host.KeepExistingIdempotent | src/bug-in-bun/aitube_ffmpeg/concatenate/concatenateVideos.ts:28 | filtering again, as the callers of `concatenateVideos` make it do, keeps the same paths |
| Host.Host.RandomDirectory | src/bug-in-bun/aitube_ffmpeg/concatenate/concatenateVideos.ts:31 | creates one fresh directory under the temporary directory |
| Host.Host.Uuid | src/bug-in-bun/aitube_ffmpeg/concatenate/concatenateVideos.ts:33 | hands out a fresh name |
| Host.Host.MakeTempDirectory | src/bug-in-bun/aitube_ffmpeg/transform/cropVideo.ts:26 | creates one fresh directory with the given prefix |
| Host.Host.IsFile | src/bug-in-bun/aitube_ffmpeg/transform/cropVideo.ts:21-23 | `stat(…).isFile()`: true for a file, false for a directory, Node's missing-file error otherwise |
| Host.Host.DeleteFile | src/core/exporters/videoSegmentToVideoFile.ts:49 | removes that one file and records the deletion |
| Host.Host.RemoveTemporaryFiles | src/bug-in-bun/aitube_ffmpeg/concatenate/concatenateAudio.ts:121-123 | removes exactly the listed files |
| Host.Host.DeleteFilesWithName | src/main.ts:150-154 | removes exactly the matching entries of that directory |
| Host.Host.RemoveDirectory | src/bug-in-bun/aitube_ffmpeg/overlay/imageToVideoBase64.ts:156-162 | removes the directory and everything under it |
| Host.Host.AddTextToVideo | src/core/exporters/videoSegmentToVideoFile.ts:39-47 | the overlay reads the input file as it was; success creates the captioned output |
| Host.Host.WriteBase64 | src/bug-in-bun/aitube_ffmpeg/concatenate/concatenateVideosWithAudio.ts:50 | the path now holds the given base64 text, every other file is unchanged, and the write is recorded |
| Host.Host.ReadBase64 | src/bug-in-bun/aitube_ffmpeg/concatenate/concatenateVideosWithAudio.ts:164-165 | an existing file yields the base64 of its content; a missing one yields Node's missing-file error; nothing changes |
| Host.Host.Probe | src/bug-in-bun/aitube_ffmpeg/overlay/imageToVideoBase64.ts:59 | the streams or the error that ffprobe reports for what is at the path; nothing changes |
| Host.Host.MediaInfoOf | src/bug-in-bun/aitube_ffmpeg/concatenate/concatenateVideosWithAudio.ts:78 | the media information reported for what is at the path; nothing changes |
| Host.Host.Run | src/bug-in-bun/aitube_ffmpeg/concatenate/concatenateVideos.ts:46-57 | the outcome is ffmpeg's for that command; on `end` the output path holds what the command rendered, on `error` no file changes; the run is recorded |

## Left out

- I/O, console output, and the wiring of fluent-ffmpeg events are not modelled. ffmpeg, ffprobe, `getMediaInfo` and the caption renderer are functions of their inputs that the model knows nothing about (`Host`). A successful ffmpeg run is taken to create its output file.
- The library helpers `extractBase64`, `addBase64Header`, `atob`, `filterSegments`, `startOfSegment1IsWithinSegment2` and the name matching of `deleteFilesWithName` are kept uninterpreted, as fields of `Lib.Library`. `writeBase64ToFile` is taken to resolve with the path it was given.
- The values of `ClapSegmentCategory` are kept uninterpreted too. Where the source compares with string literals instead (`main.ts`, `videoSegmentToVideoFile.ts`), the model uses the literals.
- Fresh names (`uuidv4`, `getRandomDirectory`, `mkdtemp`) come from a counter. The model does not capture a fresh name colliding with a path the caller chose.
- `path.join` is modelled as joining with `/`, without normalising `..`, `.` or doubled separators.
- JavaScript numbers are modelled as Dafny `real`s and integers, without float rounding. The printed form of a non-integer number (a volume, the half-pixel offset and zoom step of `imageToVideoBase64`, the `-t` duration) is the uninterpreted `numberText`/`quotientText` of `Lib.Library`. A segment's `Clap.Segment.assetDurationInMs` is a `nat`, so the fractional or negative durations a JavaScript number could carry into `outputVideoDurationInMs` are not represented.
- ConcatenateAudio.ConcatenateAudio: the crossfade duration is a whole number of seconds; fractional durations are not modelled.
- ImageToVideoBase64.ImageToVideoBase64: requires a positive width and height. With a zero height JavaScript would divide by zero and print `NaN`/`Infinity` into the filter. This requirement carries over to StoryboardSegmentToVideoFile.StoryboardSegmentToVideoFile, ClapWithStoryboardsToVideoFile.ClapWithStoryboardsToVideoFile and ClapToTmpVideoFilePath.ClapToTmpVideoFilePath (the last one only when storyboards are used).
- `Promise.all` over the shots is modelled as running the shots one after another in order, and reporting the first failing shot in list order. Interleavings of concurrent shots are not modelled.
- The callers' arrays are not modelled as shared. `audioFilePaths.push` and `videoFilePaths.push` grow the caller's array in the source; the model only passes values.
- `rm`, `removeTemporaryFiles` and `deleteFile` are taken to succeed. The swallowed removal error of `imageToVideoBase64` is therefore not modelled.
- Some errors are not modelled because the model cannot produce them:
  - the read errors after a successful run ("Error reading audio file", "Error reading output video file", "Error loading the video file"), since an output the model has rendered always exists;
  - the empty-path error of `concatenateVideos`, which `ConcatenateVideos.OutputPath` proves cannot fire.
- `getMediaInfo` failing inside an `end` handler is not modelled: it returns a duration for every file.
- The `<uuid>.png` that the storyboard exporter's `imageToVideoBase64` call leaves in the output directory is modelled but not deleted, as in the source. The temporary directory of `concatenateVideos` is never removed, as in the source.
- `parseArray.ts`, the other ffmpeg helpers (`createVideoFromFrames`, `convertMp4ToMp3`, `convertMp4ToWebm`, `scaleVideo`, `addImageToVideo`, the HTML-to-PNG renderers) and the `addTextToVideo` implementation are not part of this model. `addTextToVideo` is an uninterpreted call.
- ConcatenateVideos.ConcatenatedMergesExisting, ConcatenateVideosAndMergeAudio.Merged, ConcatenateAudio.MixTracks: the `durationInSec` in the result is whatever `getMediaInfo` reports. No property of it is stated.
