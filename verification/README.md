# diy-vlog-generater: planning core in Dafny

diy-vlog-generater is a Flask service that cuts uploaded phone videos into
short vlogs. The main job builds a "beat video": one-second flashes of the
first clip at the beat times, then the second clip played fast with a
running `MM:SS` timer, and a music track muxed in by ffmpeg. The route
hands the beat times over as the raw form string, so only the default
beats (field absent) or no beats (field empty) get through; see
Findings. The two "maozibi" jobs overlay one clip on another (picture in
picture), trimmed to the shorter clip; the second one also draws a score
caption. The planner also has a merge that joins the head of one clip to
the tail of another (`process_videos`), but no route calls it. Every job
records its progress in a small task table that the status page reads.

This project models the planning layer around the media engines (MoviePy,
cv2, PIL, ffmpeg) and proves properties of it. The engines are not
modelled. A clip is reduced to its duration and frame size. Whatever an
engine reports back enters as a parameter: probed durations, whether a
file exists, an exit code.

The modules are:

- `Common` (common.dfy): `Option`/`Result`, the `Clip` abstraction, and
  the Python primitives the planners rely on:
  - `str.split`/`rsplit` on the last separator, `str.replace` and
    `str.strip() == ""`;
  - slice-bound normalisation;
  - `math.ceil`, `int()` and `//`.
- `Envelope` (envelope.dfy): the JSON envelope of utils.py.
- `TaskRegistry` (task_registry.dfy): the `TaskStatus` table of
  database.py. It is a class over a `map` from task id to row, with
  create, get, update and exists. `update_task_status` is the keyword loop
  over `setattr` followed by `save`.
- `Zoom` (zoom.dfy): the integer crop geometry of the zoom effect in
  video_processor.py.
- `BeatVideo` (beat_video.dfy): the rest of video_processor.py:
  - beat selection, the timer labels and the clip order;
  - the music loop/trim plan and the ffmpeg mux call;
  - the file sequence of `create_beat_video` and the preview windows.
- `PipPlanner` (pip_planner.dfy): video_process.py. This covers the head
  and tail segments, the concat list, the trim to the shorter clip, the
  overlay rectangle and caption, and the temporary-file bookkeeping. The
  planner is a class over its temporary directory.
- `WebApp` (web_app.dfy): app.py. This covers the guard chains of the
  upload routes, stored file names, the rows each route writes, and the
  ordered status updates of every background job.

Conventions:

- Durations are `real`.
- Python's `int()` of a non-negative float is `.Floor`.
- Python's `//` on integers with a positive divisor is Dafny's `/`.
- Frame sizes are `nat`.
- The clock is one `now: int` parameter.
- Task ids, uuid-drawn file ids and temporary directories are parameters.

## Model

| member | source | states |
|---|---|---|
| Common.Resized | video_processor.py:157-164 | resizing a clip changes its frame size to the requested one and keeps its duration |
| Common.Ceil | video_processor.py:238-239 | `math.ceil`: the least integer not below the argument |
| Common.AfterLast | app.py:390 | `s.split(c)[-1]` contains no `c` and is a suffix of `s` |
| Common.AfterLastSplits | app.py:390 | when `c` occurs, the text after the last `c` is immediately preceded by a `c` |
| Common.AfterLastAppend | app.py:390-391 | the extension of `<stem>.<ext>` is `ext` whenever `ext` has no '.' |
| Common.ReplaceAllAbsent | video_processor.py:80 | `str.replace` leaves a string without the pattern unchanged |
| Common.ReplaceAllLengthens | video_processor.py:80 | a longer replacement makes a string holding the pattern strictly longer, and never shorter |
| Common.DecimalString | video_processor.py:371 | `str(n)` is a non-empty run of decimal digits |
| Common.DigitsValueOfDecimal | video_processor.py:371 | reading the digits of `str(n)` back gives n |
| Common.SliceBound | video_processor.py:207-210 | a Python slice bound normalised into [0, len] |
| Common.SliceLength | video_processor.py:207-210 | a numpy slice never yields more than the axis length |
| Envelope.RespData | utils.py:4-11 | `success` is true iff `code == 0`; code, data and message are carried through |
| Envelope.Success | utils.py:24-25 | code 0, message "success", the given data, success flag set |
| Envelope.Error | utils.py:28-29 | no data, the given code and message; the flag is true iff the code is 0 |
| Envelope.RespPageList | utils.py:14-21 | a success envelope whose data is the {list, total, page} record |
| TaskRegistry.FieldNamed | database.py:137-147 | exactly the column names `status`, `message`, `progress`, `created_at`, `completed_at`, `video_filename`, `video_url`, `status_url`, `updated_at` name a field, one each |
| TaskRegistry.WithField | database.py:176-177 | `setattr` changes the named field to the value and every other field not at all |
| TaskRegistry.LastAssignedAt | database.py:175-177 | the last keyword naming a field decides its value |
| TaskRegistry.LastAssignedNone | database.py:175-177 | no keyword naming a field means no assignment |
| TaskRegistry.ApplyKwargsField | database.py:175-177 | after the keyword loop a field holds the last value assigned to it, or its old value if no keyword names it; unknown keys are ignored |
| TaskRegistry.CreateDefaults | database.py:140-147 | a created row holds the column default (pending, '', 0, nulls, the creation stamp) for every field no keyword names |
| TaskRegistry.UpdateFrame | database.py:171-181 | an update leaves other rows unchanged, and in its own row every field its keywords do not name (besides `updated_at`) |
| TaskRegistry.ViewOf | database.py:157-166 | the view carries status, message and progress; `completed_at` is None exactly when the stored value is falsy |
| TaskRegistry.TaskTable.constructor | database.py:194-197 | the table starts empty |
| TaskRegistry.TaskTable.CreateTaskStatus | database.py:139-186 | succeeds iff the id is new; the new table is the old one plus the defaults overridden by the keywords and saved, and a duplicate id leaves it unchanged |
| TaskRegistry.TaskTable.GetTaskStatus | database.py:153-168 | None iff the id is unknown, otherwise the row's view |
| TaskRegistry.TaskTable.UpdateTaskStatus | database.py:171-181 | True iff the id exists; the new table is the old one with that row's keyword loop applied and saved, and an unknown id changes nothing |
| TaskRegistry.TaskTable.TaskExists | database.py:189-191 | true iff the id is in the table, which is also when `GetTaskStatus` answers non-None |
| Zoom.ZoomKindFor | video_processor.py:184-331 | the fallback order: cv2 dynamic, PIL dynamic, static `image_transform` (preferred when both hooks exist), then static `fl_image`, resize round trip, no zoom, each chosen exactly under its capability condition |
| Zoom.StaticZoomAxis | video_processor.py:272-304 | `int(n*1.03) >= n`; the centred offset is non-negative, the window fits inside, the margins differ by at most 1, and the crop keeps exactly n pixels |
| Zoom.DynamicZoomAxis | video_processor.py:202-210 | as written: the magnified size is non-negative and the slice never yields more than it |
| Zoom.DynamicZoomKeepsSizeWhenEnlarging | video_processor.py:202-210 | for scale >= 1 the cv2 crop keeps the axis size |
| Zoom.DynamicZoomUndersizedCrop | video_processor.py:198-210 | at scale 0.95 a 1920 x 1080 frame is cropped to 48 x 27 |
| Zoom.DynamicZoomShrinkLosesSize | video_processor.py:202-210 | any scale that floors below n loses pixels |
| Zoom.ClampedZoomAxis | video_processor.py:202-210 | with the scale clamped at 1 the window lies inside the magnified frame and keeps exactly n pixels |
| Zoom.PilZoomAxis | video_processor.py:238-256 | the rounded size is even and within one of the ceiling; the output is the base size; for scale >= 1 the box is n rounded down to even |
| Zoom.PilEvenBox | video_processor.py:238-245 | for scale >= 1 the even size covers n and `even - 2x == n - n % 2` |
| BeatVideo.BeatClipFor | video_processor.py:143-177 | for 0 <= b < duration, `0 <= start <= b < end <= duration`; the clip lasts 1.0 s at 1920 x 1080; zoomed iff the original index is > 0 |
| BeatVideo.BeatClipsUpToMembers | video_processor.py:137-179 | every kept clip comes from an in-range beat and is that beat's clip |
| BeatVideo.BeatClipsUpToOrdered | video_processor.py:137-179 | kept clips are in strictly increasing beat-index order |
| BeatVideo.BeatClipsUpToCovers | video_processor.py:137-179 | every in-range beat yields a clip |
| BeatVideo.BeatClipsSelect | video_processor.py:133-182 | a beat is kept iff it is below the duration; kept clips keep input order, last 1.0 s, and are zoomed iff their original index (skipped beats included) is > 0 |
| BeatVideo.CreateBeatClips | video_processor.py:133-182 | the loop yields exactly `BeatClipsOf`, which `BeatClipsSelect` characterises |
| BeatVideo.ClipsOf | video_processor.py:71-77 | the engine clips of the beat clips, in order |
| BeatVideo.Pad2TwoDigits | video_processor.py:369-371 | `{n:02d}` of n < 100 is its two decimal digits |
| BeatVideo.TimerLabelRoundTrip | video_processor.py:366-371 | for t < 6000 the label has the shape `MM:SS`, its seconds part is < 60, and reading it back gives t |
| BeatVideo.MainClip | video_processor.py:336-359 | the sped-up clip is resized to the canvas |
| BeatVideo.AddTimer | video_processor.py:333-408 | `int(d)+1` one-second labels, label k is `TimerLabel(k)`, together they outlast the sped-up video and the joined timer is cut to its duration |
| BeatVideo.CombineClips | video_processor.py:447-489 | the beat clips in order, then the main clip, all at canvas size; total duration is the beat total plus the main clip's |
| BeatVideo.BeatTimeTotal | video_processor.py:166-168 | n one-second beat clips last n seconds together |
| BeatVideo.ResizedTotal | video_processor.py:453-481 | resizing does not change the total duration |
| BeatVideo.TimelineDuration | video_processor.py:67-77 | the beat video lasts (kept beats x 1.0) + the sped-up second clip |
| BeatVideo.TwelveSecondExample | video_processor.py:67-77 | two 12 s clips, beats [1, 3, 5], speed 2 give a 9 s video |
| BeatVideo.AddBackgroundMusic | video_processor.py:519-599 | unchanged iff the track is missing (or empty, which raises and is caught); looped iff it is shorter, with `int(v/a)+1` copies outlasting the video and one fewer not; the soundtrack always ends at exactly the video's length |
| BeatVideo.SumOfCopies | video_processor.py:550-557 | k copies of an a-second track last k x a seconds |
| BeatVideo.LoopsOutlast | video_processor.py:545-548 | `(int(v/a)+1) x a > v >= int(v/a) x a` |
| BeatVideo.AddBackgroundMusicSimple | video_processor.py:601-646 | never loops; unchanged iff the track is missing; trims iff the track is at least as long; the soundtrack lasts min(audio, video) |
| BeatVideo.MuxArgvReadsBack | video_processor.py:672-683 | the argv's inputs are exactly [video, music] in that order, its last word is the output, and it maps video 0 and audio 1 |
| BeatVideo.NoInputOptions | video_processor.py:672-683 | an argv without `-i` names no input |
| BeatVideo.AddMusicWithFfmpeg | video_processor.py:648-702 | ffmpeg runs iff the music file (default: the bundled track) exists, with the fixed argv; the result is true iff it exists and the run exits 0 (non-zero exit, timeout or exception give false) |
| BeatVideo.TempPathDistinct | video_processor.py:80 | the temp path differs from the output path iff the output path contains ".mp4" |
| BeatVideo.SilentFallbackNeverFires | video_processor.py:97-107 | as written, after a failed mux the temp file is gone and the output exists only if it already did; with no prior files nothing is left |
| BeatVideo.KeepSilentAlwaysLeavesOutput | video_processor.py:97-107 | with the rename before the delete, the output always exists afterwards, the temp file never does, and other files are kept |
| BeatVideo.CreateBeatVideo | video_processor.py:50-131 | fails iff the silent encode fails; otherwise the beat clips, the timeline, the sped-up main clip with its `int(d)+1` labels `00:00` upwards that outlast it, the temp path, the mux call and the files left are exactly those of the planners above |
| BeatVideo.PreviewBeatPoints | video_processor.py:704-719 | one line per beat, in range iff the beat is below the duration, the window clamped to [0, duration] around the beat |
| PipPlanner.JoinDistinct | video_process.py:257-258 | two distinct relative names under one directory are distinct paths |
| PipPlanner.Mp4NamesDiffer | video_process.py:311-336 | names built from stems of different length differ |
| PipPlanner.Mp4NameRelative | video_process.py:311-336 | `<stem><id>.mp4` with a relative stem is relative |
| PipPlanner.HeadSegment | video_process.py:272-273 | starts at 0 and lasts min(10, d) |
| PipPlanner.TailSegment | video_process.py:275-277 | start >= 0, length <= 10, and for d >= 0 it ends exactly at d |
| PipPlanner.SegmentsOfShortAndLongClips | video_process.py:272-277 | a clip up to 10 s is used whole at both ends; a longer one yields exactly its first and last 10 s |
| PipPlanner.FirstIndexOf | video_process.py:94-96 | the first position of a character |
| PipPlanner.SplitAfter | video_process.py:94-96 | splitting `a + c + rest` with no `c` in `a` gives `a` and then the split of `rest` |
| PipPlanner.FileLineRoundTrip | video_process.py:95-96 | a `file '<p>'` line holds no newline and gives p back |
| PipPlanner.ConcatListRoundTrip | video_process.py:93-96 | the list file has exactly two lines and reads back as the first path, then the second |
| PipPlanner.OverlayRect | video_process.py:163-169 | the overlay is W//4 x H//4 with its right edge 10 px inside and its top at 10 |
| PipPlanner.OverlayInsideIff | video_process.py:163-169 | the overlay lies inside the main frame iff W >= 13 and H >= 13 |
| PipPlanner.ScoreCaption | video_process.py:216-225 | the caption is the score at (20, 20) in max(24, W//40) points |
| PipPlanner.TrimCut | video_process.py:323-334 | a clip is cut iff it is strictly longer than the other, and then from 0 to the shorter duration |
| PipPlanner.AtMostOneCut | video_process.py:323-334 | never both clips are cut, and a cut clip gets the other's length |
| PipPlanner.VideoProcessor.constructor | video_process.py:22-23 | the planner keeps its temporary directory |
| PipPlanner.VideoProcessor.ProcessVideos | video_process.py:245-297 | empty uploads are refused, first clip first, with nothing written; on success the uploads and segments sit at `video1_/video2_/segment1_/segment2_<id>.mp4` in the temporary directory, the plan has the head and tail segments, the list file `concat_list.txt` and its text, `output/merged_<id>.mp4`, and deletes the four intermediates but never the list file; an engine failure deletes only the two uploads |
| PipPlanner.ListFileIsNoClip | video_process.py:93 | the fixed list file is never one of a job's clip files |
| PipPlanner.VideoProcessor.ComposePip | video_process.py:320-359 | `PipComposed`: succeeds iff engine and music are available; on failure deletes just the uploads; on success trims exactly the longer clip into `trimmed_video0_/1_<id>.mp4`, places the overlay rectangle, draws the caption iff a score is given, names the output, and deletes `PipTempFiles` of the plan |
| PipPlanner.VideoProcessor.ProcessMaozibiVideos | video_process.py:299-359 | empty uploads refused in order with nothing written; otherwise `PipComposed` with the uploads at `video0_/video1_<id>.mp4`, no caption, `pip_maozibi_` and `maozibi_<id>.mp4`; on success 3 files are deleted, 4 when the durations differ |
| PipPlanner.VideoProcessor.ProcessMaozibiScoreVideos | video_process.py:361-423 | as above, with a blank score refused after the uploads, the score caption drawn, `pip_maozibi_score_` and `maozibi_score_<id>.mp4` |
| PipPlanner.PipCleanupComplete | video_process.py:344-348 | the deleted list holds both uploads, the composed clip and exactly the trimmed copies made (3 files, 4 when the durations differ), so the clips fed to the overlay are deleted |
| WebApp.TwoVideoGuard | app.py:219-285 | passes iff both files are present, chosen and declared video; a missing field, then an empty name, then the first type, then the second are reported in that order |
| WebApp.ScoreGuard | app.py:321-338 | passes iff the two-video checks pass and the score is not blank; a blank score is reported exactly when the files are present and chosen |
| WebApp.ScoreGuardOrder | app.py:328-338 | a blank score is reported before any content-type error; with a real score the chain answers as the two-video one |
| WebApp.SingleVideoGuard | app.py:374-384 | passes iff the file is present, chosen and declared video |
| WebApp.ImageGuard | app.py:412-418 | passes iff the file is present and its mimetype starts with `image/` |
| WebApp.ExtensionOf | app.py:390-422 | with a '.', the extension has no '.' and the name ends in `.` + extension; without one it is the route's default |
| WebApp.StoredNameKeepsExtension | app.py:390-423 | the stored name `<prefix><id>.<ext>` gives its extension back |
| WebApp.PendingRow | app.py:240-294 | a pending row has status pending, the route's message, progress 0, the creation stamp and no status link |
| WebApp.StatusUrlOnly | app.py:305-308 | setting `status_url` changes that field only |
| WebApp.ProcessVideosWeb | app.py:215-265 | a refused request changes nothing; a new id adds the pending row and answers success with the status links, the creation stamp and the beat job over the two saved uploads |
| WebApp.CreateMaozibiTask | app.py:287-314 | `MaozibiTaskCreated`: a known id answers 500 and changes nothing; a new id adds the pending row, then its public status link, and redirects to the status page with the job |
| WebApp.MaozibiWeb | app.py:268-314 | a refused request answers 400 and changes nothing; otherwise `MaozibiTaskCreated` (the whole new table, or 500 on a known id), and a new row is pending at 0, created now, with its public status link |
| WebApp.MaobiziScoreWeb | app.py:317-367 | as above behind the score guard, with the score handed to the job |
| WebApp.ProcessSingleVideoWeb | app.py:370-407 | refused with 400 iff the guard fails; a passing request always gets the result page, saved in the output folder as `single_video_<id>.<ext>` and linked under the public host |
| WebApp.ImageEmptyDataAsWritten | app.py:426-461 | as written, an empty image upload is answered with 500 |
| WebApp.ImageResponse | app.py:410-461 | 500 iff the guard passes, the data is non-empty and the save failed; 400 iff the guard fails or the data is empty; a success iff the guard passes, the data is non-empty and the save worked, linking `output/maozibi_img_<id>.<ext>` |
| WebApp.ImageResponseAsWritten | app.py:410-461 | 400 iff the guard fails; 500 iff the guard passes and the data is empty or the save failed; a success iff the guard passes, the data is non-empty and the save worked, linking `output/maozibi_img_<id>.<ext>` |
| WebApp.ImageResponsesAgreeOnData | app.py:426-461 | on non-empty data the corrected answer equals the answer as written |
| WebApp.MaozibiImgWeb | app.py:410-461 | answers `ImageResponseAsWritten`; only a success updates the table, and then only a row that already existed |
| WebApp.GetTaskStatusPage | app.py:464-474 | 404 iff the task is unknown; otherwise its view as JSON for POST and as the page for GET |
| WebApp.ApplyUpdatesFrame | app.py:40-206 | a job's updates never add or remove rows nor touch other tasks, and on an unknown id change nothing |
| WebApp.LastUpdateField | app.py:40-206 | after one more update a field holds what that update assigns or keeps its value |
| WebApp.CompletedAssigns | app.py:69-75 | the completion update sets status completed, progress 100, the file name, the link and the completion time |
| WebApp.FailedAssigns | app.py:82-83 | the failure update sets status error and progress 0 |
| WebApp.BeatTimesTextRejected | app.py:222-257 | the field "1,2,3" fails the beat job as written (a string reaches the beat loop) and reads as beats 1, 2, 3 as intended |
| WebApp.SecondsOfTimesText | app.py:222 | splitting whole-second beats written with commas and reading each piece gives the beats back |
| WebApp.BeatTimesRoundTrip | app.py:222-257 | any non-empty list of whole-second beats, written as the client writes it, is read back as the same beats |
| WebApp.ThreePieces | app.py:222 | three comma-separated pieces are read as their three values, in order |
| WebApp.BeatTimesFractionExample | video_processor.py:730 | fractional beats like those of the planner's example list ("0.0,4.5,19") are read as 0.0, 4.5 and 19 |
| WebApp.ProcessVideosBackground | app.py:40-88 | the table ends as the beat job's update sequence leaves it: the success sequence iff the beat times are usable and the silent encode succeeds, the failure one otherwise |
| WebApp.BeatJobOutcome | app.py:40-88 | the beat row ends completed at 100 with `processed_video_<id>.mp4` and its link, or error at 0 |
| WebApp.MaozibiFfmpegMissingKeepsProgress | app.py:104-106 | without ffmpeg the row ends with status error and progress still 20 |
| WebApp.MaozibiJobOutcome | app.py:91-206 | with ffmpeg the row ends completed at 100 with the public link, or error at 0 |
| WebApp.MaozibiBackground | app.py:91-206 | the table ends as the maozibi update sequence leaves it, which succeeds iff both uploads are non-empty, the score is not blank, and engine and music are available |

## Left out

- Every MoviePy, cv2, PIL and ffmpeg-python call is left out: decoding, resampling, subclip, composite, encode and probe. A clip is its duration and size, and the engine's answers are parameters.
- The per-frame zoom scale `1 + 0.05 sin(2 pi t)` is floating-point trigonometry. The dynamic zoom takes the scale as a parameter.
- File writes, `os.remove`, `shutil.move`, `tempfile.mkdtemp` and `subprocess` are reduced to the plans and the sets of files they leave.
- The ffmpeg availability probes (`_check_ffmpeg_availability`, `check_ffmpeg`) and `get_video_duration` are engine and environment probing. Their answers are parameters.
- `__del__` cleanup of the temporary directory and the `close()` calls are resource release with no effect on the plan.
- `ThreadPoolExecutor` and the asyncio loops exist for concurrency. The jobs are sequential methods; an interleaving of two jobs on one row is not modelled.
- Flask's `render_template`, `redirect`, `jsonify` and `url_for` are reduced to response values. Abort messages are reduced to a reason.
- The health, index, favicon and output-file routes are not part of this model, nor are `QRCodeGenerator`, start_flask.py, config.py, `CRUDMixin`, `DatabaseConfig` and `create_tables`.
- Timestamps are one `now` per call. `isoformat()` rendering is not modelled.
- A `task_id` or `id` keyword would re-key the row and is not modelled. No caller passes one.
- `WebApp.TwoVideoGuard`, `WebApp.SingleVideoGuard`: a missing `content_type` (None) raises AttributeError and gives a 500. This is not modelled; content types are strings.
- `WebApp.ImageGuard`: the mimetype is taken as given. Werkzeug's derivation of it from the upload is not modelled.
- `BeatVideo.AddTimer`: requires a positive speed factor. A zero or negative factor goes to the engine's speed call, whose behaviour is not modelled. The static fallbacks used when `TextClip` fails are not modelled either.
- `BeatVideo.CreateBeatVideo`: requires a non-negative second-clip duration. Engine failures are collapsed to one flag (`encodeOk`). The `subclip`, resize and `with_duration` fallbacks are taken to succeed.
- `BeatVideo.CombineClips`: the per-clip resize and the repair pass after a failed concatenation are taken to succeed.
- `BeatVideo.AddBackgroundMusic`: a failure of the engine's loop or trim calls, caught and answered with the unchanged video, is not modelled beyond the empty-track case.
- The `transition_duration` setting (0.5 s) is never read by the source. It is declared as a constant only.
- `PipPlanner.VideoProcessor.ProcessVideos`, `ComposePip`: engine failures at any step collapse to one flag. The exception message text is not modelled.
- `WebApp.ProcessVideosBackground`, `WebApp.MaozibiBackground`: failure messages carry the engine's error text as a parameter. A failure after completion, while deleting the uploads, is not modelled.
- `PipPlanner.FileLineRoundTrip`, `PipPlanner.ConcatListRoundTrip`: the list file is read back by the model's own line reader, not by ffmpeg's concat parser. The source does not escape a `'` in a path, which ffmpeg would read as the end of the quoted name; the temporary paths built here hold no quote unless the temporary directory does.
- `WebApp.MaozibiImgWeb`: the row it updates is never created by the route, so the update normally does nothing. The route, the update and its error codes are modelled as written; the corrected answer `ImageResponse` is stated beside it. Its `image_filename` keyword names no column and is dropped.
- `WebApp.ProcessVideosBackground`: uses the beat times as written (`BeatTimesFor`). The format `BeatTimesIntended` reads (comma-separated seconds, whole or with a decimal fraction) is an assumption, as the page that fills the field is not part of this model.

## Findings

| source | as written | input that shows it | evidently intended | confidence | as-written member | corrected member |
|---|---|---|---|---|---|---|
| video_processor.py:97-107 | the temporary silent video is deleted before the fallback checks whether it exists, so the rename that should keep a silent version never happens | any run where the mux fails (music missing, non-zero exit or timeout): no output file is left | rename the silent video to the output when muxing failed, and delete it only otherwise | high, not executed | BeatVideo.SilentFallbackNeverFires | BeatVideo.KeepSilentAlwaysLeavesOutput |
| video_processor.py:202-210 | the cv2 dynamic zoom computes the crop start `(new - n) // 2` without clamping; for scale < 1 it is negative, Python counts it from the end, and the slice keeps a sliver | scale 0.95 (progress 0.75) on 1920 x 1080 gives a 48 x 27 frame | clamp the magnified size at the canvas (scale >= 1) so the crop keeps the frame size | high, not executed | Zoom.DynamicZoomUndersizedCrop | Zoom.ClampedZoomAxis |
| app.py:426-461 | `abort(400)` for empty image data is raised inside `try`; `except Exception` catches the HTTPException and answers 500 | an image upload with a valid mimetype and zero bytes | answer 400 for empty data; 500 only for a failed save | high, not executed | WebApp.ImageEmptyDataAsWritten | WebApp.ImageResponse |
| app.py:222-257 | the `times` form field is passed on as a string; the beat loop (video_processor.py:137-139) iterates its characters and compares each with a float, which raises TypeError | a beat request with `times` = "1,2,3" ends in status error | parse the field into a list of seconds (whole or fractional, as in video_processor.py:730) before handing it to the job | medium, not executed | WebApp.BeatTimesTextRejected | WebApp.BeatTimesRoundTrip |
