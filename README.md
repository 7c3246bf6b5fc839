# YOLO detection and tracking service: a Dafny model of its core logic

The service takes uploaded images and videos, and frames from a webcam. It runs
a YOLO detector with a tracker on them, draws the results on a copy of each
frame, and reports the results over HTTP and Socket.IO. This project models
the sequential logic under that glue and proves properties of it:

- **Upload validation and naming** (`FileHandler`, file_handler.dfy):
  - the image and video extension whitelists, matched case-insensitively on the last extension only;
  - the stored upload name `prefix_hex.ext`;
  - the result URL `/static/results/result_<name>`.
- **Record shaping and annotation policy** (tracking_detector.dfy, plain_detector.dfy, drawing.dfy):
  - the tracker's and the detector's raw answers become records;
  - `draw_results` and `draw_detections` become lists of draw commands on a copy of the frame. Tracked objects are red and all others green. The caption is `"<class> <conf>"`, with `" ID:<id>"` only for tracked objects. The caption sits 10 px above the box.
- **FPSCounter** (fps_counter.dfy): a class holding the sliding window of the most recent timestamps, and the rate over it.
- **Capture handles** (video_capture.py → video_capture.dfy): an OpenCV handle as a class with a fixed frame sequence and a read cursor, and the `VideoCapture` wrapper with its `cap is None` state.
- **The batch job `process_video`** (tasks.dfy):
  - the frame loop as a method over a capture handle and a video-writer object;
  - the loop is proved against a specification function `RunSpec` of the whole run (outcome, PROGRESS updates, frames written);
  - lemmas about progress, the result record, and the failure cases the code has.
- **The live stream** (socket_handler.dfy):
  - `WebcamStream` as a class, its worker loop, and the `active_streams` registry;
  - the `get_detections` event;
  - every emitted message is tied to a specification function of the frames read.
- **The HTTP routes of app.py and src/web/app.py** (routes.dfy):
  - the upload-check order;
  - image processing and video submission, including the differing `save_output` default;
  - the task-state to response mapping;
  - `update_config`, which is applied key by key and is not atomic;
  - stream start and stop on the registry.

Collaborators that cannot be seen or run become inputs:
- **The detector:** a function from a frame and a confidence threshold to the model's answer, or None when the call raised.
- **`:.2f` float formatting:** a function from reals to strings.
- **The clock and elapsed times:** values.
- **werkzeug's `secure_filename`:** a function.
- **The uuid:** a string.
- **`float()` and `int()` on request text:** parsers that yield a value or an error message.
- **`cv2.imread`:** a function that may fail.

Three behaviours of the code are easy to miss:
- src/detection_and_tracking/detector.py holds no trajectory code. The trajectory settings that `get_config` and `update_config` use are modelled as stored values; see "## Left out".
- A job that is still queued has no result yet, so the status route reports it as not found (see `Routes.PendingNeedsResult`).
- When inference fails in the live stream, `detect_and_track` returns no records. The worker still draws the frame and emits it, with an empty detection list (`SocketHandler.MessagesBelongToStream` covers every frame read).

## Model

| member | source | states |
|---|---|---|
| `Common.Trunc` | src/detection_and_tracking/detector.py:82 | `int()` of a float truncates toward zero: for x ≥ 0, n ≤ x < n+1; for x < 0, n−1 < x ≤ n |
| `PlainDetector.ShapeBox` | src/detection/detector.py:73-83 | a detection's corners are the box's corners truncated toward zero; its confidence and class index are the box's, and its name is the class's entry in the name table |
| `TrackingDetector.ShapeBox` | src/detection_and_tracking/detector.py:75-87 | as for detection, and the track id is the box's id when it has one and None otherwise |
| `Common.Lower` | src/web/utils.py:45 | `str.lower()` keeps the length and lowers every ASCII capital, position by position |
| `Common.LowerIdempotent` | src/web/utils.py:26 | lowering an already lowered extension changes nothing |
| `Common.LowerKeepsDots` | src/web/utils.py:26 | lowering neither creates nor removes a dot |
| `FileHandler.LastDot` | src/web/utils.py:45 | the split point of `rsplit('.', 1)`: None iff there is no dot; otherwise a dot with no dot after it |
| `FileHandler.Extension` | src/web/utils.py:45 | `rsplit('.', 1)[1]` exists iff the name has a dot; it is dot-free, and the name is stem + "." + it |
| `FileHandler.LastDotOfJoin` | src/web/utils.py:45 | in stem + "." + a dot-free extension, the last dot is the joining one, whatever the stem holds |
| `FileHandler.ExtensionOfJoin` | src/web/utils.py:45 | the extension of stem + "." + a dot-free extension is that extension |
| `FileHandler.LastDotUnique` | src/web/utils.py:45 | a dot with no dot after it is the last dot |
| `FileHandler.AllowedByIff` | src/web/utils.py:43-50 | a name passes a whitelist iff it has a dot with no dot after it and the lowered rest is in the whitelist |
| `FileHandler.IsAllowedImageIff` | src/web/utils.py:43-45 | `is_allowed_image` iff there is a last dot and the lowered text after it is png, jpg, jpeg or bmp |
| `FileHandler.IsAllowedVideoIff` | src/web/utils.py:48-50 | `is_allowed_video` iff there is a last dot and the lowered text after it is mp4, avi, mov or mkv |
| `FileHandler.IsAllowedImage` | src/web/utils.py:43-45 | an accepted image name has a dot, and its last extension has 3 or 4 characters, the lengths on the image whitelist (`IsAllowedImageIff` gives the full condition) |
| `FileHandler.IsAllowedVideo` | src/web/utils.py:48-50 | an accepted video name has a dot, and its last extension has 3 characters, the length of every entry on the video whitelist (`IsAllowedVideoIff` gives the full condition) |
| `FileHandler.TxtOnNoWhitelist` | src/web/utils.py:14-15 | "txt" is already lower case and is on neither the image nor the video whitelist |
| `FileHandler.UpperCaseImageAccepted` | src/web/utils.py:43-45 | "A.JPG" is an accepted image: case is ignored |
| `FileHandler.DoubleExtensionRejected` | src/web/utils.py:43-45 | "x.jpg.txt" is rejected: only the last extension counts |
| `FileHandler.UnknownExtensionRejected` | src/web/utils.py:43-50 | "test.txt" is neither an image nor a video |
| `FileHandler.NoDotRejected` | src/web/utils.py:44 | a name without a dot, the empty name included, passes neither check |
| `FileHandler.NoNameIsImageAndVideo` | src/web/utils.py:14-15 | the whitelists are disjoint, so no name passes both checks |
| `FileHandler.UploadName` | src/web/utils.py:25-27 | `save_upload`'s name exists iff the sanitised name has a dot (else IndexError); it is `prefix_`, then the uuid hex exactly, then a dot and the lowered last extension of the sanitised name |
| `FileHandler.UploadNameDeterminesHex` | src/web/utils.py:25-27 | two stored names under one prefix are equal only if their uuid hex strings are equal, so distinct hex values never collide |
| `FileHandler.UploadNameKeepsVerdict` | src/web/utils.py:25-27 | the stored name passes the image and video checks exactly when the sanitised name does |
| `FileHandler.OriginalOfResultUrl` | src/web/utils.py:36-40 | the inverse of the result URL: what it recovers is the URL minus the `/static/results/result_` prefix |
| `FileHandler.ResultUrlRoundTrip` | src/web/utils.py:36-40 | recovering the name from `result URL of n` gives n, and only URLs built from n give n back |
| `FileHandler.SaveResult` | src/web/utils.py:34-40 | `save_result`'s URL starts with `/static/results/` and gives back the original file name |
| `FileHandler.SaveVideoResult` | src/web/utils.py:52-60 | `save_video_result` returns the same URL as `save_result` for the same original name, whatever the output path |
| `FileHandler.ResultUrlInjective` | src/web/utils.py:36-40 | distinct original names give distinct result URLs |
| `Drawing.BoxCommands` | src/detection_and_tracking/detector.py:114-124 | one rectangle from (x1,y1) to (x2,y2), then one caption at (x1, y1−10), both in the given colour |
| `Drawing.IntToString` | src/detection_and_tracking/detector.py:111 | `str()` of an int: non-empty, starting with a digit iff the value is non-negative |
| `Drawing.NatToString` | src/detection_and_tracking/detector.py:111 | the decimal digits of a natural number: non-empty, digits only, and starting with '0' only for 0 (no leading zeros) |
| `Drawing.NatToStringValue` | src/detection_and_tracking/detector.py:111 | reading the digits back as a decimal number gives the number |
| `Drawing.IntToStringRoundTrip` | src/detection_and_tracking/detector.py:111 | `int(str(n)) == n` for every integer, negative ones included |
| `Drawing.IntToStringInjective` | src/detection_and_tracking/detector.py:111 | two track ids give the same `ID:` text only when they are equal |
| `TrackingDetector.ShapeAll` | src/detection_and_tracking/detector.py:73-87 | one record per box, in order, each shaped from its own box |
| `TrackingDetector.TrackRecords` | src/detection_and_tracking/detector.py:61-93 | no records when tracking raised, there are no boxes, or a class has no name; otherwise one per box, with truncated corners, the box's confidence, class and name, and a track id exactly when the box has one |
| `TrackingDetector.DetectAndTrack` | src/detection_and_tracking/detector.py:71-89 | the appending loop returns exactly `TrackRecords` of the tracker's answer |
| `TrackingDetector.ObjectColor` | src/detection_and_tracking/detector.py:104 | red (0,0,255) iff the object has a track id, green (0,255,0) iff it has none |
| `TrackingDetector.ObjectLabelShape` | src/detection_and_tracking/detector.py:106-112 | the caption starts with `"<class> <conf>"` and equals it iff there is no track id; with one, the rest is `" ID:<id>"` |
| `TrackingDetector.ObjectLabel` | src/detection_and_tracking/detector.py:107-112 | the caption is as long as `"<class> <conf>"` without a track id, and exactly 4 + the id's digits longer with one (the `" ID:"` part and the id); `ObjectLabelShape` gives its contents |
| `TrackingDetector.Commands` | src/detection_and_tracking/detector.py:99-124 | two commands per object |
| `TrackingDetector.CommandsSlice` | src/detection_and_tracking/detector.py:99-124 | commands 2i and 2i+1 are exactly object i's rectangle and caption |
| `TrackingDetector.CommandsAt` | src/detection_and_tracking/detector.py:99-124 | object i's rectangle is at its corners and its caption 10 px above; both are in its colour, red iff tracked |
| `TrackingDetector.DrawResults` | src/detection_and_tracking/detector.py:95-126 | `draw_results` draws on a copy of the input frame: the frame is kept as the copy's source, and the commands are those of `Commands`, in object order |
| `PlainDetector.ShapeAll` | src/detection/detector.py:71-83 | one detection per box, in order |
| `PlainDetector.DetectionRecords` | src/detection/detector.py:65-89 | no records when inference raised, has no box list, or a class has no name; otherwise one per box with truncated corners, confidence, class and name, and never a track id |
| `PlainDetector.Detect` | src/detection/detector.py:70-85 | the appending loop returns exactly `DetectionRecords` |
| `PlainDetector.Commands` | src/detection/detector.py:104-118 | two commands per detection |
| `PlainDetector.CommandsSlice` | src/detection/detector.py:104-118 | commands 2i and 2i+1 are detection i's rectangle and label |
| `PlainDetector.CommandsAt` | src/detection/detector.py:104-118 | detection i's rectangle is at its corners and its label, exactly `"<class> <conf>"`, is 10 px above; both green |
| `PlainDetector.AllGreen` | src/detection/detector.py:109-118 | every command `draw_detections` issues is green, whatever the detection |
| `PlainDetector.DrawDetections` | src/detection/detector.py:102-120 | draws on a copy: the source frame is kept, and the commands are those of `Commands` in order |
| `DisplayUtils.SlideShape` | src/utils/display_utils.py:13-15 | characterises `Slide`, the window step of `update`: one update appends the new time and evicts at most the oldest one; below capacity the window grows by one, and at capacity it keeps its length |
| `DisplayUtils.Rate` | src/utils/display_utils.py:17-19 | 0.0 for at most one timestamp; otherwise undefined (ZeroDivisionError) iff first and last are equal, else rate × span = window length |
| `DisplayUtils.WindowIsRecentSuffix` | src/utils/display_utils.py:12-15 | after any history, the window is exactly the last min(calls, avg_frames) timestamps, in arrival order |
| `DisplayUtils.WindowLength` | src/utils/display_utils.py:13-15 | the window never exceeds `avg_frames`; it grows by one per call until full, then stays constant |
| `DisplayUtils.FirstUpdateIsZero` | src/utils/display_utils.py:8-19 | the first update on a fresh counter returns 0.0 |
| `DisplayUtils.FpsCounter.constructor` | src/utils/display_utils.py:8-10 | the window starts empty |
| `DisplayUtils.FpsCounter.Update` | src/utils/display_utils.py:12-19 | `update` slides the window in place, keeps it equal to the recent suffix of all timestamps seen, and returns its rate |
| `Capture.FrameSource.Read` | src/utils/video_capture.py:49-53 | an OpenCV read succeeds iff the handle is open and frames remain; it then yields the next frame and advances by one, and otherwise nothing moves |
| `Capture.FrameSource.Release` | src/utils/video_capture.py:61 | releasing marks the handle released and keeps the cursor |
| `Capture.VideoCapture.constructor` | src/utils/video_capture.py:10-19 | a new wrapper holds its source and no handle |
| `Capture.VideoCapture.Start` | src/utils/video_capture.py:21-36 | a raising open returns False and leaves `cap`; otherwise `cap` is the new handle, kept even when closed, and the result is whether it opened |
| `Capture.VideoCapture.ReadFrame` | src/utils/video_capture.py:38-56 | (False, None) when `cap` is None; otherwise the handle's read: a frame exactly when one was read |
| `Capture.VideoCapture.Release` | src/utils/video_capture.py:58-62 | releases the handle if there is one and sets `cap` to None; a second call changes nothing |
| `Capture.VideoCapture.Enter` | src/utils/video_capture.py:64-67 | starts, ignores the outcome and returns the wrapper itself |
| `Capture.VideoCapture.Exit` | src/utils/video_capture.py:69-71 | always releases and clears `cap` |
| `Capture.WithCapture` | src/utils/video_capture.py:64-71 | a `with` block releases the handle however it went; it reads exactly the handle's next frames when it opened, and none otherwise |
| `Tasks.VideoWriter.constructor` | src/web/tasks.py:47 | a new writer at the output path holds no frames |
| `Tasks.VideoWriter.Write` | src/web/tasks.py:63 | `out.write` appends the frame |
| `Tasks.VideoWriter.Release` | src/web/tasks.py:77 | `out.release` keeps what was written |
| `Tasks.ProgressReports` | src/web/tasks.py:66-71 | one PROGRESS update per frame, the k-th being (k+1) / total × 100 |
| `Tasks.Progress` | src/web/tasks.py:67 | the percentage lies between 0 and 100 while the frame count does not exceed the total, and is exactly 100 when they are equal |
| `Tasks.AnnotateAll` | src/web/tasks.py:52-63 | the job draws exactly one annotated copy per frame it reads |
| `Tasks.AnnotateAllAt` | src/web/tasks.py:57-59 | copy `k` is drawn on frame `k`, with the commands for that frame's own tracker answer at the job's threshold |
| `Tasks.AnnotatePrefix` | src/web/tasks.py:52-63 | handling one more frame appends that frame's annotated copy |
| `Tasks.LastDrawn` | src/web/tasks.py:59 | `processed_frame` after the loop: unbound (None) iff no frame was handled, else the last frame's copy |
| `Tasks.ProcessNext` | src/web/tasks.py:53-63 | one read: on success the next frame's copy, which the writer (if any) gains, so it still holds the copies of all frames read; on failure nothing moves |
| `Tasks.ProcessFrame` | src/web/tasks.py:57-63 | detect, draw and (with a writer) write one frame; the writer gains exactly that copy |
| `Tasks.ProcessFrames` | src/web/tasks.py:49-71 | the loop counts every frame read, writes their copies in order, reports progress after each, and leaves `processed_frame` at the last copy; with a reported count of 0 it stops after the first frame, before any report |
| `Tasks.ProcessVideo` | src/web/tasks.py:22-105 | `process_video` ends exactly as `RunSpec` says (outcome, PROGRESS updates, frames written) and releases the capture and the writer on every path |
| `Tasks.RunSpec` | src/web/tasks.py:22-105 | a run completes iff the video opens and, with no frames, no output is saved, and, with frames, the frame count is non-zero; a completed run processed every frame and issued one PROGRESS update per frame; when output is saved from an opened video with frames, the writer receives every annotated frame and then the last one again, or only the first one when the frame count is 0; otherwise it receives nothing |
| `Tasks.UnopenedFailsWithoutProgress` | src/web/tasks.py:32-34 | an unopenable video fails before any PROGRESS update and writes nothing |
| `Tasks.CompletedRun` | src/web/tasks.py:82-94 | a completed run counted every frame, reported once per frame, and carries an output URL iff output was requested, naming the upload |
| `Tasks.ProgressNonDecreasing` | src/web/tasks.py:66-71 | with a positive frame count, progress never decreases, and it ends at 100 when the count was exact |
| `Tasks.UndercountOvershoots` | src/web/tasks.py:67 | a container that under-reports its frame count drives progress past 100 |
| `Tasks.CompletedOutputFrames` | src/web/tasks.py:62-77 | with output, every frame's copy is written in order and the last copy once more after the loop |
| `Tasks.EmptyVideoWithOutputFails` | src/web/tasks.py:75-77 | with no readable frame, saving fails (unbound `processed_frame`); not saving completes with 0 frames and no URL |
| `Tasks.ZeroFrameCountFails` | src/web/tasks.py:66-67 | a reported count of 0 fails after the first frame is processed and written, before any PROGRESS update |
| `SocketHandler.Messages` | src/web/socket_handler.py:56-76 | one 'frame' message per frame read |
| `SocketHandler.MessagesSnoc` | src/web/socket_handler.py:56-76 | reading one more frame appends that frame's message |
| `SocketHandler.MessagesBelongToStream` | src/web/socket_handler.py:71-76 | every message carries this stream's id and draws exactly the detections it carries; message k is drawn from frame k and stamped with its clock reading |
| `SocketHandler.FrameEvent` | src/web/socket_handler.py:61-76 | one iteration's message is that frame's tracker records at the stream's threshold, drawn on a copy of it |
| `SocketHandler.StreamStep` | src/web/socket_handler.py:57-76 | one read: on success the sent messages grow by that frame's message and the latest detections become its records; on failure nothing changes |
| `SocketHandler.StreamLoop` | src/web/socket_handler.py:54-79 | with the stop event set nothing is read; otherwise the loop reads until a read fails, and emits exactly `Messages` of the frames read, with the latest detections those of the last message |
| `SocketHandler.WebcamStream.constructor` | src/web/socket_handler.py:21-31 | no capture, no worker, stop event clear, no detections; the frame rate is 2 in testing mode and the argument otherwise |
| `SocketHandler.WebcamStream.Start` | src/web/socket_handler.py:33-41 | the handle is kept; "Could not open webcam" and no worker iff it did not open |
| `SocketHandler.WebcamStream.Stop` | src/web/socket_handler.py:43-52 | sets the stop event and releases the capture if there is one |
| `SocketHandler.WebcamStream.RunWorker` | src/web/socket_handler.py:54-79 | the worker appends one message per frame read to the emitted stream and leaves `latest_detections` at the last message's detections |
| `SocketHandler.StreamRegistry.constructor` | src/web/socket_handler.py:82 | `active_streams` starts empty |
| `SocketHandler.GetDetections` | src/web/socket_handler.py:116-138 | a detection_error "Invalid stream ID: <id>" iff the id is missing, empty or unregistered; otherwise that stream's latest detections |
| `Routes.CheckUpload` | app.py:63-93 | accepted iff the field is present, the name non-empty and the extension allowed; otherwise missing_file ("No image file provided" / "No video file provided"), then invalid_file, then invalid_file_type, all 400 (same checks at app.py:140-170 and src/web/app.py:62-169) |
| `Routes.CheckUploadAccepts` | app.py:85-93 | an upload is accepted iff its last extension, lowered, is on the medium's whitelist |
| `Routes.AcceptedUploadIsStorable` | app.py:86-101 | when `secure_filename` leaves an accepted name unchanged, storing it raises no IndexError and the stored name passes the same whitelist |
| `Routes.DotsOnlyImageAccepted` | src/web/utils.py:43-45 | "..png" passes the image whitelist |
| `Routes.DotDroppedBySanitizingFails` | src/web/utils.py:25-26 | an accepted image whose sanitised name has no dot left (e.g. "..png", which `secure_filename` reduces to "png") fails with a 500 processing_error carrying the IndexError text |
| `Routes.FormNumber` | app.py:96-97 | a form number is its default when the field is absent, and the parser's verdict otherwise |
| `Routes.ProcessImage` | app.py:59-134 | a failed upload check is answered with that check's own 400 error; otherwise the route succeeds exactly when both form numbers parse, the sanitised name has an extension and the stored image can be read, and every other failure is a 500 processing_error (a bad threshold carries its parser's message); success returns the tracker records at the requested threshold, a result URL naming the stored `img_` upload, and the copy drawn with them (same route at src/web/app.py:58-133) |
| `Routes.SubmitVideo` | app.py:136-207 | a failed upload check is answered with that check's own 400 error; otherwise the route succeeds exactly when both form numbers parse, the sanitised name has an extension and, in app.py only, the stored file exists; every other failure is a 500 processing_error; success queues the stored upload's path with the parsed threshold, width and save flag, and only src/web/app.py:135-203 adds a status, always the value "processing" (src/web/app.py:191) |
| `Routes.SaveOutputDefaults` | app.py:175 | without `save_output` app.py does not save and src/web/app.py:174 does; given the field, only a case-insensitive "true" saves |
| `Routes.VideoStatus` | app.py:209-257 | not found iff PENDING without a result; otherwise PENDING gives pending at 0, PROGRESS gives processing at the reported `progress` (0 when the info has none), SUCCESS gives completed at 100 with the result, and every other state gives failed with the text of the task's info (same at src/web/app.py:205-253) |
| `Routes.PendingNeedsResult` | app.py:219-226 | a PENDING task gets the pending reply iff it carries a result, so a queued task is reported not found |
| `Routes.ProgressShownAsReported` | app.py:227-231 | the status of a job after its k-th PROGRESS update shows that update's percentage |
| `Routes.StartedReportedFailed` | app.py:238-242 | a job in state STARTED is reported as failed |
| `Routes.VideoStatusTracked` | app.py:222-242 | the mapping with STARTED read as processing at 0%; all other states as before |
| `Routes.TrackedNeverFailsLiveJob` | app.py:222-242 | under the corrected mapping, failed is reported exactly for states other than PENDING, STARTED, PROGRESS and SUCCESS |
| `Routes.AsFloat` | app.py:367 | `float()` of a JSON number is that number, of a boolean 1.0 or 0.0, of text the parser's verdict, and of a list, object or null the TypeError `float() argument must be a string or a real number, not '<type>'` |
| `Routes.AsInt` | app.py:374 | `int()` of a JSON number truncates toward zero, of a boolean is 1 or 0, of text is the parser's verdict, and of a list, object or null is the TypeError `int() argument must be a string, a bytes-like object or a real number, not '<type>'` |
| `Routes.ApplyConfigAcceptsIff` | app.py:357-386 | an update succeeds iff the body is a non-empty object whose supplied keys convert and lie in range (0 ≤ conf ≤ 1, length ≥ 1, fade ≥ 0); it then stores exactly the supplied keys |
| `Routes.ApplyConfig` | app.py:357-386 | only a non-empty JSON object can be accepted: an absent or empty body always ends in an error (`ApplyConfigAcceptsIff` gives the full condition) |
| `Routes.ApplyConfigKeepsBounds` | app.py:366-383 | settings within range stay within range whatever the body |
| `Routes.ApplyConfigNotAtomic` | app.py:366-383 | a valid `conf_threshold` is already stored when a later key is refused |
| `Routes.DetectorConfig.View` | app.py:330-345 | `get_config` reports the model, the tracker, the three settings and a display width of 640 |
| `Routes.DetectorConfig.SetConf` | app.py:366-370 | an absent `conf_threshold` changes nothing; a present one is stored only when it converts and lies in [0, 1], otherwise the conversion's or the range message is returned and the setting kept |
| `Routes.DetectorConfig.SetTrajectory` | app.py:373-377 | an absent `trajectory_length` changes nothing; a present one is stored only when it converts and is at least 1 |
| `Routes.DetectorConfig.SetFade` | app.py:379-383 | an absent `fade_steps` changes nothing; a present one is stored only when it converts and is not negative |
| `Routes.DetectorConfig.Update` | app.py:357-396 | `update_config` leaves the settings as `ApplyConfig` says; it answers with the new configuration, or with a 500 config_error carrying the message of the first failed check |
| `Routes.StartStream` | app.py:259-296 | registers a fresh stream under its id iff the threshold parses and the device opened, leaving other entries alone; otherwise a 500 stream_error and the registry unchanged, and a threshold that does not parse gives the parser's own message; each stream owns its capture, so no two registered streams share one (same at src/web/app.py:255-292) |
| `Routes.StopStream` | app.py:298-326 | an unknown id gives "Stream <id> not found" and changes nothing; otherwise the stream is stopped (stop event set, capture released) and then removed; only that stream and its capture may change: every other stream keeps its stop flag, its capture and that capture's released flag, so it keeps running (same at src/web/app.py:294-322) |

## Left out

- Model loading and inference, `model.track` and `model(...)`: foreign calls, modelled as an input function whose answer depends on the frame and the threshold alone. So the tracker state that `persist=True` keeps between calls (src/detection_and_tracking/detector.py:66) is not modelled. Nor is the sharing of that state between `process_image` and the live streams through the one global detector (app.py:23).
- Pixel drawing, JPEG and base64 encoding, `cv2.imshow`/`waitKey`, the side-by-side display and the FPS overlay: OpenCV and numpy work. Drawing is a list of draw commands.
- Threads, `Event`, the one-second join timeout, the `1/frame_rate` sleep and Socket.IO delivery:
  - The worker runs to its end in one call, on loop variables that are stored in the stream's fields when it ends.
  - A `stop()` that lands while the worker is running is not modelled. Nor is the worker reading a capture that `stop()` released meanwhile.
- Exceptions swallowed inside `stop()`: the model's release cannot fail.
- Celery and Redis: queuing, persistence of task metadata, and the STARTED/PROGRESS bookkeeping are not modelled. Each `update_state` is one entry of a progress list. A task's backend record is an input to the status route. The record's `status` and the task's `state` are taken to be the same value.
- Disk I/O: `file.save`, `cv2.imwrite`, `shutil.move`, `os.path.exists` (an input flag) and the cleanup endpoint.
- `secure_filename` is an input function.
- `cv2.imread` is an input function that may fail.
- The reads of frame size and fps, and the `cv2.VideoWriter` codec.
- Floating point:
  - reals stand for Python floats, with no rounding, NaN or infinity;
  - `:.2f` formatting is an input function;
  - the frame-count property is an integer.
- Unicode case folding: `Lower` folds ASCII letters only. Non-ASCII letters in an extension are kept as they are.
- An exception raised by a capture's `read()` inside `read_frame` is not modelled: the model's handle never raises.
- `get_config` and `update_config` read `detector.model_name`, `detector.conf_threshold` and `detector.trajectory_manager`, none of which the shown YOLODetector defines. The model keeps these settings in a `DetectorConfig` object; the AttributeError the shown code would raise is not modelled.
- Request bodies of `update_config` that are JSON values other than an object, and `get_detections` payloads that are not dictionaries.
- The uuid hex of a stored upload and the id of a new stream are input strings, so their freshness is not modelled.
- Routes.StartStream: requires that the opened device is not the capture of a registered stream. This stands for `cv2.VideoCapture(0)` (src/web/socket_handler.py:35) returning a new handle on every call.
- src/utils/processor.py, main.py, src/web/config.py and the browser scripts under src/web/static/js are not part of this model.

## Findings

| source | as written | input that shows it | evidently intended | confidence | as-written member | corrected member |
|---|---|---|---|---|---|---|
| app.py:238-242 | every task state other than PENDING, PROGRESS and SUCCESS is reported as failed. The job runs with `task_track_started=True` (src/web/tasks.py:16), so the backend reports STARTED from the moment a worker picks the job up (model loading included) until the first PROGRESS update | a task record in state "STARTED" with its worker metadata as result | a started job is reported as processing with 0% progress, and failed only for failure states | not executed; medium (the same mapping appears at src/web/app.py:234-238) | `Routes.StartedReportedFailed` | `Routes.VideoStatusTracked` |
