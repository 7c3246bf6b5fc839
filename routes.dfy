/** The HTTP routes of the two Flask applications, app.py and src/web/app.py:
    upload validation, image and video submission, the video-status mapping,
    the configuration update and the start and stop of webcam streams.
    Request parsing is reduced to the values the routes look at: the uploaded
    files as a map from form field to file name, the form fields as a map to
    their text, and the number parsers of Python's `float()` and `int()` as
    parameters that either yield a value or the message of the error they
    raise. */
module Routes {
  import opened Common
  import opened Drawing
  import opened Yolo
  import opened TrackingDetector
  import opened Capture
  import opened FileHandler
  import opened SocketHandler
  import opened Tasks

  /** The two applications serve the same routes with small differences. */
  datatype App = RootApp | WebApp

  /** The `error` object of a failed response, with its HTTP status. */
  datatype ApiError = ApiError(code: string, message: string, status: int)

  const BadRequest: int := 400
  const ServerError: int := 500

  /** The default of the `conf_threshold` form field. */
  const DefaultFormConfidence: real := 0.5
  /** The default of the `display_width` form field. */
  const DefaultDisplayWidth: int := 640

  /** The message Python's IndexError carries when `save_upload` splits a
      sanitised name without a dot. */
  const NoExtensionMessage: string := "list index out of range"

  // ---------------------------------------------------------------- uploads

  datatype Media = Image | Video

  function FieldName(media: Media): string
  {
    match media
    case Image => "image"
    case Video => "video"
  }

  function Allowed(media: Media, filename: string): bool
  {
    match media
    case Image => IsAllowedImage(filename)
    case Video => IsAllowedVideo(filename)
  }

  /** The three checks at the head of `process_image` and
      `process_video_file`, in their order: the file field must be present,
      its file name non-empty and its extension on the medium's whitelist.
      The result is the uploaded file name. */
  function CheckUpload(media: Media, files: map<string, string>): (r: Result<string, ApiError>)
    ensures r.Ok? <==> FieldName(media) in files && files[FieldName(media)] != ""
                       && Allowed(media, files[FieldName(media)])
    ensures r.Ok? ==> r.value == files[FieldName(media)]
    ensures r.Err? ==> r.error.status == BadRequest
    ensures FieldName(media) !in files ==>
      r.Err? && r.error.code == "missing_file" && r.error.message == "No " + FieldName(media) + " file provided"
    ensures FieldName(media) in files && files[FieldName(media)] == "" ==>
      r.Err? && r.error.code == "invalid_file" && r.error.message == "No selected file"
    ensures FieldName(media) in files && files[FieldName(media)] != "" && !Allowed(media, files[FieldName(media)]) ==>
      r.Err? && r.error.code == "invalid_file_type" && r.error.message == "File type not supported"
  {
    var field := FieldName(media);
    if field !in files then
      Err(ApiError("missing_file", "No " + field + " file provided", BadRequest))
    else if files[field] == "" then
      Err(ApiError("invalid_file", "No selected file", BadRequest))
    else if !Allowed(media, files[field]) then
      Err(ApiError("invalid_file_type", "File type not supported", BadRequest))
    else
      Ok(files[field])
  }

  /** An accepted upload is one whose last extension, lower-cased, is on the
      whitelist; the empty-name check only changes which error is reported,
      because an empty name has no dot. */
  lemma CheckUploadAccepts(media: Media, files: map<string, string>)
    ensures CheckUpload(media, files).Ok? <==>
      FieldName(media) in files &&
      var name := files[FieldName(media)];
      exists i :: 0 <= i < |name| && name[i] == '.' && '.' !in name[i + 1..]
                  && Lower(name[i + 1..]) in (if media == Image then ImageExtensions else VideoExtensions)
  {
    if FieldName(media) in files {
      var name := files[FieldName(media)];
      if media == Image {
        IsAllowedImageIff(name);
      } else {
        IsAllowedVideoIff(name);
      }
    }
  }

  /** The stored upload of an accepted name gets a name the same whitelist
      accepts, provided sanitising left the name alone. */
  lemma AcceptedUploadIsStorable(media: Media, files: map<string, string>, sanitize: string -> string,
                                 prefix: string, hex: string)
    requires CheckUpload(media, files).Ok?
    requires sanitize(CheckUpload(media, files).value) == CheckUpload(media, files).value
    ensures UploadName(prefix, sanitize(CheckUpload(media, files).value), hex).Some?
    ensures Allowed(media, UploadName(prefix, sanitize(CheckUpload(media, files).value), hex).value)
  {
    var name := CheckUpload(media, files).value;
    UploadNameKeepsVerdict(prefix, name, hex);
  }

  /** A name made only of dots and an extension passes the whitelist:
      "..png" is an accepted image name. */
  lemma DotsOnlyImageAccepted()
    ensures IsAllowedImage("..png")
  {
    ExtensionOfJoin(".", "png");
    assert "." + "." + "png" == "..png";
    assert Lower("png") == "png";
  }

  /** `request.form.get(key, default)` handed to a number parser. */
  function FormNumber<T>(form: map<string, string>, key: string, default: T,
                         parse: string -> Result<T, string>): (r: Result<T, string>)
    ensures key !in form ==> r == Ok(default)
    ensures key in form ==> r == parse(form[key])
  {
    if key in form then parse(form[key]) else Ok(default)
  }

  // ------------------------------------------------------------ image route

  /** The data of a successful image response, and the annotated copy the
      route stores under the result URL. */
  datatype ImageReply = ImageReply(detections: seq<TrackedObject>, processedImageUrl: string,
                                   processingTime: real, stored: Annotated)

  /** `process_image`: upload checks, then the form numbers, then storing the
      upload (`sanitize` is werkzeug's `secure_filename`, `hex` the fresh
      uuid), reading it back (`imread`, None where OpenCV cannot decode it),
      detecting and tracking at the requested threshold and storing the
      drawn copy.  Every failure after the checks is a processing_error. */
  function ProcessImage(files: map<string, string>, form: map<string, string>,
                        parseFloat: string -> Result<real, string>, parseInt: string -> Result<int, string>,
                        sanitize: string -> string, hex: string, imread: string -> Option<Frame>,
                        infer: (Frame, real) -> Option<ModelOutput>, fixed2: real -> string,
                        elapsed: real): (r: Result<ImageReply, ApiError>)
    ensures r.Err? && r.error.status == BadRequest <==> CheckUpload(Image, files).Err?
    ensures CheckUpload(Image, files).Err? ==> r == Err(CheckUpload(Image, files).error)
    ensures r.Err? && r.error.status != BadRequest ==> r.error.code == "processing_error" && r.error.status == ServerError
    ensures r.Ok? <==>
      CheckUpload(Image, files).Ok?
      && FormNumber(form, "conf_threshold", DefaultFormConfidence, parseFloat).Ok?
      && FormNumber(form, "display_width", DefaultDisplayWidth, parseInt).Ok?
      && UploadName("img", sanitize(files["image"]), hex).Some?
      && imread(UploadName("img", sanitize(files["image"]), hex).value).Some?
    ensures CheckUpload(Image, files).Ok? && FormNumber(form, "conf_threshold", DefaultFormConfidence, parseFloat).Err? ==>
      r == Err(ApiError("processing_error", FormNumber(form, "conf_threshold", DefaultFormConfidence, parseFloat).error, ServerError))
    ensures r.Ok? ==> IsAllowedImage(files["image"])
    ensures r.Ok? ==>
      var stored := UploadName("img", sanitize(files["image"]), hex);
      stored.Some?
      && imread(stored.value).Some?
      && OriginalOfResultUrl(r.value.processedImageUrl) == stored
      && r.value.stored.source == imread(stored.value).value
      && r.value.stored.commands == Commands(r.value.detections, fixed2)
      && r.value.processingTime == elapsed
    ensures r.Ok? ==>
      var conf := FormNumber(form, "conf_threshold", DefaultFormConfidence, parseFloat);
      var image := imread(UploadName("img", sanitize(files["image"]), hex).value).value;
      conf.Ok? && r.value.detections == TrackRecords(infer(image, conf.value))
  {
    match CheckUpload(Image, files)
    case Err(e) => Err(e)
    case Ok(name) =>
      match FormNumber(form, "conf_threshold", DefaultFormConfidence, parseFloat)
      case Err(m) => Err(ApiError("processing_error", m, ServerError))
      case Ok(conf) =>
        match FormNumber(form, "display_width", DefaultDisplayWidth, parseInt)
        case Err(m) => Err(ApiError("processing_error", m, ServerError))
        case Ok(_) =>
          match UploadName("img", sanitize(name), hex)
          case None => Err(ApiError("processing_error", NoExtensionMessage, ServerError))
          case Some(stored) =>
            match imread(stored)
            case None => Err(ApiError("processing_error", "Could not read uploaded image", ServerError))
            case Some(image) =>
              var results := TrackRecords(infer(image, conf));
              Ok(ImageReply(results, SaveResult(stored), elapsed, Annotated(image, Commands(results, fixed2))))
  }

  /** An accepted image whose sanitised name has lost every dot (as
      `secure_filename` does to "..png") cannot be stored: the split of its
      name raises IndexError and the route answers a 500 processing_error. */
  lemma DotDroppedBySanitizingFails(files: map<string, string>, form: map<string, string>,
                                    parseFloat: string -> Result<real, string>, parseInt: string -> Result<int, string>,
                                    sanitize: string -> string, hex: string, imread: string -> Option<Frame>,
                                    infer: (Frame, real) -> Option<ModelOutput>, fixed2: real -> string, elapsed: real)
    requires CheckUpload(Image, files).Ok?
    requires FormNumber(form, "conf_threshold", DefaultFormConfidence, parseFloat).Ok?
    requires FormNumber(form, "display_width", DefaultDisplayWidth, parseInt).Ok?
    requires '.' !in sanitize(files["image"])
    ensures ProcessImage(files, form, parseFloat, parseInt, sanitize, hex, imread, infer, fixed2, elapsed)
      == Err(ApiError("processing_error", NoExtensionMessage, ServerError))
  {
    assert UploadName("img", sanitize(files["image"]), hex).None?;
  }

  // ------------------------------------------------------------ video route

  /** The arguments `process_video.delay` is queued with. */
  datatype JobRequest = JobRequest(filePath: string, confThreshold: real, displayWidth: int, saveOutput: bool)

  /** The data of a successful video submission: the task id, the
      `"status": "processing"` entry that only src/web/app.py adds, and the
      queued job. */
  datatype VideoSubmission = VideoSubmission(taskId: string, status: Option<string>, job: JobRequest)

  /** The default of the `save_output` form field: "false" in app.py,
      "true" in src/web/app.py. */
  function SaveOutputDefault(app: App): string
  {
    if app == RootApp then "false" else "true"
  }

  /** `request.form.get('save_output', default).lower() == 'true'`. */
  function SaveOutputFlag(app: App, form: map<string, string>): bool
  {
    Lower(if "save_output" in form then form["save_output"] else SaveOutputDefault(app)) == "true"
  }

  /** `process_video_file`: upload checks, form numbers and flag, storing the
      upload under `uploadFolder`, and queueing the job as task `taskId`.
      app.py also insists that the stored file exists (`savedExists`). */
  function SubmitVideo(app: App, files: map<string, string>, form: map<string, string>,
                       parseFloat: string -> Result<real, string>, parseInt: string -> Result<int, string>,
                       sanitize: string -> string, hex: string, uploadFolder: string, savedExists: bool,
                       taskId: string): (r: Result<VideoSubmission, ApiError>)
    ensures r.Err? && r.error.status == BadRequest <==> CheckUpload(Video, files).Err?
    ensures CheckUpload(Video, files).Err? ==> r == Err(CheckUpload(Video, files).error)
    ensures r.Err? && r.error.status != BadRequest ==> r.error.code == "processing_error" && r.error.status == ServerError
    ensures r.Ok? <==>
      CheckUpload(Video, files).Ok?
      && FormNumber(form, "conf_threshold", DefaultFormConfidence, parseFloat).Ok?
      && FormNumber(form, "display_width", DefaultDisplayWidth, parseInt).Ok?
      && UploadName("video", sanitize(files["video"]), hex).Some?
      && (app == RootApp ==> savedExists)
    ensures CheckUpload(Video, files).Ok? && FormNumber(form, "conf_threshold", DefaultFormConfidence, parseFloat).Err? ==>
      r == Err(ApiError("processing_error", FormNumber(form, "conf_threshold", DefaultFormConfidence, parseFloat).error, ServerError))
    ensures r.Ok? ==>
      var stored := UploadName("video", sanitize(files["video"]), hex);
      IsAllowedVideo(files["video"]) && stored.Some?
      && r.value.job.filePath == uploadFolder + "/" + stored.value
      && (app == RootApp ==> savedExists)
    ensures r.Ok? ==> r.value.taskId == taskId && r.value.job.saveOutput == SaveOutputFlag(app, form)
    ensures r.Ok? ==> r.value.status == (if app == WebApp then Some("processing") else None)
    ensures r.Ok? ==>
      Ok(r.value.job.confThreshold) == FormNumber(form, "conf_threshold", DefaultFormConfidence, parseFloat)
      && Ok(r.value.job.displayWidth) == FormNumber(form, "display_width", DefaultDisplayWidth, parseInt)
  {
    match CheckUpload(Video, files)
    case Err(e) => Err(e)
    case Ok(name) =>
      match FormNumber(form, "conf_threshold", DefaultFormConfidence, parseFloat)
      case Err(m) => Err(ApiError("processing_error", m, ServerError))
      case Ok(conf) =>
        match FormNumber(form, "display_width", DefaultDisplayWidth, parseInt)
        case Err(m) => Err(ApiError("processing_error", m, ServerError))
        case Ok(width) =>
          var saveOutput := SaveOutputFlag(app, form);
          match UploadName("video", sanitize(name), hex)
          case None => Err(ApiError("processing_error", NoExtensionMessage, ServerError))
          case Some(stored) =>
            var path := uploadFolder + "/" + stored;
            if app == RootApp && !savedExists then
              Err(ApiError("processing_error", "Saved file not found at " + path, ServerError))
            else
              var status := if app == WebApp then Some("processing") else None;
              Ok(VideoSubmission(taskId, status, JobRequest(path, conf, width, saveOutput)))
  }

  /** Without a `save_output` field app.py does not save the output video
      and src/web/app.py does; given one, only a case-insensitive "true"
      turns saving on. */
  lemma SaveOutputDefaults(form: map<string, string>)
    ensures "save_output" !in form ==> !SaveOutputFlag(RootApp, form) && SaveOutputFlag(WebApp, form)
    ensures "save_output" in form ==>
      (SaveOutputFlag(RootApp, form) <==> SaveOutputFlag(WebApp, form))
    ensures "save_output" in form && form["save_output"] == "TRUE" ==> SaveOutputFlag(RootApp, form)
    ensures "save_output" in form && form["save_output"] == "yes" ==> !SaveOutputFlag(WebApp, form)
  {
    assert Lower("false") == "false";
    assert Lower("true") == "true";
    assert Lower("TRUE") == "true";
    assert Lower("yes") == "yes";
  }

  // ----------------------------------------------------------- video status

  /** What the result backend knows of a task: its state, whether the stored
      result is truthy, the `progress` entry of the info of a PROGRESS
      update, the task's return value (read only in state SUCCESS) and the
      text of its info. */
  datatype TaskRecord = TaskRecord(state: string, hasResult: bool, progress: Option<real>,
                                   result: JobResult, info: string)

  datatype StatusReply =
    | StatusPending(progress: real)
    | StatusProcessing(progress: real)
    | StatusCompleted(progress: real, result: JobResult)
    | StatusFailed(error: string)

  /** The reply of a state other than the unknown-task case, as both
      applications map it. */
  function StateReply(t: TaskRecord): StatusReply
  {
    if t.state == "PENDING" then StatusPending(0.0)
    else if t.state == "PROGRESS" then StatusProcessing(if t.progress.Some? then t.progress.value else 0.0)
    else if t.state == "SUCCESS" then StatusCompleted(100.0, t.result)
    else StatusFailed(t.info)
  }

  /** `get_video_status`: a PENDING task without a result is reported as not
      found; otherwise PENDING, PROGRESS and SUCCESS map to pending,
      processing and completed, and every other state to failed. */
  function VideoStatus(taskId: string, t: TaskRecord): (r: Result<StatusReply, ApiError>)
    ensures r.Err? <==> t.state == "PENDING" && !t.hasResult
    ensures r.Err? ==> r.error == ApiError("status_error", "Task with ID " + taskId + " not found", ServerError)
    ensures r.Ok? ==> (r.value.StatusPending? <==> t.state == "PENDING") && (r.value.StatusPending? ==> r.value.progress == 0.0)
    ensures r.Ok? ==> (r.value.StatusProcessing? <==> t.state == "PROGRESS")
    ensures r.Ok? && r.value.StatusProcessing? ==>
      r.value.progress == (if t.progress.Some? then t.progress.value else 0.0)
    ensures r.Ok? ==> (r.value.StatusCompleted? <==> t.state == "SUCCESS")
    ensures r.Ok? && r.value.StatusCompleted? ==> r.value.progress == 100.0 && r.value.result == t.result
    ensures r.Ok? ==> (r.value.StatusFailed? <==> t.state !in {"PENDING", "PROGRESS", "SUCCESS"})
    ensures r.Ok? && r.value.StatusFailed? ==> r.value.error == t.info
  {
    if t.state == "PENDING" && !t.hasResult then
      Err(ApiError("status_error", "Task with ID " + taskId + " not found", ServerError))
    else
      Ok(StateReply(t))
  }

  /** A queued task has no result yet, so the pending reply is only ever
      given for a PENDING task that somehow carries a result: every other
      PENDING task is reported as not found. */
  lemma PendingNeedsResult(taskId: string, t: TaskRecord)
    requires t.state == "PENDING"
    ensures VideoStatus(taskId, t).Ok? <==> t.hasResult
    ensures !t.hasResult ==> VideoStatus(taskId, t).Err? && VideoStatus(taskId, t).error.code == "status_error"
  {
  }

  /** A PROGRESS update made by the video job after its n-th frame is shown
      as that percentage. */
  lemma ProgressShownAsReported(taskId: string, n: nat, total: int, k: nat, result: JobResult, info: string)
    requires total != 0 && k < n
    ensures VideoStatus(taskId, TaskRecord("PROGRESS", true, Some(ProgressReports(n, total)[k]), result, info))
      == Ok(StatusProcessing(Progress(k + 1, total)))
  {
  }

  /** The video job runs with started-tracking on, so the backend reports
      STARTED from the moment a worker picks the job up until its first
      PROGRESS update; the status route reports that running job as failed. */
  lemma StartedReportedFailed(taskId: string, result: JobResult, info: string)
    ensures VideoStatus(taskId, TaskRecord("STARTED", true, None, result, info)) == Ok(StatusFailed(info))
  {
  }

  /** The status mapping with STARTED read as processing with no progress
      yet. */
  function VideoStatusTracked(taskId: string, t: TaskRecord): (r: Result<StatusReply, ApiError>)
    ensures t.state != "STARTED" ==> r == VideoStatus(taskId, t)
    ensures t.state == "STARTED" ==> r == Ok(StatusProcessing(0.0))
  {
    if t.state == "STARTED" then Ok(StatusProcessing(0.0)) else VideoStatus(taskId, t)
  }

  /** With STARTED read as processing, a job that is queued, running or
      finished is never reported as failed, and failed is reported exactly
      for the remaining states. */
  lemma TrackedNeverFailsLiveJob(taskId: string, t: TaskRecord)
    ensures VideoStatusTracked(taskId, t).Ok? && VideoStatusTracked(taskId, t).value.StatusFailed?
      <==> t.state !in {"PENDING", "STARTED", "PROGRESS", "SUCCESS"}
  {
  }

  // ---------------------------------------------------------- configuration

  /** A value of the JSON request body; a list, an object or null is kept
      only as the name Python gives its type ("list", "dict", "NoneType"). */
  datatype JsonValue = JsonNumber(n: real) | JsonBool(b: bool) | JsonText(s: string) | JsonOther(typeName: string)

  /** The request body of `update_config`: absent, or a JSON object. */
  datatype ConfigBody = NoBody | JsonObject(fields: map<string, JsonValue>)

  /** Python's `float(v)` on a JSON value: a boolean counts as 1 or 0, and a
      list, object or null raises a TypeError naming its type. */
  function AsFloat(v: JsonValue, parseFloat: string -> Result<real, string>): (r: Result<real, string>)
    ensures v.JsonNumber? ==> r == Ok(v.n)
    ensures v.JsonBool? ==> r == Ok(if v.b then 1.0 else 0.0)
    ensures v.JsonText? ==> r == parseFloat(v.s)
    ensures v.JsonOther? ==>
      r == Err("float() argument must be a string or a real number, not '" + v.typeName + "'")
  {
    match v
    case JsonNumber(n) => Ok(n)
    case JsonBool(b) => Ok(if b then 1.0 else 0.0)
    case JsonText(s) => parseFloat(s)
    case JsonOther(t) => Err("float() argument must be a string or a real number, not '" + t + "'")
  }

  /** Python's `int(v)` on a JSON value: numbers are truncated toward zero,
      a boolean counts as 1 or 0, and a list, object or null raises a
      TypeError naming its type. */
  function AsInt(v: JsonValue, parseInt: string -> Result<int, string>): (r: Result<int, string>)
    ensures v.JsonNumber? ==> r == Ok(Trunc(v.n))
    ensures v.JsonBool? ==> r == Ok(if v.b then 1 else 0)
    ensures v.JsonText? ==> r == parseInt(v.s)
    ensures v.JsonOther? ==>
      r == Err("int() argument must be a string, a bytes-like object or a real number, not '" + v.typeName + "'")
  {
    match v
    case JsonNumber(n) => Ok(Trunc(n))
    case JsonBool(b) => Ok(if b then 1 else 0)
    case JsonText(s) => parseInt(s)
    case JsonOther(t) => Err("int() argument must be a string, a bytes-like object or a real number, not '" + t + "'")
  }

  /** The settings `update_config` may change. */
  datatype Settings = Settings(confThreshold: real, trajectoryLength: int, fadeSteps: int)

  /** The ranges `update_config` enforces. */
  predicate InBounds(s: Settings)
  {
    0.0 <= s.confThreshold <= 1.0 && s.trajectoryLength >= 1 && s.fadeSteps >= 0
  }

  /** The settings after an update attempt and the message of the error that
      ended it, if any. */
  datatype ConfigUpdate = ConfigUpdate(settings: Settings, error: Option<string>)

  /** The `conf_threshold` step: absent leaves the setting, present must
      convert and lie in [0, 1]. */
  function ConfStep(s: Settings, fields: map<string, JsonValue>, parseFloat: string -> Result<real, string>): ConfigUpdate
  {
    if "conf_threshold" !in fields then ConfigUpdate(s, None)
    else match AsFloat(fields["conf_threshold"], parseFloat)
      case Err(m) => ConfigUpdate(s, Some(m))
      case Ok(c) =>
        if !(0.0 <= c <= 1.0) then ConfigUpdate(s, Some("conf_threshold must be between 0 and 1"))
        else ConfigUpdate(s.(confThreshold := c), None)
  }

  function TrajectoryStep(s: Settings, fields: map<string, JsonValue>, parseInt: string -> Result<int, string>): ConfigUpdate
  {
    if "trajectory_length" !in fields then ConfigUpdate(s, None)
    else match AsInt(fields["trajectory_length"], parseInt)
      case Err(m) => ConfigUpdate(s, Some(m))
      case Ok(n) =>
        if n < 1 then ConfigUpdate(s, Some("trajectory_length must be positive"))
        else ConfigUpdate(s.(trajectoryLength := n), None)
  }

  function FadeStep(s: Settings, fields: map<string, JsonValue>, parseInt: string -> Result<int, string>): ConfigUpdate
  {
    if "fade_steps" !in fields then ConfigUpdate(s, None)
    else match AsInt(fields["fade_steps"], parseInt)
      case Err(m) => ConfigUpdate(s, Some(m))
      case Ok(n) =>
        if n < 0 then ConfigUpdate(s, Some("fade_steps cannot be negative"))
        else ConfigUpdate(s.(fadeSteps := n), None)
  }

  /** `update_config` on settings: an absent or empty body is refused, then
      the three keys are checked and stored one after the other, stopping at
      the first error and keeping what was already stored. */
  function ApplyConfig(s: Settings, body: ConfigBody, parseFloat: string -> Result<real, string>,
                       parseInt: string -> Result<int, string>): (r: ConfigUpdate)
    ensures r.error.None? ==> body.JsonObject? && body.fields != map[]
  {
    if body.NoBody? || body.fields == map[] then ConfigUpdate(s, Some("No configuration data provided"))
    else
      var c := ConfStep(s, body.fields, parseFloat);
      if c.error.Some? then c
      else
        var t := TrajectoryStep(c.settings, body.fields, parseInt);
        if t.error.Some? then t
        else FadeStep(t.settings, body.fields, parseInt)
  }

  /** A present key is acceptable when it converts and lies in its range. */
  predicate ConfOk(fields: map<string, JsonValue>, parseFloat: string -> Result<real, string>)
  {
    "conf_threshold" in fields ==>
      AsFloat(fields["conf_threshold"], parseFloat).Ok? && 0.0 <= AsFloat(fields["conf_threshold"], parseFloat).value <= 1.0
  }

  predicate TrajectoryOk(fields: map<string, JsonValue>, parseInt: string -> Result<int, string>)
  {
    "trajectory_length" in fields ==>
      AsInt(fields["trajectory_length"], parseInt).Ok? && AsInt(fields["trajectory_length"], parseInt).value >= 1
  }

  predicate FadeOk(fields: map<string, JsonValue>, parseInt: string -> Result<int, string>)
  {
    "fade_steps" in fields ==>
      AsInt(fields["fade_steps"], parseInt).Ok? && AsInt(fields["fade_steps"], parseInt).value >= 0
  }

  /** An update succeeds iff the body is a non-empty object whose supplied
      keys all convert and lie in range; it then stores exactly the supplied
      keys and leaves the others as they were. */
  lemma ApplyConfigAcceptsIff(s: Settings, body: ConfigBody, parseFloat: string -> Result<real, string>,
                              parseInt: string -> Result<int, string>)
    ensures ApplyConfig(s, body, parseFloat, parseInt).error.None? <==>
      body.JsonObject? && body.fields != map[]
      && ConfOk(body.fields, parseFloat) && TrajectoryOk(body.fields, parseInt) && FadeOk(body.fields, parseInt)
    ensures ApplyConfig(s, body, parseFloat, parseInt).error.None? ==>
      var r := ApplyConfig(s, body, parseFloat, parseInt).settings;
      var f := body.fields;
      r.confThreshold == (if "conf_threshold" in f then AsFloat(f["conf_threshold"], parseFloat).value else s.confThreshold)
      && r.trajectoryLength == (if "trajectory_length" in f then AsInt(f["trajectory_length"], parseInt).value else s.trajectoryLength)
      && r.fadeSteps == (if "fade_steps" in f then AsInt(f["fade_steps"], parseInt).value else s.fadeSteps)
  {
  }

  /** Settings within their ranges stay within them, whatever the body. */
  lemma ApplyConfigKeepsBounds(s: Settings, body: ConfigBody, parseFloat: string -> Result<real, string>,
                               parseInt: string -> Result<int, string>)
    requires InBounds(s)
    ensures InBounds(ApplyConfig(s, body, parseFloat, parseInt).settings)
  {
    if body.JsonObject? && body.fields != map[] {
      var c := ConfStep(s, body.fields, parseFloat);
      assert InBounds(c.settings);
      var t := TrajectoryStep(c.settings, body.fields, parseInt);
      assert InBounds(t.settings);
      assert InBounds(FadeStep(t.settings, body.fields, parseInt).settings);
    }
  }

  /** The update is not atomic: a valid `conf_threshold` is stored even when
      a later key is refused. */
  lemma ApplyConfigNotAtomic(s: Settings, fields: map<string, JsonValue>, parseFloat: string -> Result<real, string>,
                             parseInt: string -> Result<int, string>)
    requires "conf_threshold" in fields && ConfOk(fields, parseFloat)
    requires !TrajectoryOk(fields, parseInt) || !FadeOk(fields, parseInt)
    ensures ApplyConfig(s, JsonObject(fields), parseFloat, parseInt).error.Some?
    ensures ApplyConfig(s, JsonObject(fields), parseFloat, parseInt).settings.confThreshold
      == AsFloat(fields["conf_threshold"], parseFloat).value
  {
  }

  /** What `get_config` reports. */
  datatype ConfigView = ConfigView(model: string, tracker: string, confThreshold: real,
                                   trajectoryLength: int, fadeSteps: int, displayWidth: int)

  /** The detector settings the configuration routes read and write. */
  class DetectorConfig {
    const modelName: string
    const tracker: string
    var confThreshold: real
    var trajectoryLength: int
    var fadeSteps: int

    constructor (modelName: string, tracker: string, initial: Settings)
      ensures this.modelName == modelName && this.tracker == tracker && Current() == initial
    {
      this.modelName := modelName;
      this.tracker := tracker;
      confThreshold := initial.confThreshold;
      trajectoryLength := initial.trajectoryLength;
      fadeSteps := initial.fadeSteps;
    }

    function Current(): Settings
      reads this
    {
      Settings(confThreshold, trajectoryLength, fadeSteps)
    }

    /** `get_config`: the display width is always reported as 640. */
    function View(): (v: ConfigView)
      reads this
      ensures v.model == modelName && v.tracker == tracker && v.displayWidth == DefaultDisplayWidth
      ensures Settings(v.confThreshold, v.trajectoryLength, v.fadeSteps) == Current()
    {
      ConfigView(modelName, tracker, confThreshold, trajectoryLength, fadeSteps, DefaultDisplayWidth)
    }

    /** The `conf_threshold` step of `update_config`, on the stored setting. */
    method SetConf(fields: map<string, JsonValue>, parseFloat: string -> Result<real, string>) returns (error: Option<string>)
      modifies this
      ensures ConfigUpdate(Current(), error) == ConfStep(old(Current()), fields, parseFloat)
    {
      error := None;
      if "conf_threshold" in fields {
        var v := AsFloat(fields["conf_threshold"], parseFloat);
        if v.Err? {
          return Some(v.error);
        }
        if !(0.0 <= v.value <= 1.0) {
          return Some("conf_threshold must be between 0 and 1");
        }
        confThreshold := v.value;
      }
    }

    /** The `trajectory_length` step of `update_config`. */
    method SetTrajectory(fields: map<string, JsonValue>, parseInt: string -> Result<int, string>) returns (error: Option<string>)
      modifies this
      ensures ConfigUpdate(Current(), error) == TrajectoryStep(old(Current()), fields, parseInt)
    {
      error := None;
      if "trajectory_length" in fields {
        var n := AsInt(fields["trajectory_length"], parseInt);
        if n.Err? {
          return Some(n.error);
        }
        if n.value < 1 {
          return Some("trajectory_length must be positive");
        }
        trajectoryLength := n.value;
      }
    }

    /** The `fade_steps` step of `update_config`. */
    method SetFade(fields: map<string, JsonValue>, parseInt: string -> Result<int, string>) returns (error: Option<string>)
      modifies this
      ensures ConfigUpdate(Current(), error) == FadeStep(old(Current()), fields, parseInt)
    {
      error := None;
      if "fade_steps" in fields {
        var n := AsInt(fields["fade_steps"], parseInt);
        if n.Err? {
          return Some(n.error);
        }
        if n.value < 0 {
          return Some("fade_steps cannot be negative");
        }
        fadeSteps := n.value;
      }
    }

    /** `update_config`: stores each supplied key in turn and answers with
        the new configuration, or with a config_error once a check fails. */
    method Update(body: ConfigBody, parseFloat: string -> Result<real, string>,
                  parseInt: string -> Result<int, string>) returns (r: Result<ConfigView, ApiError>)
      modifies this
      ensures Current() == ApplyConfig(old(Current()), body, parseFloat, parseInt).settings
      ensures ApplyConfig(old(Current()), body, parseFloat, parseInt).error.Some? ==>
        r == Err(ApiError("config_error", ApplyConfig(old(Current()), body, parseFloat, parseInt).error.value, ServerError))
      ensures ApplyConfig(old(Current()), body, parseFloat, parseInt).error.None? ==> r == Ok(View())
    {
      if body.NoBody? || body.fields == map[] {
        return Err(ApiError("config_error", "No configuration data provided", ServerError));
      }
      var error := SetConf(body.fields, parseFloat);
      if error.None? {
        error := SetTrajectory(body.fields, parseInt);
        if error.None? {
          error := SetFade(body.fields, parseInt);
        }
      }
      match error {
        case Some(m) => r := Err(ApiError("config_error", m, ServerError));
        case None => r := Ok(View());
      }
    }
  }

  // ---------------------------------------------------------------- streams

  datatype StartReply = StartReply(streamId: string, streamUrl: string)
  datatype StopReply = StopReply(streamId: string, status: string)

  /** The default frame rate of a stream the route creates. */
  const DefaultFrameRate: int := 30

  /** `start_stream`: parse the threshold, create a stream under the fresh id
      `streamId`, start it on `device` (the handle on camera 0) and register
      it only once `start` has returned without error. */
  method StartStream(registry: StreamRegistry, form: map<string, string>,
                     parseFloat: string -> Result<real, string>, streamId: string, testing: bool,
                     host: string, device: FrameSource) returns (r: Result<StartReply, ApiError>)
    requires registry.Valid()
    requires forall id :: id in registry.streams ==> registry.streams[id].cap != device
    modifies registry
    ensures registry.Valid()
    ensures r.Ok? <==> FormNumber(form, "conf_threshold", DefaultFormConfidence, parseFloat).Ok? && device.IsOpened()
    ensures FormNumber(form, "conf_threshold", DefaultFormConfidence, parseFloat).Err? ==>
      r == Err(ApiError("stream_error", FormNumber(form, "conf_threshold", DefaultFormConfidence, parseFloat).error, ServerError))
    ensures r.Err? ==>
      registry.streams == old(registry.streams) && r.error.code == "stream_error" && r.error.status == ServerError
    ensures FormNumber(form, "conf_threshold", DefaultFormConfidence, parseFloat).Ok? && !device.IsOpened() ==>
      r.Err? && r.error.message == "Could not open webcam"
    ensures r.Ok? ==>
      r.value == StartReply(streamId, "ws://" + host + "/stream")
      && registry.streams.Keys == old(registry.streams.Keys) + {streamId}
      && fresh(registry.streams[streamId]) && registry.streams[streamId].cap == device
      && registry.streams[streamId].confThreshold == FormNumber(form, "conf_threshold", DefaultFormConfidence, parseFloat).value
      && (forall id :: id in old(registry.streams) && id != streamId ==> registry.streams[id] == old(registry.streams[id]))
  {
    var conf := FormNumber(form, "conf_threshold", DefaultFormConfidence, parseFloat);
    if conf.Err? {
      return Err(ApiError("stream_error", conf.error, ServerError));
    }
    var stream := new WebcamStream(streamId, conf.value, DefaultFrameRate, testing);
    var error := stream.Start(device);
    if error.Some? {
      return Err(ApiError("stream_error", error.value, ServerError));
    }
    registry.streams := registry.streams[streamId := stream];
    r := Ok(StartReply(streamId, "ws://" + host + "/stream"));
  }

  /** What stopping the stream `streamId` may change: that stream and its
      capture handle, and nothing when the id is not registered. */
  function StopFootprint(streams: map<string, WebcamStream>, streamId: string): set<object>
    reads streams.Values
  {
    if streamId !in streams then {}
    else if streams[streamId].cap == null then {streams[streamId]}
    else {streams[streamId], streams[streamId].cap}
  }

  /** `stop_stream`: an unknown id is an error and changes nothing; a known
      stream is stopped (stop event set, capture released) and then removed.
      No other stream and no other capture is touched. */
  method StopStream(registry: StreamRegistry, streamId: string) returns (r: Result<StopReply, ApiError>)
    requires registry.Valid()
    modifies registry, StopFootprint(registry.streams, streamId)
    ensures registry.Valid()
    ensures r.Err? <==> streamId !in old(registry.streams)
    ensures r.Err? ==>
      registry.streams == old(registry.streams)
      && r.error == ApiError("stream_error", "Stream " + streamId + " not found", ServerError)
    ensures r.Ok? ==>
      r.value == StopReply(streamId, "stopped")
      && registry.streams == old(registry.streams) - {streamId}
      && old(registry.streams[streamId]).stopRequested
      && old(registry.streams[streamId]).cap == old(registry.streams[streamId].cap)
      && (old(registry.streams[streamId].cap) != null ==> old(registry.streams[streamId].cap).released)
    ensures forall id :: id in registry.streams ==>
      registry.streams[id].stopRequested == old(registry.streams[id].stopRequested)
      && registry.streams[id].cap == old(registry.streams[id].cap)
      && (registry.streams[id].cap != null ==> registry.streams[id].cap.released == old(registry.streams[id].cap.released))
  {
    if streamId !in registry.streams {
      return Err(ApiError("stream_error", "Stream " + streamId + " not found", ServerError));
    }
    var stream := registry.streams[streamId];
    stream.Stop();
    registry.streams := registry.streams - {streamId};
    r := Ok(StopReply(streamId, "stopped"));
  }
}
