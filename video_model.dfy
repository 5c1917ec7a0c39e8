/**
  The request and response bodies of the video service. Each body arrives
  as raw fields (left out, given as null, or given a value) and is validated
  the way its pydantic model declares: required fields must be given a
  string, optional ones fall back to their defaults, and `fps` is bounded.
*/
module VideoModel {
  import opened Wrappers

  const FpsMin: int := 24
  const FpsMax: int := 60
  const FpsDefault: int := 30
  const ResolutionDefault: string := "1080p"
  const StatusDefault: string := "success"

  /** One scene of the request's image list. */
  datatype ImageScene = ImageScene(prompt: string, url: Option<string>)

  /** How a field appears in an incoming body. */
  datatype Input<T> = Absent | Null | Given(value: T)

  datatype ErrorKind =
    | MissingField                 // a required field was left out
    | NullNotAllowed               // null given for a field whose type is not optional
    | BelowMinimum(limit: int)     // `ge` bound violated
    | AboveMaximum(limit: int)     // `le` bound violated

  /** One entry of the validation error list, naming the field it is about. */
  datatype FieldError = FieldError(field: string, kind: ErrorKind)

  // ---------------------------------------------------------------------
  // VideoGenerationRequest

  datatype RawRequest = RawRequest(
    audioPath: Input<string>,
    videoAbsolutePath: Input<string>,
    videoRelativePath: Input<string>,
    images: Input<seq<ImageScene>>,
    resolution: Input<string>,
    fps: Input<int>,
    videoTemplatePath: Input<string>,
    backgroundMusic: Input<string>)

  datatype VideoGenerationRequest = VideoGenerationRequest(
    audioPath: string,
    videoAbsolutePath: string,
    videoRelativePath: string,
    images: Option<seq<ImageScene>>,
    resolution: Option<string>,
    fps: Option<int>,
    videoTemplatePath: Option<string>,
    backgroundMusic: Option<string>)

  /** What every validated request satisfies: a given frame rate lies in 24..60. */
  predicate ValidRequest(req: VideoGenerationRequest) {
    req.fps.Some? ==> FpsMin <= req.fps.value <= FpsMax
  }

  /** The errors of a required string field. */
  function RequiredErrors(field: string, input: Input<string>): (errs: seq<FieldError>)
    ensures errs == [] <==> input.Given?
  {
    match input
    case Absent => [FieldError(field, MissingField)]
    case Null => [FieldError(field, NullNotAllowed)]
    case Given(_) => []
  }

  /** The errors of `fps`: bounds apply to a given integer only, null is accepted as None. */
  function FpsErrors(input: Input<int>): (errs: seq<FieldError>)
    ensures errs == [] <==> (input.Given? ==> FpsMin <= input.value <= FpsMax)
  {
    match input
    case Given(v) =>
      if v < FpsMin then [FieldError("fps", BelowMinimum(FpsMin))]
      else if v > FpsMax then [FieldError("fps", AboveMaximum(FpsMax))]
      else []
    case _ => []
  }

  /** An optional field: its default when left out, None for null, the value when given. */
  function OrDefault<T>(input: Input<T>, default: Option<T>): Option<T> {
    match input
    case Absent => default
    case Null => None
    case Given(v) => Some(v)
  }

  function RequestErrors(raw: RawRequest): seq<FieldError> {
    RequiredErrors("audio_path", raw.audioPath)
    + RequiredErrors("video_absolute_path", raw.videoAbsolutePath)
    + RequiredErrors("video_relative_path", raw.videoRelativePath)
    + FpsErrors(raw.fps)
  }

  /** `VideoGenerationRequest(**body)`: the validated request, or every field error found. */
  function ValidateRequest(raw: RawRequest): (r: Result<VideoGenerationRequest, seq<FieldError>>)
    ensures r.Success? <==>
      && raw.audioPath.Given? && raw.videoAbsolutePath.Given? && raw.videoRelativePath.Given?
      && (raw.fps.Given? ==> FpsMin <= raw.fps.value <= FpsMax)
    ensures r.Success? ==> ValidRequest(r.value)
    ensures r.Failure? ==> r.error != []
  {
    var errs := RequestErrors(raw);
    if errs != [] then Failure(errs)
    else
      Success(VideoGenerationRequest(
        raw.audioPath.value,
        raw.videoAbsolutePath.value,
        raw.videoRelativePath.value,
        OrDefault(raw.images, Some([])),
        OrDefault(raw.resolution, Some(ResolutionDefault)),
        OrDefault(raw.fps, Some(FpsDefault)),
        OrDefault(raw.videoTemplatePath, None),
        OrDefault(raw.backgroundMusic, None)))
  }

  /** A validated request written back as a body: every field given, None as null. */
  function RequestBody(req: VideoGenerationRequest): RawRequest {
    RawRequest(
      Given(req.audioPath), Given(req.videoAbsolutePath), Given(req.videoRelativePath),
      AsInput(req.images), AsInput(req.resolution), AsInput(req.fps),
      AsInput(req.videoTemplatePath), AsInput(req.backgroundMusic))
  }

  function AsInput<T>(o: Option<T>): Input<T> {
    match o
    case None => Null
    case Some(v) => Given(v)
  }

  /** Every valid request is what validating its own body gives back. */
  lemma RequestRoundTrip(req: VideoGenerationRequest)
    requires ValidRequest(req)
    ensures ValidateRequest(RequestBody(req)) == Success(req)
  {
  }

  /** Fields left out take their declared defaults. */
  lemma RequestDefaults(raw: RawRequest)
    requires ValidateRequest(raw).Success?
    ensures var req := ValidateRequest(raw).value;
      && req.audioPath == raw.audioPath.value
      && req.videoAbsolutePath == raw.videoAbsolutePath.value
      && req.videoRelativePath == raw.videoRelativePath.value
      && (raw.images.Absent? ==> req.images == Some([]))
      && (raw.resolution.Absent? ==> req.resolution == Some(ResolutionDefault))
      && (raw.fps.Absent? ==> req.fps == Some(FpsDefault))
      && (raw.videoTemplatePath.Absent? ==> req.videoTemplatePath == None)
      && (raw.backgroundMusic.Absent? ==> req.backgroundMusic == None)
  {
  }

  /** Each required field that is not given a string, and a frame rate out of bounds, is reported by name. */
  lemma RequestErrorsNamed(raw: RawRequest)
    ensures raw.audioPath.Absent? ==> ValidateRequest(raw).Failure? && FieldError("audio_path", MissingField) in ValidateRequest(raw).error
    ensures raw.videoAbsolutePath.Absent? ==> ValidateRequest(raw).Failure? && FieldError("video_absolute_path", MissingField) in ValidateRequest(raw).error
    ensures raw.videoRelativePath.Absent? ==> ValidateRequest(raw).Failure? && FieldError("video_relative_path", MissingField) in ValidateRequest(raw).error
    ensures raw.audioPath.Null? ==> ValidateRequest(raw).Failure? && FieldError("audio_path", NullNotAllowed) in ValidateRequest(raw).error
    ensures raw.videoAbsolutePath.Null? ==> ValidateRequest(raw).Failure? && FieldError("video_absolute_path", NullNotAllowed) in ValidateRequest(raw).error
    ensures raw.videoRelativePath.Null? ==> ValidateRequest(raw).Failure? && FieldError("video_relative_path", NullNotAllowed) in ValidateRequest(raw).error
    ensures raw.fps.Given? && raw.fps.value < FpsMin ==> ValidateRequest(raw).Failure? && FieldError("fps", BelowMinimum(FpsMin)) in ValidateRequest(raw).error
    ensures raw.fps.Given? && raw.fps.value > FpsMax ==> ValidateRequest(raw).Failure? && FieldError("fps", AboveMaximum(FpsMax)) in ValidateRequest(raw).error
  {
  }

  // ---------------------------------------------------------------------
  // VideoGenerationResponse

  datatype RawResponse = RawResponse(
    videoUrl: Input<string>,
    thumbnail: Input<string>,
    duration: Input<real>,
    status: Input<string>,
    message: Input<string>)

  datatype VideoGenerationResponse = VideoGenerationResponse(
    videoUrl: string,
    thumbnail: string,
    duration: real,
    status: string,
    message: Option<string>)

  /** `VideoGenerationResponse(**fields)`: `status` defaults to "success", `message` to None. */
  function ValidateResponse(raw: RawResponse): (r: Result<VideoGenerationResponse, seq<FieldError>>)
    ensures r.Success? <==> raw.videoUrl.Given? && raw.thumbnail.Given? && raw.duration.Given? && !raw.status.Null?
    ensures r.Success? ==>
      && r.value.videoUrl == raw.videoUrl.value
      && r.value.thumbnail == raw.thumbnail.value
      && r.value.duration == raw.duration.value
      && r.value.status == (if raw.status.Given? then raw.status.value else StatusDefault)
      && r.value.message == (if raw.message.Given? then Some(raw.message.value) else None)
  {
    var errs :=
      RequiredErrors("video_url", raw.videoUrl)
      + RequiredErrors("thumbnail", raw.thumbnail)
      + (match raw.duration
         case Absent => [FieldError("duration", MissingField)]
         case Null => [FieldError("duration", NullNotAllowed)]
         case Given(_) => [])
      + (if raw.status.Null? then [FieldError("status", NullNotAllowed)] else []);
    if errs != [] then Failure(errs)
    else
      Success(VideoGenerationResponse(
        raw.videoUrl.value,
        raw.thumbnail.value,
        raw.duration.value,
        OrDefault(raw.status, Some(StatusDefault)).value,
        OrDefault(raw.message, None)))
  }
}
