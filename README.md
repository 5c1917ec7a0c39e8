# Video composition service, modelled in Dafny

This project models the composition core of the video service. A render request names an
audio narration, a video template, an optional background-music file and the output
paths. The service checks that the narration exists, then validates the template path.
It loads the narration, whose duration `D` is the target. When music is requested and its
file exists, the music is quietened, looped with `int(D / M) + 1` copies if it is shorter
than `D`, cut to `[0, D)` and mixed under the narration. The template is looped with
`int(D / T) + 1` copies if it is shorter than `D` and cut to `[0, D)`. The mixed audio is
attached and the file is written. The response reports `D`. Every failure is re-raised as
a `ValueError` whose message is `"Error generating video: "` followed by the cause.

Files:

- `wrappers.dfy`: `Option` and `Result`.
- `media.dfy`: module `Media`, an abstract model of the media library. A `Clip` is a tree
  recording how the clip was built (opened file, gain, loop, concatenation, cut, mix,
  attached audio). `Duration` gives its length in seconds. Each library call the service
  makes (`Open`, `VolumeX`, `Loop`, `ConcatenateRepeated`, `Subclip`, `CompositeAudio`,
  `SetAudio`) is a function whose contract is the law that call obeys on durations.
- `video_model.dfy`: module `VideoModel`, the request and response bodies. A raw body
  gives each field as left out, null, or a value. `ValidateRequest` and `ValidateResponse`
  apply the declared required fields, defaults and `fps` bounds.
- `video_service.dfy`: module `VideoService` holds the service: template validation, the
  loop count and its bounds, background music, and the render. Module
  `VideoServiceClients` holds what a caller can derive from those contracts alone.

The outside world is the input `Env`:

- `files` is the set of paths for which `os.path.exists` holds;
- `probeAudio` says what the audio decoder (`AudioFileClip`) makes of a path, and
  `probeVideo` what the video decoder (`VideoFileClip`) makes of one: a clip of some
  length, or the message of the exception it raises. The narration and the music are
  read with `probeAudio`, the template with `probeVideo`;
- `write` says whether creating the output directory and encoding to a path succeeds, or
  gives the exception's message.

`RenderVideo` returns the result, the paths the decoders opened in order, and the file
the encoder wrote (path, clip, fps).

Notes on what the code does:

- Only an explicit template path is supported. There is no random pool of templates.
- The final video, the narration and the template clips are closed only after a successful
  write (app/services/video_service.py:181-183). The music clip is closed inside
  `_add_background_music` right after mixing (app/services/video_service.py:76), so a
  render that fails later has already closed it. No release guarantee is claimed.
- A failure is a raised `ValueError`, not a response with a failure status.
- The music gain is the literal `0.1` in the code, not a configurable setting.
- If the template or the music lasts 0 s while the narration is longer, the code divides
  by zero. The render then fails with `"float division by zero"`, wrapped like any other
  error. This also happens when the music file exists. It is not treated as a missing
  music track.

## Model

| member | source | states |
|---|---|---|
| `Media.Open` | app/services/video_service.py:116-117 | an opened file is a well-formed clip whose duration is the decoder's length |
| `Media.VolumeX` | app/services/video_service.py:55 | changing the volume keeps the duration and well-formedness |
| `Media.Loop` | app/services/video_service.py:137 | `loop(n)` lasts n times the clip |
| `Media.ConcatenateRepeated` | app/services/video_service.py:61-65 | concatenating n copies of a clip lasts n times the clip |
| `Media.Repeat` | app/services/video_service.py:63 | `[clip] * n` has n elements, each of them the clip |
| `Media.RepeatDuration` | app/services/video_service.py:63-65 | the total length of `[clip] * n` is n times the clip's length (by induction on n) |
| `Media.Subclip` | app/services/video_service.py:140 | a cut `[start, end)` within the clip is well formed and lasts `end - start` |
| `Media.CompositeAudio` | app/services/video_service.py:72 | a mix is as long as its longest track: no track is longer, and some track is exactly that long |
| `Media.SetAudio` | app/services/video_service.py:144 | attaching audio keeps the video's duration and records the video and the audio |
| `Media.DurationNonNegative` | app/services/video_service.py:117 | a well-formed clip never has a negative duration |
| `VideoModel.ValidateRequest` | app/models/video_model.py:13-39 | succeeds exactly when the three required paths are given and a given `fps` lies in 24..60; a validated request satisfies `ValidRequest`; a failure lists at least one error |
| `VideoModel.FpsErrors` | app/models/video_model.py:26-31 | `fps` is rejected exactly when an integer outside 24..60 is given; null is accepted |
| `VideoModel.RequestDefaults` | app/models/video_model.py:18-39 | fields left out default to `images == []`, `resolution == "1080p"`, `fps == 30`, and no template or music |
| `VideoModel.RequestRoundTrip` | app/models/video_model.py:13-39 | every valid request is what validating its own body gives back |
| `VideoModel.RequestErrorsNamed` | app/models/video_model.py:15-31 | a required path that is left out or null, or an `fps` below 24 or above 60, is reported under that field's name with that kind of error |
| `VideoModel.ValidateResponse` | app/models/video_model.py:42-48 | succeeds exactly when url, thumbnail and duration are given and status is not null; `status` defaults to "success" and `message` to None |
| `VideoService.NewVideoService` | app/services/video_service.py:12-18 | the resources directory is the variable's value when it is set and "/app/ressources" otherwise; the template directory starts with the resources directory and ends with "video-template" |
| `VideoService.DefaultTemplateDir` | app/services/video_service.py:14-15 | without the variable, the template directory is exactly "/app/ressources/video-template" |
| `VideoService.PathJoin` | app/services/video_service.py:15 | the joined path starts with the directory and ends with the relative name |
| `VideoService.ValidateTemplatePath` | app/services/video_service.py:20-39 | None or "" fails with "path is required"; a missing path fails with "not found: path"; it succeeds exactly otherwise, returning the input unchanged |
| `VideoService.LoopCount` | app/services/video_service.py:61 | `int(D / M) + 1` is at least 1 and is the n with n - 1 <= D / M < n |
| `VideoService.LoopCountCovers` | app/services/video_service.py:134-137 | n = int(D/T) + 1 copies run strictly past D, n - 1 copies do not, and n >= 2 when T < D |
| `VideoService.Cause.Message` | app/services/video_service.py:32-109 | a missing audio file's message (line 109) is "Audio file not found: " followed by exactly its path; a missing template's message (line 36) is "Video template not found: " followed by exactly its path; the required-path message (line 33) is exactly "Video template path is required"; a 0 s clip under a longer narration gives exactly "float division by zero"; a decoder's or encoder's exception keeps its own message |
| `VideoService.GenerationError.Message` | app/services/video_service.py:203-205 | the raised message is "Error generating video: " followed by the cause's own message |
| `VideoService.AddBackgroundMusic` | app/services/video_service.py:41-78 | succeeds exactly when the music decodes and its loop count is defined; the result mixes the narration unchanged with a bed of the quietened music, looped by the loop rule and cut to exactly [0, D); the mix lasts D |
| `VideoService.LoadOrder` | app/services/video_service.py:116-130 | once the inputs are resolved, the files are opened narration first and template last, with the music between them exactly when it is mixed in |
| `VideoService.SuccessResponse` | app/services/video_service.py:190-201 | the response carries the relative path, an empty thumbnail, the narration's duration and status "success", and its message is "Video generated successfully at " followed by exactly the absolute output path |
| `VideoService.RenderVideo` | app/services/video_service.py:80-205 | a missing audio file fails first, with nothing opened; then template validation, with nothing opened; then, stage by stage: an undecodable narration fails with the decoder's message after opening only the narration; music that is mixed in and undecodable fails with its decoder's message, and music of 0 s under a longer narration fails with a division by zero, after opening narration and music; an undecodable template fails with the decoder's message, and a 0 s template under a longer narration with a division by zero, after opening every file in `LoadOrder`; an encoder failure gives the encoder's message; it succeeds exactly when `Renderable` holds; on success the response is (relative path, "", D, "success", message with the absolute path); the written clip lasts D; its picture is the template looped by the loop rule and cut to [0, D); its sound lasts D; its sound is the narration itself when music is unset, empty or missing, and otherwise the narration mixed with the music bed; a failure writes nothing |
| `VideoServiceClients.ScenarioLoopCounts` | app/services/video_service.py:134-137 | a 12 s narration takes 3 copies of a 5 s template and 4 copies of a 4 s track |
| `VideoServiceClients.ScenarioShapes` | app/services/video_service.py:60-68 | in that scenario the picture is 3 template copies cut to 12 s and the bed is 4 music copies cut to 12 s |
| `VideoServiceClients.RenderScenario` | app/services/video_service.py:106-201 | rendering 12 s of narration over a 5 s template with 4 s of music succeeds with duration 12 and the clip shapes above |
| `VideoServiceClients.RenderIgnoresMusic` | app/services/video_service.py:121-126 | when `background_music` is unset, empty or names a missing file, the render succeeds exactly when the audio exists, the template validates, narration and template decode, the template's loop is defined and the write succeeds; its sound is then the narration alone, and only narration and template are opened |
| `VideoServiceClients.RenderWithoutTemplate` | app/models/video_model.py:32-35 | a request that leaves out `video_template_path` always fails: with "Audio file not found" if the audio is missing, otherwise with "Video template path is required"; nothing is opened or written |

## Left out

- Decoding, mixing and encoding through moviepy. Clips carry durations only. Codec, preset,
  thread count and the temporary audio file have no observable effect on the model.
- Sample-level effect of `volumex`. The gain literal is recorded in the clip tree and no
  claim is made about loudness.
- Floating point: durations are exact reals. The float rounding of `D / T`, `n * T` and
  the cut bounds is not modelled. Frame quantisation at the requested fps is not modelled.
- `os.makedirs` of the output directory is folded into the encoder outcome `Env.write`.
  The same goes for its failure on an output path without a directory part. `os.makedirs`
  of the template directory in `__init__` has no modelled effect.
- Closing clips. The music clip is closed right after mixing (line 76 of
  app/services/video_service.py); the final, narration and template clips are closed only
  after a successful write (lines 181-183). The model has no notion of an open or closed
  clip, and no release guarantee is stated.
- An output file partly written before the encoder fails. The model writes nothing on failure.
- The `print` diagnostics, `async`, and the audio-attachment debug block at
  app/services/video_service.py:146-155, which only prints.
- Pydantic's type coercion (for example "30" to 30) and the validation of the nested
  `ImageScene` entries. Raw bodies are already typed, and images are taken as given.
- HTTP routing, MongoDB access, settings and logging are not part of this model.
