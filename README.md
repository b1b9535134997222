# PoseCoach client core in Dafny

This project models the request-to-state logic of the PoseCoach Android client. The client
sends a picked image to a remote pose-analysis service in one of three ways:

- a simple analysis (label, one feedback line, score);
- a full analysis (landmarks, joint angles, metrics, a list of feedback lines);
- an overlay, which returns a PNG.

Each request moves the screen's `UiState` through `Loading` to a result or an `Error`.

Modules, one per source file, plus three helper modules:

- `PoseApi` (`network/PoseApi.kt`): the response records, with every field the server may omit as an `Option`. It also has the three endpoint declarations with their default query values, written as functions with default parameters.
- `PoseRepository` (`repository/PoseRepository.kt`): `filePart` and the three forwarding calls. Each builds exactly one request value (`Call`). `VariantOf` is an independent reading of a request back to its analysis.
- `ViewModel` (`ui/PoseViewModel.kt`): `UiState`, the abstract result of a repository call (`Outcome`: a response or a thrown exception), and `Resolve`, the pure rule that turns a result into a terminal state. Being a function, it gives the same state for the same result every time. It also has the class `PoseViewModel` with its mutable `state` and two steps. `Start` covers `analyzeSimple`, `analyzeFull` and `overlay` up to the coroutine launch. `Complete` is the main thread applying the value a call's coroutine posted with `postValue`; it may come after a later intent has already set Loading. Ghost fields record every value the state slot takes, in the order the main thread gives them, and every repository call issued.
- `Feedback` (`ui/FeedbackAdapter.kt`): the keyword colour rule, `bind`, `getItemCount` and `onBindViewHolder`.
- `Activity` (`ui/MainActivity.kt`): `spinnerModeOrNull`, the state-to-feedback-items mapping, and the class `MainActivity`. The class has the `pickedFile` field, the pick callback, the three guarded send buttons and the observer.
- `Optional`, `Decimal`, `Text`: Kotlin's nullable values and `?:`, `listOfNotNull`, the decimal rendering of an `Int` in a string template, and `String.contains` / `startsWith`.

The code has no single-flight guard, no typed error taxonomy and no teardown handling, and the model has none either:

- There is no single-flight guard. Every intent sets `Loading` unconditionally, so two intents in a row give two consecutive `Loading` values and two calls. `ViewModel.NoSingleFlight` exhibits this.
- There is no typed error taxonomy (I/O failure, timeout, malformed body). There are only the two messages `HTTP <code>: <error body or "unknown">` and `<exception message or "unknown error">`.
- Results that arrive after teardown are not discarded.
- A successful response without a body is reported as `HTTP <code>: ...` rather than as a malformed response.
- The overlay's content type is not checked.

## Model

| member | source | states |
|---|---|---|
| `Optional.Option.GetOr` | app/src/main/java/com/example/posecoach/ui/PoseViewModel.kt:39 | The elvis operator: the value when present, the default when null. |
| `Optional.ListOfNotNull` | app/src/main/java/com/example/posecoach/ui/MainActivity.kt:83 | One non-null element gives a one-element list of it; one null gives the empty list; the empty input gives the empty list. The result is no longer than the input, every result element was present, and every present element is kept. |
| `Optional.ListOfNotNullAppend` | app/src/main/java/com/example/posecoach/ui/MainActivity.kt:83 | The result for a concatenation is the concatenation of the results; with the one-element cases this fixes order and multiplicity: the non-null elements, in order, each once per occurrence. |
| `Decimal.NatToDecimal` | app/src/main/java/com/example/posecoach/ui/PoseViewModel.kt:39 | The decimal rendering is a non-empty string of digits without a leading zero. |
| `Decimal.NatToDecimalRoundTrip` | app/src/main/java/com/example/posecoach/ui/PoseViewModel.kt:39 | The digits of n denote n. |
| `Decimal.IntToDecimal` | app/src/main/java/com/example/posecoach/ui/PoseViewModel.kt:39 | Rendering an `Int` gives digits, preceded by a minus sign exactly when it is negative. |
| `Decimal.IntToDecimalRoundTrip` | app/src/main/java/com/example/posecoach/ui/PoseViewModel.kt:39 | Reading back the rendering of any integer gives that integer. |
| `Decimal.CanonicalRoundTrip` | app/src/main/java/com/example/posecoach/ui/PoseViewModel.kt:39 | A digit string without a leading zero (or "0") is the rendering of its own value. |
| `Decimal.ParseDecimalExact` | app/src/main/java/com/example/posecoach/ui/PoseViewModel.kt:39 | The reader accepts only renderings: whatever it reads as i is exactly the rendering of i (no leading zeros, no "-0"). |
| `Text.ContainsIsOccurs` | app/src/main/java/com/example/posecoach/ui/FeedbackAdapter.kt:17 | `Text.Contains`, the model of `contains`, holds exactly when the pattern occurs at some position of the text. |
| `Text.SplitAtFirstJoin` | app/src/main/java/com/example/posecoach/ui/PoseViewModel.kt:39 | Splitting at the first separator recovers the two parts when the separator is absent from the first part. |
| `Text.SplitAtFirstParts` | app/src/main/java/com/example/posecoach/ui/PoseViewModel.kt:39 | Conversely, any split found is the input's two parts around the first separator. |
| `PoseApi.EndpointDefaults` | app/src/main/java/com/example/posecoach/network/PoseApi.kt:23-44 | For `PoseApi.AnalyzePose`, `AnalyzePoseFull` and `AnalyzePoseOverlay` left at their defaults: the simple call sends format "simple" and the full call format "full". The overlay call sends no format. None of them sends a mode. |
| `PoseApi.EndpointShapes` | app/src/main/java/com/example/posecoach/network/PoseApi.kt:23-44 | `PoseApi.AnalyzePose`, `AnalyzePoseFull` and `AnalyzePoseOverlay` are all POSTs carrying the given part and mode unchanged. Simple and full share the path `analyze_pose`; the overlay uses `analyze_pose_overlay`. |
| `PoseRepository.FilePart` | app/src/main/java/com/example/posecoach/repository/PoseRepository.kt:15-18 | The part is named "image", carries the file's own name and has content type "image/*". |
| `PoseRepository.Request` | app/src/main/java/com/example/posecoach/repository/PoseRepository.kt:20-41 | `PoseRepository.AnalyzeSimple`, `AnalyzeFull` and `Overlay`, selected by variant: each analysis makes one POST with the file's part and the mode unchanged. The request reads back as the analysis that built it. |
| `PoseRepository.FormatsAreTheDefaults` | app/src/main/java/com/example/posecoach/repository/PoseRepository.kt:20-34 | The formats `PoseRepository.AnalyzeSimple` and `AnalyzeFull` pass explicitly equal the endpoints' defaults. |
| `PoseRepository.RequestInjective` | app/src/main/java/com/example/posecoach/repository/PoseRepository.kt:20-41 | Equal requests come from the same analysis, file and mode. |
| `ViewModel.BranchOf` | app/src/main/java/com/example/posecoach/ui/PoseViewModel.kt:36-42 | The success branch is taken exactly when the response is successful and its body is non-null. Any other response is rejected with its own code and error body; an exception is raised with its own message. |
| `ViewModel.HttpErrorMessageRoundTrip` | app/src/main/java/com/example/posecoach/ui/PoseViewModel.kt:39 | The status code and the error body (or "unknown") can be read back from the message `ViewModel.HttpErrorMessage` builds. |
| `ViewModel.ParseHttpErrorExact` | app/src/main/java/com/example/posecoach/ui/PoseViewModel.kt:39 | The reader accepts only messages of exactly the form "HTTP <code>: <text>", so the read-back fixes the message text. |
| `ViewModel.Resolve` | app/src/main/java/com/example/posecoach/ui/PoseViewModel.kt:36-42 | The posted state is never Idle or Loading. It is an Error exactly when the success branch is not taken. A success case holds the body of a successful reply of that same call. A rejected response's message carries its code and error body (or "unknown"). An exception's message is its message or "unknown error" (`ViewModel.ExceptionMessage`). |
| `ViewModel.ResolveRejectedText` | app/src/main/java/com/example/posecoach/ui/PoseViewModel.kt:38-39 | A rejected response ends in exactly "HTTP <code>: <error body or unknown>", the text `Resolve`'s read-back clause determines by `ViewModel.ParseHttpErrorExact`. |
| `ViewModel.ResolveStaysInItsVariant` | app/src/main/java/com/example/posecoach/ui/PoseViewModel.kt:31-78 | A call's result is its own success case or an Error, never another call's success case. |
| `ViewModel.ServerErrorExample` | app/src/main/java/com/example/posecoach/ui/PoseViewModel.kt:54-55 | A full analysis answered with 500 and body "server error" ends in `Error("HTTP 500: server error")`. |
| `ViewModel.PoseViewModel.constructor` | app/src/main/java/com/example/posecoach/ui/PoseViewModel.kt:28 | A fresh view model is Idle, with no calls issued. |
| `ViewModel.PoseViewModel.Start` | app/src/main/java/com/example/posecoach/ui/PoseViewModel.kt:32-35 | The state becomes Loading whatever it was, and exactly one repository call for the intent's variant, file and mode is issued. |
| `ViewModel.PoseViewModel.Complete` | app/src/main/java/com/example/posecoach/ui/PoseViewModel.kt:36-42 | The main thread applies the value the call posted, `Resolve(reply)`, and nothing else changes. The invariant keeps: the Loading count equals the calls, every terminal value has an earlier Loading, and Idle never returns. |
| `Feedback.Color.Hex` | app/src/main/java/com/example/posecoach/ui/FeedbackAdapter.kt:18-24 | Green is "#2E7D32", yellow "#F9A825", red "#C62828": each a "#RRGGBB" code that `Color.parseColor` accepts. |
| `Feedback.HexInjective` | app/src/main/java/com/example/posecoach/ui/FeedbackAdapter.kt:18-24 | The three colours have three different codes. |
| `Feedback.Classify` | app/src/main/java/com/example/posecoach/ui/FeedbackAdapter.kt:16-26 | Green exactly when a good keyword occurs. Yellow exactly when none does and a caution keyword occurs. Red exactly when neither kind occurs. |
| `Feedback.GoodWinsOverCaution` | app/src/main/java/com/example/posecoach/ui/FeedbackAdapter.kt:16-21 | Text with both a good and a caution keyword is green. |
| `Feedback.Bind` | app/src/main/java/com/example/posecoach/ui/FeedbackAdapter.kt:14-27 | The row shows the text exactly as given, in its classified colour. |
| `Feedback.FeedbackAdapter.ItemCount` | app/src/main/java/com/example/posecoach/ui/FeedbackAdapter.kt:40 | The item count is the number of items. |
| `Feedback.FeedbackAdapter.BindViewHolder` | app/src/main/java/com/example/posecoach/ui/FeedbackAdapter.kt:36-38 | Position i shows item i. |
| `Feedback.FeedbackAdapter.Rows` | app/src/main/java/com/example/posecoach/ui/FeedbackAdapter.kt:36-40 | The list shows one row per item, in order, each bound from its item. |
| `Activity.SpinnerModeOrNull` | app/src/main/java/com/example/posecoach/ui/MainActivity.kt:113-116 | No selection, or a selection starting with "default", gives null. Otherwise the selection itself is the mode. |
| `Activity.SpinnerEntries` | app/src/main/java/com/example/posecoach/ui/MainActivity.kt:40 | On the spinner's entries: "default(빈값)" gives null, "squat" gives "squat", "pushup" gives "pushup". |
| `Activity.FeedbackItems` | app/src/main/java/com/example/posecoach/ui/MainActivity.kt:73-110 | Idle and Loading leave the list alone. SimpleOk gives its feedback line, or nothing when it is null. FullOk gives its feedback list, or empty. OverlayOk and Error give an empty list. |
| `Activity.MainActivity.constructor` | app/src/main/java/com/example/posecoach/ui/MainActivity.kt:21 | No file is picked, the spinner shows its first entry and the list has no adapter. |
| `Activity.MainActivity.SelectMode` | app/src/main/java/com/example/posecoach/ui/MainActivity.kt:40-42 | The spinner's selection becomes the chosen entry of the mode list. |
| `Activity.MainActivity.OnImagePicked` | app/src/main/java/com/example/posecoach/ui/MainActivity.kt:25-31 | A returned image becomes the picked file; a cancelled pick keeps the previous one. |
| `Activity.MainActivity.OnSend` | app/src/main/java/com/example/posecoach/ui/MainActivity.kt:54-70 | With no picked file the click changes nothing. Otherwise the button's own intent starts with the picked file and the spinner's mode. |
| `Activity.MainActivity.OnState` | app/src/main/java/com/example/posecoach/ui/MainActivity.kt:73-110 | For a terminal state the list gets a new adapter over `FeedbackItems`; for Idle and Loading it keeps its adapter. |

## Left out

- Coroutine dispatch and thread hand-off (`launch(Dispatchers.IO)`, `postValue`) are modelled as two sequential steps. `Start` is the click setting Loading on the main thread. `Complete` is the main thread applying a posted value, not the post itself. `Complete` may only be called for a variant whose call is still pending, and any pending call may complete next. So a result posted before a later click can be applied after that click's Loading, leaving the slot on the earlier call's result while the later call is pending; the model allows this order, and `ViewModel.LateResultAfterLaterClick` exhibits it. When `postValue` merges two posts made before the main thread runs, only the later one is applied: that is one `Complete`, and the overwritten call stays pending for good. The model does not describe the IO thread's post as a step of its own.
- The network, JSON decoding, multipart encoding and Retrofit's `isSuccessful` are left out. The transport is abstracted as the `Outcome` value a call gives back. Reading the body bytes or the error body text can throw; that exception is folded into `Threw`.
- Retrofit omits a null query parameter. In the model this is an `Option` field of the request, where None means "not sent".
- Floating-point numbers (angles, JSON numbers) are `real`.
- The pose label, score, angles and metrics in the result text view are left out. So are the image view and the Loading and error texts. Only the feedback list is modelled.
- `copyUriToCache`, image loading, bitmap decoding and RecyclerView layout are I/O. The pick callback receives the cached copy as a parameter.
- `Activity.MainActivity.SelectMode`: the spinner widget's behaviour (it starts on its first entry and the user picks an entry) is assumed, not taken from the app's code.
- CameraActivity.kt is not part of this model. Its `spinnerModeOrNull` is the same rule as `Activity.SpinnerModeOrNull`.
- RetrofitClient.kt (base address, timeouts, logging), the Python server and the build configuration are not part of this model.
