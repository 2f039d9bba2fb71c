# Digital ink recognizer: the Android method-call handler, modelled in Dafny

This project models the request handling of the Android side of the Flutter
digital-ink-recognition plugin (`DigitalInkRecognizer.java`). The handler sits
between the app's method channel and the ML Kit handwriting engine. It:

- receives three channel methods: start recognition, close a recognizer, manage models;
- turns the loosely typed `ink` and `context` arguments into engine inputs;
- keeps a registry of recognizer handles keyed by the caller's session id;
- projects the engine's candidates into `{text, score}` maps.

The engine and the model manager are foreign code. They appear as function
values (`Engine.Services`): identifier lookup, the download check, and
recognition. A recognizer handle is a small class that counts its `close` calls.

Modules and files:

- `payload.dfy` (`Payload`): channel values (`Value`), 32- and 64-bit integers, `Map.get` and `(String)` cast semantics.
- `ink.dfy` (`InkBuilder`): the ink builder. The specification functions `PointOf`, `StrokeOf` and `InkOf` are built on a generic all-or-nothing conversion. The Java nested loop is the method `BuildInkFromMethodCall`, which is proved equal to `InkOf`. The file also proves the well-formedness characterisation, shape preservation and an encode/build round trip.
- `context.dfy` (`ContextBuilder`): the three-way context outcome (absent, built, malformed) and the builder's collapse of it to an optional context.
- `results.dfy` (`ResultProjector`): the candidate projector loop.
- `engine.dfy` (`Engine`): models, identifier resolution, recognizer handles, invocations and engine replies.
- `recognizer.dfy` (`Dispatcher`): the routing, the start pipeline, close, dispose and the registry itself (`instances`, a field of class `DigitalInkRecognizer`).

Behaviour of the code that a reader might not expect, and which the model keeps:

- Close: `closeDetector` never answers the caller; it has no result parameter. `CloseDetector` returns `NoReply`.
- Malformed writing area: a writing area without `height` (or any malformed context) does not fail the call. The exception is caught, and the engine is called without a context.
- Empty lists: the code does not check for empty stroke or point lists. An empty `strokes` list builds an empty ink.
- Handle left behind: when the ink build fails, the handle that the same request created stays in the registry. The code creates the handle before it builds the ink.
- Uncaught lookup exceptions: `getModel` catches only an MlKitException from `fromLanguageTag`. Any other exception leaves it. On the start path the background task turns it into "Recognition Error"; on the manage path it leaves the handler.

## Model

| member | source | states |
|---|---|---|
| InkBuilder.AllOrNothingFails | packages/google_mlkit_digital_ink_recognition/android/src/main/java/com/google_mlkit_digital_ink_recognition/DigitalInkRecognizer.java:153-175 | one element that fails to convert makes the whole conversion fail: the exception leaves the loops and nothing partial is returned |
| InkBuilder.AllOrNothingSucceeds | packages/google_mlkit_digital_ink_recognition/android/src/main/java/com/google_mlkit_digital_ink_recognition/DigitalInkRecognizer.java:153-172 | when every element converts, the result is exactly the converted elements in input order |
| InkBuilder.AllOrNothingPreserves | packages/google_mlkit_digital_ink_recognition/android/src/main/java/com/google_mlkit_digital_ink_recognition/DigitalInkRecognizer.java:153-172 | a successful conversion has one result per input element, and the k-th result is the conversion of the k-th element |
| InkBuilder.BuildInkFromMethodCall | packages/google_mlkit_digital_ink_recognition/android/src/main/java/com/google_mlkit_digital_ink_recognition/DigitalInkRecognizer.java:147-176 | the nested append loops return exactly the specification ink `InkOf(args)`, and None wherever a cast or lookup would throw |
| InkBuilder.PointOfIffWellFormed | packages/google_mlkit_digital_ink_recognition/android/src/main/java/com/google_mlkit_digital_ink_recognition/DigitalInkRecognizer.java:157-167 | a point converts if and only if it is a map whose `x` and `y` are doubles and whose `t` is an Integer or a Long |
| InkBuilder.StrokeOfIffWellFormed | packages/google_mlkit_digital_ink_recognition/android/src/main/java/com/google_mlkit_digital_ink_recognition/DigitalInkRecognizer.java:153-170 | a stroke converts if and only if it is a map with a `points` list all of whose points are well formed |
| InkBuilder.InkBuildsIffWellFormed | packages/google_mlkit_digital_ink_recognition/android/src/main/java/com/google_mlkit_digital_ink_recognition/DigitalInkRecognizer.java:148-175 | the ink builds if and only if `ink` is a map with a `strokes` list whose every stroke and point is well formed; any missing or mistyped `ink`, `strokes`, `points`, `x`, `y` or `t` gives no ink |
| InkBuilder.InkShapePreserved | packages/google_mlkit_digital_ink_recognition/android/src/main/java/com/google_mlkit_digital_ink_recognition/DigitalInkRecognizer.java:150-172 | a built ink has as many strokes as the payload, each stroke as many points as its payload stroke, and every point in place i, j is the conversion of the payload's point i, j |
| InkBuilder.TimestampNormalised | packages/google_mlkit_digital_ink_recognition/android/src/main/java/com/google_mlkit_digital_ink_recognition/DigitalInkRecognizer.java:160-166 | a timestamp that arrives as a 32-bit Integer or as a Long becomes the same long value |
| InkBuilder.BadTimestampFailsInk | packages/google_mlkit_digital_ink_recognition/android/src/main/java/com/google_mlkit_digital_ink_recognition/DigitalInkRecognizer.java:160-174 | a point whose `t` is neither an Integer nor a Long makes the whole ink build fail |
| InkBuilder.InkRoundTrip | packages/google_mlkit_digital_ink_recognition/android/src/main/java/com/google_mlkit_digital_ink_recognition/DigitalInkRecognizer.java:147-176 | building the channel payload of any ink (small timestamps sent as Integer, large ones as Long) gives back that same ink |
| ContextBuilder.ClassifyContext | packages/google_mlkit_digital_ink_recognition/android/src/main/java/com/google_mlkit_digital_ink_recognition/DigitalInkRecognizer.java:180-203 | the builder ends "absent" exactly when the `context` argument is missing or null, "malformed" (a caught exception) exactly when one of its casts or unboxings throws, and "built" otherwise |
| ContextBuilder.BuildRecognitionContext | packages/google_mlkit_digital_ink_recognition/android/src/main/java/com/google_mlkit_digital_ink_recognition/DigitalInkRecognizer.java:178-204 | a missing or null `context` gives no context, and so does a malformed one (not a map, a non-string `preContext`, a present `writingArea` that is not a map of two doubles); otherwise the context takes `preContext` from the payload or "" when it is missing, and has a writing area, with the payload's width and height, exactly when `writingArea` is present |
| ContextBuilder.WritingAreaWithoutHeight | packages/google_mlkit_digital_ink_recognition/android/src/main/java/com/google_mlkit_digital_ink_recognition/DigitalInkRecognizer.java:193-203 | a writing area with a width but no height makes the whole context collapse to none |
| ContextBuilder.AbsentDiffersFromEmpty | packages/google_mlkit_digital_ink_recognition/android/src/main/java/com/google_mlkit_digital_ink_recognition/DigitalInkRecognizer.java:180-191 | no `context` argument gives no context, while an empty context map gives a context with preContext "" and no writing area |
| ContextBuilder.ContextRoundTrip | packages/google_mlkit_digital_ink_recognition/android/src/main/java/com/google_mlkit_digital_ink_recognition/DigitalInkRecognizer.java:185-200 | building the payload of any context gives back that context, also when an empty preContext is left out of the payload |
| ResultProjector.EntryReadsBack | packages/google_mlkit_digital_ink_recognition/android/src/main/java/com/google_mlkit_digital_ink_recognition/DigitalInkRecognizer.java:209-216 | a projected entry has exactly the keys `text` and `score`; the text is the candidate's, unchanged; the score is the engine's when set and 0 otherwise |
| ResultProjector.ProcessRecognitionResult | packages/google_mlkit_digital_ink_recognition/android/src/main/java/com/google_mlkit_digital_ink_recognition/DigitalInkRecognizer.java:206-219 | the loop produces one entry per candidate, in the engine's order, each the projection of that candidate |
| Engine.Recognizer.constructor | packages/google_mlkit_digital_ink_recognition/android/src/main/java/com/google_mlkit_digital_ink_recognition/DigitalInkRecognizer.java:94-96 | a new handle is bound to the model it was created for and has not been closed |
| Engine.Recognizer.Close | packages/google_mlkit_digital_ink_recognition/android/src/main/java/com/google_mlkit_digital_ink_recognition/DigitalInkRecognizer.java:231-234 | each close call on a handle is counted once |
| Dispatcher.GetModel | packages/google_mlkit_digital_ink_recognition/android/src/main/java/com/google_mlkit_digital_ink_recognition/DigitalInkRecognizer.java:245-262 | resolution yields the model exactly when the lookup returns an identifier; a thrown MlKitException becomes "Failed to create model identifier" with its text, a null identifier "Model Identifier error" / "No model was found", and any other exception escapes |
| Dispatcher.Admit | packages/google_mlkit_digital_ink_recognition/android/src/main/java/com/google_mlkit_digital_ink_recognition/DigitalInkRecognizer.java:62-87 | a start request passes the steps before the registry exactly when its tag resolves, the model is downloaded and the id is a string or null; a tag lookup that is null or throws an MlKitException gives one of the two identifier errors; a non-string tag, a lookup throwing any other exception, or a non-string id after a resolved and downloaded model gives "Recognition Error" (the background task's catch); a model not downloaded gives "Model Error" |
| Dispatcher.ManageModel | packages/google_mlkit_digital_ink_recognition/android/src/main/java/com/google_mlkit_digital_ink_recognition/DigitalInkRecognizer.java:237-243 | the handler itself hands a manage call to the model manager exactly when its tag resolves, with the resolved model; a null lookup or an MlKitException gives one of the two identifier errors; a non-string tag or any other lookup exception throws out of the handler; the handler itself never answers "not implemented" |
| Dispatcher.Answer | packages/google_mlkit_digital_ink_recognition/android/src/main/java/com/google_mlkit_digital_ink_recognition/DigitalInkRecognizer.java:114-143 | an engine failure replies "Recognition Error" with the failure's text; an engine success replies a list with one projected entry per candidate, in the engine's order |
| Dispatcher.DigitalInkRecognizer.constructor | packages/google_mlkit_digital_ink_recognition/android/src/main/java/com/google_mlkit_digital_ink_recognition/DigitalInkRecognizer.java:34 | the registry starts empty |
| Dispatcher.DigitalInkRecognizer.GetOrCreate | packages/google_mlkit_digital_ink_recognition/android/src/main/java/com/google_mlkit_digital_ink_recognition/DigitalInkRecognizer.java:91-99 | an id already present gets its existing handle and the registry is unchanged, whatever model is asked for; an absent id gets a fresh handle for the model, inserted under that id only; the registry invariant (open handles, none under two ids) is kept |
| Dispatcher.DigitalInkRecognizer.PerformRecognitionInBackground | packages/google_mlkit_digital_ink_recognition/android/src/main/java/com/google_mlkit_digital_ink_recognition/DigitalInkRecognizer.java:75-145 | a rejected tag, model or id replies the error and leaves the registry untouched; otherwise the handle is got or created first, so a failed ink build replies "Ink Error" and the entry stays; a built ink is passed, with the context or without one, to the registered handle, and the reply is the projected candidates or "Recognition Error" |
| Dispatcher.DigitalInkRecognizer.CloseDetector | packages/google_mlkit_digital_ink_recognition/android/src/main/java/com/google_mlkit_digital_ink_recognition/DigitalInkRecognizer.java:221-235 | close removes exactly that id and closes its handle once; an unknown id leaves the registry as it was; it never replies, and a non-string id throws out of the handler |
| Dispatcher.DigitalInkRecognizer.Dispose | packages/google_mlkit_digital_ink_recognition/android/src/main/java/com/google_mlkit_digital_ink_recognition/DigitalInkRecognizer.java:265-273 | every handle registered before teardown is closed exactly once, and the registry ends empty |
| Dispatcher.DigitalInkRecognizer.OnMethodCall | packages/google_mlkit_digital_ink_recognition/android/src/main/java/com/google_mlkit_digital_ink_recognition/DigitalInkRecognizer.java:43-58 | the handler itself answers "not implemented" exactly for method names other than the three; a start request that is rejected before the registry answers with the rejection and leaves the registry alone, and any start request ends in a success or an error; close never replies, removes exactly the named id and closes its handle once, and leaves the registry alone when the id is not a string; manage and unknown methods leave the registry and the handles alone |
| Dispatcher.SessionLifecycle | packages/google_mlkit_digital_ink_recognition/android/src/main/java/com/google_mlkit_digital_ink_recognition/DigitalInkRecognizer.java:221-235 | two get-or-create calls under one id share a handle even with different models; after a close call that handle has been closed once, and the next get-or-create call under the id gets a new handle for the model it names |

## Left out

- Threading: the two-thread executor, the posts to the main-thread handler, the `synchronized` blocks and the executor's `shutdown` in `dispose`. The handler is modelled as running each call to completion in sequence, so a call that arrives after `dispose` is not modelled.
- Late results: a recognition result that completes after its id has been closed. Without concurrency, every invocation completes before the next call.
- Engine internals: recognition, the `Ink`, `RecognitionContext` and `WritingArea` builders, `getClient` and `fromLanguageTag`. They are foreign code and appear only as the function values in `Services` and the `Recognizer` handle class. Any check those builders make of their own, such as rejecting an empty stroke, is not modelled. Synchronous exceptions from `getClient` or `recognize` are not modelled either.
- Model manager answers: once a manage call is handed to the model manager, the manager answers the caller itself, and may answer "not implemented" (for an unknown task, for one). Those answers are not modelled; `ManageModel` and `OnMethodCall` speak only of the handler's own replies.
- Model manager: `manageModel` delegation and `isModelDownloaded` belong to the shared model manager, which is not part of this model. Only the resolution step before delegation is modelled (`ManageModel` returns `Delegated`).
- Float narrowing: the `(float)(double)` casts of `x`, `y`, `width` and `height`. Coordinates are reals passed through unchanged.
- Exception messages: the text of a ClassCastException caught on the start path (`e.getMessage()`). Such errors carry `None` as their message. The text of identifier and engine failures is passed through as given.
- Argument bag shape: the arguments of a call are modelled as a map from names to values. A non-map argument bag, which would make every argument read throw, is not modelled.
- Plugin file: GoogleMlKitDigitalInkRecognitionPlugin.java only registers this handler on the channel and calls `dispose` on detach. It is not part of this model.
- Dispatcher.DigitalInkRecognizer.OnMethodCall: for an admitted start request, its contract says only that the reply is a success or an error. The full effect is stated by `PerformRecognitionInBackground`, which it calls.
- Dispatcher.DigitalInkRecognizer.CloseDetector: its frame allows every registered handle to change. Its contract pins down only the removed handle's close count; the invariant keeps every other registered handle open.
