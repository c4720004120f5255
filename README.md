# Method-channel bridge to the native face engine

This project models `MainActivity`, the Android side of the `vi_face_core/methods`
Flutter method channel. The activity receives named calls, each with a loosely typed
argument bundle. It decodes the arguments into the strict Java values the native
`FaceLibrary` takes. It runs every call as one task on a single-thread executor, and each
task posts exactly one response back to the main thread: success, notImplemented, or an
"error" carrying the throwable's message.

Modules, one per part of the bridge:

- `Values`: the objects that cross the channel (`Value`), Java `int`/`long`
  (`int32`/`int64`), `Long.intValue()` (`Low32`), and the throwables a task can meet (`Fault`).
- `ArgumentCodec`: the four `get*Arg` helpers as functions, and the three list helpers.
  The list helpers are methods that fill a fresh array in an index loop, proved against the
  specification functions `IntsOf`, `PixelsOf` and `MatrixOf`. All three are built on `Convert`, which
  converts a list element by element and stops at the first element that throws.
- `FaceEngine`: the six `FaceLibrary` operations (`FacadeCall`) and their replies. The engine is
  an oracle, `Engine`: its reply may depend on every call made before. The subset type makes
  each reply either a throw or a value of the operation's Java return type.
- `CommandRouter`: the task body. `Decode` is each branch's argument decoding, in the order the
  branch reads its arguments. `Respond` builds the response from the engine's reply. `Handle` is
  the whole task as a function. `DecodeCall` and `Execute` are the same steps as methods, and
  they call the array-filling helpers.
- `SerialDispatcher`: the `Bridge` class has the executor queue (`pending`), the shutdown flag,
  the log of engine calls and the log of posted responses. `OnMethodCall` enqueues a task,
  `Step` runs the head task, and `OnDestroy` is `shutdownNow`.

How Java behaviour is modelled:

- A failed checked cast is `ClassCast`. For example, a `Long` where `getIntArg` expects an
  `Integer`, or an `Integer` where the bitmap helper casts to `Long`.
- Unboxing or dereferencing null is `NullPointer`. Reading past the end of the engine's
  `Object[]` is `IndexOutOfBounds`. Whatever the engine throws is `Thrown(message)`.
- The error response keeps the throwable. Its message is that throwable's `getMessage()`. For
  an engine throw the model carries that message as it is. For a runtime exception the text is
  produced by the Java runtime, so the model keeps only the exception's kind.
- Float conversion (`Double.floatValue()`, `(float) threshold`) is an abstract `toFloat`
  function held by the `Bridge`. Doubles and floats are `real`.

Three places where the code does less than its null tests, its helper names or its shutdown call suggest; the model follows the code:

- In `listToIntArray` the null test at line 156 can never fire. `intValue()` at line 155 has
  already thrown on a null element. So a null face id makes the call fail with `NullPointer`;
  it is not defaulted to 0 (`IntsOfNullElementFails`).
- A bitmap element must be a `Long` (line 164). A 2x2 bitmap of zeros yields the vector
  response only if the zeros arrive as `Long`s (`FaceToVectorScenario`). If they arrive as
  `Integer`s the call fails with `ClassCast` before the engine is called
  (`FaceToVectorIntegerPixels`).
- A call submitted after `onDestroy` is modelled only as "not queued, never run". The source
  does not turn the executor's rejection into a response.

## Model

| member | source | states |
|---|---|---|
| `Values.Low32` | android/app/src/main/java/com/mem_friend/MainActivity.java:164 | the narrowed int equals the long modulo 2^32 (two's-complement wrap) and is the long itself when the long fits in 32 bits |
| `ArgumentCodec.BooleanArg` | android/app/src/main/java/com/mem_friend/MainActivity.java:131-134 | absent or null gives false; a stored Boolean is returned; any other type fails with ClassCast, and only then |
| `ArgumentCodec.IntArg` | android/app/src/main/java/com/mem_friend/MainActivity.java:136-139 | absent or null gives 0; a stored Integer is returned; any other type, a Long included, fails with ClassCast |
| `ArgumentCodec.DoubleArg` | android/app/src/main/java/com/mem_friend/MainActivity.java:141-144 | absent or null gives 0.0; a stored Double is returned; any other type fails with ClassCast |
| `ArgumentCodec.StringArg` | android/app/src/main/java/com/mem_friend/MainActivity.java:146-149 | absent or null gives ""; a stored String is returned; any other type fails with ClassCast |
| `ArgumentCodec.ListValue` | android/app/src/main/java/com/mem_friend/MainActivity.java:72 | the `(List)` cast: null stays null, a list passes with its elements, anything else fails with ClassCast |
| `ArgumentCodec.ScalarArgsRoundTrip` | android/app/src/main/java/com/mem_friend/MainActivity.java:131-149 | a value stored under a key is read back unchanged by the matching helper; with the key removed each helper gives its default |
| `ArgumentCodec.Convert` | android/app/src/main/java/com/mem_friend/MainActivity.java:153-185 | a successful element-by-element conversion keeps the list's length and gives, at each index, the conversion of that element |
| `ArgumentCodec.ConvertOfAll` | android/app/src/main/java/com/mem_friend/MainActivity.java:153-185 | when every element converts, the list converts to exactly those values |
| `ArgumentCodec.ConvertOkIff` | android/app/src/main/java/com/mem_friend/MainActivity.java:153-185 | a list converts if and only if every element converts |
| `ArgumentCodec.ConvertFirstFailure` | android/app/src/main/java/com/mem_friend/MainActivity.java:153-185 | the first element that throws decides the list's failure, with that element's fault |
| `ArgumentCodec.ConvertFailureCause` | android/app/src/main/java/com/mem_friend/MainActivity.java:153-185 | a failing conversion has a first failing element whose fault it carries and before which every element converted |
| `ArgumentCodec.IntsOfMeaning` | android/app/src/main/java/com/mem_friend/MainActivity.java:151-159 | a null list gives no ids; otherwise success exactly when every element is an Integer, and then the same length and values |
| `ArgumentCodec.IntsOfNullElementFails` | android/app/src/main/java/com/mem_friend/MainActivity.java:155-156 | a null face id is not defaulted to 0: if it is the first non-Integer element, the helper throws NullPointerException |
| `ArgumentCodec.PixelsOfMeaning` | android/app/src/main/java/com/mem_friend/MainActivity.java:160-168 | a null list gives no pixels; otherwise success exactly when every element is a Long, and then pixel i is the low 32 bits of element i |
| `ArgumentCodec.PixelsOfFirstBadElement` | android/app/src/main/java/com/mem_friend/MainActivity.java:164 | the first non-Long element decides the failure: null gives NullPointer, any other type ClassCast |
| `ArgumentCodec.IntElement` | android/app/src/main/java/com/mem_friend/MainActivity.java:155 | a face id converts exactly when it is an Integer, to its value; a null id throws NullPointer at the unboxing, any other object ClassCast (meaning of the whole helper: `IntsOfMeaning`, `IntsOfNullElementFails`) |
| `ArgumentCodec.LongElement` | android/app/src/main/java/com/mem_friend/MainActivity.java:164 | a pixel converts exactly when it is a Long, to an int congruent to it modulo 2^32 and equal to it when it fits; null throws NullPointer, any other object ClassCast (`PixelsOfMeaning`, `PixelsOfFirstBadElement`) |
| `ArgumentCodec.Cell` | android/app/src/main/java/com/mem_friend/MainActivity.java:183-184 | a null cell is 0, a Double cell its float conversion, any other object fails with ClassCast (`RowMeaning`) |
| `ArgumentCodec.Row` | android/app/src/main/java/com/mem_friend/MainActivity.java:175-186 | a null inner list is an empty row; a list row keeps its length and holds each cell's conversion; any other object fails with ClassCast (`RowMeaning` gives the exact success condition) |
| `ArgumentCodec.RowMeaning` | android/app/src/main/java/com/mem_friend/MainActivity.java:175-186 | a row converts exactly when it is null or a list of null/Double cells; a null row is empty; a row keeps its length; a null cell is 0 and a Double cell its float conversion |
| `ArgumentCodec.MatrixOfMeaning` | android/app/src/main/java/com/mem_friend/MainActivity.java:170-189 | a null outer list gives 0 rows; otherwise success exactly when every row is well formed, and then the row count, empty null rows, row lengths and cell values |
| `ArgumentCodec.ListToIntArray` | android/app/src/main/java/com/mem_friend/MainActivity.java:151-159 | the newly allocated array it fills holds exactly `IntsOf(list)`, and it fails exactly as `IntsOf` does |
| `ArgumentCodec.ListLongToIntArray` | android/app/src/main/java/com/mem_friend/MainActivity.java:160-168 | the newly allocated array it fills holds exactly `PixelsOf(list)`, and it fails exactly as `PixelsOf` does |
| `ArgumentCodec.ListListDoubleToFloat2D` | android/app/src/main/java/com/mem_friend/MainActivity.java:170-189 | the newly allocated array of rows has `MatrixOf`'s row count, every row is newly allocated and holds `MatrixOf`'s row, and it fails exactly as `MatrixOf` does |
| `CommandRouter.Decode` | android/app/src/main/java/com/mem_friend/MainActivity.java:55-123 | gives "no call" exactly for names outside the six known methods; a decoded call is the operation named by the method |
| `CommandRouter.ElementAt` | android/app/src/main/java/com/mem_friend/MainActivity.java:78-79 | `results[k]` succeeds exactly when k is within the array, and gives element k; otherwise it throws IndexOutOfBounds |
| `CommandRouter.FloatUnbox` | android/app/src/main/java/com/mem_friend/MainActivity.java:78 | the distance unboxes exactly when it is a Float, to its value; null throws NullPointer, any other object ClassCast (`RecognitionMap`) |
| `CommandRouter.RecognitionMap` | android/app/src/main/java/com/mem_friend/MainActivity.java:76-80 | succeeds exactly when the engine's array is non-null with a Float at 0 and an Integer at 1, and then is the map with keys exactly "distance" and "id" taken from results[0] and results[1]; a null array throws NullPointer, an empty one IndexOutOfBounds, a non-Float at 0 NullPointer if null and ClassCast otherwise |
| `CommandRouter.Floats` | android/app/src/main/java/com/mem_friend/MainActivity.java:89-90 | the returned `float[]` reaches the channel with the same length and values |
| `CommandRouter.Respond` | android/app/src/main/java/com/mem_friend/MainActivity.java:61-118 | the response to an engine reply is never notImplemented; it is the "error" with null details exactly when the engine threw (keeping its message) or the recognition array fails to unbox; a boolean, map, vector or path reply is the success response carrying that value, null for a null vector or path (the branch lemmas fix it per operation) |
| `CommandRouter.Handle` | android/app/src/main/java/com/mem_friend/MainActivity.java:54-127 | notImplemented exactly for an unknown name, with no engine call; an engine call only of the operation the name selects; every error has code "error" and null details; a decoding failure gives its error and no call; an engine throw gives the error with its message; success only when the engine returned |
| `CommandRouter.DecodeCall` | android/app/src/main/java/com/mem_friend/MainActivity.java:55-120 | decoding through the array-filling helpers yields exactly `Decode` |
| `CommandRouter.Execute` | android/app/src/main/java/com/mem_friend/MainActivity.java:53-128 | the task body's engine call and response are exactly `Handle`'s |
| `CommandRouter.LoadAIModelBranch` | android/app/src/main/java/com/mem_friend/MainActivity.java:56-63 | with both flags decoded, the engine's loadAIModel gets them and its boolean is the success response, or its throw the error |
| `CommandRouter.LoadDatabaseBranch` | android/app/src/main/java/com/mem_friend/MainActivity.java:64-69 | with the path decoded, the engine's loadDatabase gets it and its boolean is the success response, or its throw the error |
| `CommandRouter.FaceRecognitionBranch` | android/app/src/main/java/com/mem_friend/MainActivity.java:70-82 | with bitmap (a list, or absent/null giving no pixels), width and height decoded, faceRecognition gets the narrowed pixels; its array becomes the {"distance", "id"} map, or the error its unboxing raises |
| `CommandRouter.FaceToVectorBranch` | android/app/src/main/java/com/mem_friend/MainActivity.java:83-92 | with bitmap (a list, or absent/null giving no pixels), width and height decoded, faceToVector gets the narrowed pixels and its vector, element for element, or null, is the success response |
| `CommandRouter.BuildVectorDataBranch` | android/app/src/main/java/com/mem_friend/MainActivity.java:93-104 | with ids, vectors and folder decoded, buildVectorData gets them and its path, or null, is the success response |
| `CommandRouter.FaceRecognitionConfigBranch` | android/app/src/main/java/com/mem_friend/MainActivity.java:105-120 | the three ints, the float conversion of the threshold and the resize flag reach faceRecognitionConfig, and its boolean is the success response |
| `CommandRouter.DecodeFailureMakesNoCall` | android/app/src/main/java/com/mem_friend/MainActivity.java:124-127 | any decoding failure makes no engine call and posts the "error" response with that failure and null details |
| `CommandRouter.FaceToVectorScenario` | android/app/src/main/java/com/mem_friend/MainActivity.java:83-92 | a 2x2 bitmap of Long zeros with an engine answering [0.1, 0.2, 0.3] gets exactly that vector back |
| `CommandRouter.FaceToVectorIntegerPixels` | android/app/src/main/java/com/mem_friend/MainActivity.java:85-88 | the same bitmap sent as Integers fails the Long cast: ClassCast error, no engine call |
| `CommandRouter.BuildVectorDataScenario` | android/app/src/main/java/com/mem_friend/MainActivity.java:93-104 | ids [1, 2], vectors [[0.1, 0.2], [0.3, 0.4]] and "/tmp/x" with an engine answering "/tmp/x/index.bin" get that path back |
| `SerialDispatcher.CallsMade` | android/app/src/main/java/com/mem_friend/MainActivity.java:60-111 | a task makes at most one engine call, and none exactly when it made no call |
| `SerialDispatcher.Bridge.constructor` | android/app/src/main/java/com/mem_friend/MainActivity.java:35-37 | a new activity has an empty queue, is not shut down, and has made no calls and posted no responses |
| `SerialDispatcher.Bridge.OnMethodCall` | android/app/src/main/java/com/mem_friend/MainActivity.java:52-53 | before shutdown, appends exactly one task to the queue and changes nothing else; after shutdown, changes nothing |
| `SerialDispatcher.Bridge.Step` | android/app/src/main/java/com/mem_friend/MainActivity.java:53-128 | runs only the head task, only if one is queued, never after shutdown; appends that task's engine call (if any) and its one response as `Handle` gives them; keeps the invariant that responses follow submission order and engine calls are one per task in submission order |
| `SerialDispatcher.Bridge.OnDestroy` | android/app/src/main/java/com/mem_friend/MainActivity.java:192-195 | discards every queued task and sets the shutdown flag; the logs are unchanged |
| `SerialDispatcher.FailureDoesNotStopWorker` | android/app/src/main/java/com/mem_friend/MainActivity.java:124-127 | after the engine throws on the first call, that call gets the "error" response and the second call still reaches the engine, after the first |
| `SerialDispatcher.ShutdownDiscardsQueued` | android/app/src/main/java/com/mem_friend/MainActivity.java:194 | a call queued before shutdown and one submitted after it make no engine call and get no response |

## Left out

- Flutter engine and channel wiring (`configureFlutterEngine`, the binary messenger) is framework
  plumbing. The three event-channel names are never used.
- The native `FaceLibrary` engine is an oracle, `Engine`, that returns a typed value or throws.
  `getAssets()` and the `AssetManager` passed to `loadAIModel` are not modelled: the recorded
  `LoadAIModel` call carries only the two flags.
- Threading is not modelled. The `Handler` hop to the main thread is the append to the response
  log. Concurrency between `onMethodCall` and the worker, and the interruption of an in-flight
  task by `shutdownNow`, are left out: `Step` is atomic.
- Floating point is not modelled. `Double.floatValue()`, the `(float) threshold` cast and the
  float values in the engine's replies are `real`, with the conversion abstract.
- The executor rejecting a submission after shutdown is left out. `execute` throws into the
  caller outside the `try`, and the model only records that nothing is queued.
- `printStackTrace` logging is not modelled.
- `MethodCall.argument` on a bundle that is neither null nor a map is not modelled; the bundle is
  always a map.
- Runtime exception messages are not modelled: an error response carries the exception's kind,
  and only an engine throw carries its message text.
