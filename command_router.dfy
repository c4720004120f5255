/** The body of the task `onMethodCall` submits: pick a branch by method name,
    decode the arguments, make one call into the face engine and answer with
    exactly one response -- success, not-implemented, or error. */
module CommandRouter {
  import opened Values
  import opened ArgumentCodec
  import opened FaceEngine

  /** A method-channel call: the method name and its argument bundle. */
  datatype MethodCall = MethodCall(name: string, arguments: Bundle)

  /** The one answer a call gets through its `MethodChannel.Result`. */
  datatype Response =
    | Success(result: Value)
    | NotImplemented
    | Error(code: string, cause: Fault, details: Value)  // cause.getMessage() is the message

  /** What handling one call did: the engine call it made, if any, and its response. */
  datatype Outcome = Outcome(made: Option<FacadeCall>, response: Response)

  const KnownMethods: set<string> :=
    {"loadAIModel", "loadDatabase", "faceRecognition", "faceToVector", "buildVectorData",
     "faceRecognitionConfig"}

  /** The decoding half of each branch, in the order the branch reads its arguments:
      the engine call it would make, or None for an unknown name. */
  function Decode(call: MethodCall, toFloat: real -> real): (r: Result<Option<FacadeCall>>)
    ensures r == Ok(None) <==> call.name !in KnownMethods
    ensures r.Ok? && r.value.Some? ==> OperationName(r.value.value) == call.name
  {
    var args := call.arguments;
    if call.name == "loadAIModel" then
      var detectGpu :- BooleanArg(args, "detect_gpu");
      var recognitionGpu :- BooleanArg(args, "recognition_gpu");
      Ok(Some(LoadAIModel(detectGpu, recognitionGpu)))
    else if call.name == "loadDatabase" then
      var filePath :- StringArg(args, "filePath");
      Ok(Some(LoadDatabase(filePath)))
    else if call.name == "faceRecognition" then
      var bitmapList :- ListArg(args, "bitmap");
      var width :- IntArg(args, "width");
      var height :- IntArg(args, "height");
      var pixels :- PixelsOf(bitmapList);
      Ok(Some(FaceRecognition(pixels, width, height)))
    else if call.name == "faceToVector" then
      var bitmapList :- ListArg(args, "bitmap");
      var width :- IntArg(args, "width");
      var height :- IntArg(args, "height");
      var pixels :- PixelsOf(bitmapList);
      Ok(Some(FaceToVector(pixels, width, height)))
    else if call.name == "buildVectorData" then
      var faceIdsList :- ListArg(args, "faceIds");
      var faceIds :- IntsOf(faceIdsList);
      var faceVectorsList :- ListArg(args, "faceVectors");
      var faceVectors :- MatrixOf(faceVectorsList, toFloat);
      var folderSaveTree :- StringArg(args, "folderSaveTree");
      Ok(Some(BuildVectorData(faceIds, faceVectors, folderSaveTree)))
    else if call.name == "faceRecognitionConfig" then
      var minDistanceFace :- IntArg(args, "minDistanceFace");
      var maxDistanceFace :- IntArg(args, "maxDistanceFace");
      var maxAngleFace :- IntArg(args, "maxAngleFace");
      var threshold :- DoubleArg(args, "faceRecognitionThreshold");
      var resizeOption :- BooleanArg(args, "resize_option");
      Ok(Some(FaceRecognitionConfig(minDistanceFace, maxDistanceFace, maxAngleFace,
                                    toFloat(threshold), resizeOption)))
    else
      Ok(None)
  }

  /** Reading element k of a Java array: past the end it throws. */
  function ElementAt(xs: seq<Value>, k: nat): (r: Result<Value>)
    ensures r.Ok? <==> k < |xs|
    ensures r.Ok? ==> r.value == xs[k]
    ensures r.Fail? ==> r.fault == IndexOutOfBounds
  {
    if k < |xs| then Ok(xs[k]) else Fail(IndexOutOfBounds)
  }

  /** The `(float)` unboxing of the engine's distance: a Float gives its value, null throws
      NullPointerException, and any other object fails the cast. */
  function FloatUnbox(v: Value): (r: Result<real>)
    ensures r.Ok? <==> v.Float?
    ensures r.Ok? ==> r.value == v.f
    ensures v == Null ==> r == Fail(NullPointer)
    ensures r.Fail? && v != Null ==> r.fault == ClassCast
  {
    match v
    case Float(f) => Ok(f)
    case Null => Fail(NullPointer)
    case _ => Fail(ClassCast)
  }

  /** The map `faceRecognition` answers with, built from the engine's `Object[]`. */
  function RecognitionMap(results: Option<seq<Value>>): (r: Result<Value>)
    ensures r.Ok? <==> (results.Some? && |results.value| >= 2
                        && results.value[0].Float? && results.value[1].Int?)
    ensures r.Ok? ==> r.value.Dict? && r.value.entries.Keys == {"distance", "id"}
                      && r.value.entries["distance"] == results.value[0]
                      && r.value.entries["id"] == results.value[1]
    ensures results.None? ==> r == Fail(NullPointer)
    ensures results.Some? && |results.value| == 0 ==> r == Fail(IndexOutOfBounds)
    ensures results.Some? && |results.value| > 0 && !results.value[0].Float? ==>
              r == Fail(if results.value[0].Null? then NullPointer else ClassCast)
  {
    var xs :- if results.None? then Fail(NullPointer) else Ok(results.value);
    var first :- ElementAt(xs, 0);
    var distance :- FloatUnbox(first);
    var second :- ElementAt(xs, 1);
    var id :- IntElement(second);
    Ok(Dict(map["distance" := Float(distance), "id" := Int(id)]))
  }

  /** A `float[]` as the list of Floats the channel carries back. */
  function Floats(fs: seq<real>): (vs: seq<Value>)
    ensures |vs| == |fs| && forall i :: 0 <= i < |fs| ==> vs[i] == Float(fs[i])
  {
    seq(|fs|, i requires 0 <= i < |fs| => Float(fs[i]))
  }

  function Failed(f: Fault): Response {
    Error("error", f, Null)
  }

  /** The response the branch posts once the engine call has come back: never
      notImplemented; an error exactly when the engine threw or its recognition array
      could not be unboxed; otherwise the engine's value as the channel carries it. */
  function Respond(reply: Reply): (r: Response)
    ensures !r.NotImplemented?
    ensures r.Error? ==> r.code == "error" && r.details == Null
    ensures r.Error? <==> reply.Threw? || (reply.Objects? && RecognitionMap(reply.results).Fail?)
    ensures reply.Threw? ==> r.cause == Thrown(reply.message)
    ensures reply.Flag? ==> r == Success(Bool(reply.ok))
    ensures reply.Objects? && r.Success? ==> r.result == RecognitionMap(reply.results).value
    ensures reply.Vector? && reply.vector.Some? ==>
              r.Success? && r.result.List? && |r.result.elems| == |reply.vector.value|
              && forall i :: 0 <= i < |reply.vector.value| ==> r.result.elems[i] == Float(reply.vector.value[i])
    ensures (reply.Vector? && reply.vector.None?) || (reply.Path? && reply.path.None?) ==> r == Success(Null)
    ensures reply.Path? && reply.path.Some? ==> r == Success(Str(reply.path.value))
  {
    match reply
    case Threw(m) => Failed(Thrown(m))
    case Flag(ok) => Success(Bool(ok))
    case Objects(results) =>
      (match RecognitionMap(results)
       case Ok(v) => Success(v)
       case Fail(f) => Failed(f))
    case Vector(v) => Success(if v.None? then Null else List(Floats(v.value)))
    case Path(p) => Success(if p.None? then Null else Str(p.value))
  }

  /** The whole task: decode, call the engine (whose reply depends on the calls before),
      respond; any throwable becomes an error response. */
  function Handle(engine: Engine, toFloat: real -> real, history: seq<FacadeCall>, call: MethodCall)
    : (out: Outcome)
    ensures out.response.NotImplemented? <==> call.name !in KnownMethods
    ensures out.response.NotImplemented? ==> out.made == None
    ensures out.made.Some? ==> OperationName(out.made.value) == call.name
    ensures out.response.Error? ==> out.response.code == "error" && out.response.details == Null
    ensures call.name in KnownMethods && out.made == None ==>
              Decode(call, toFloat).Fail? && out.response == Failed(Decode(call, toFloat).fault)
    ensures out.made.Some? && engine(history, out.made.value).Threw? ==>
              out.response == Failed(Thrown(engine(history, out.made.value).message))
    ensures out.response.Success? ==> out.made.Some? && !engine(history, out.made.value).Threw?
  {
    match Decode(call, toFloat)
    case Fail(f) => Outcome(None, Failed(f))
    case Ok(None) => Outcome(None, NotImplemented)
    case Ok(Some(c)) => Outcome(Some(c), Respond(engine(history, c)))
  }

  // ---------------------------------------------------------------------------
  // The task body as the source runs it

  /** The argument decoding of the switch, calling the array-filling helpers. */
  method DecodeCall(call: MethodCall, toFloat: real -> real) returns (r: Result<Option<FacadeCall>>)
    ensures r == Decode(call, toFloat)
  {
    var args := call.arguments;
    if call.name == "loadAIModel" {
      var detectGpu :- BooleanArg(args, "detect_gpu");
      var recognitionGpu :- BooleanArg(args, "recognition_gpu");
      return Ok(Some(LoadAIModel(detectGpu, recognitionGpu)));
    } else if call.name == "loadDatabase" {
      var filePath :- StringArg(args, "filePath");
      return Ok(Some(LoadDatabase(filePath)));
    } else if call.name == "faceRecognition" || call.name == "faceToVector" {
      var bitmapList :- ListArg(args, "bitmap");
      var width :- IntArg(args, "width");
      var height :- IntArg(args, "height");
      var pixels := ListLongToIntArray(bitmapList);
      if pixels.Fail? {
        return Fail(pixels.fault);
      }
      var px := pixels.value[..];
      if call.name == "faceRecognition" {
        return Ok(Some(FaceRecognition(px, width, height)));
      }
      return Ok(Some(FaceToVector(px, width, height)));
    } else if call.name == "buildVectorData" {
      var faceIdsList :- ListArg(args, "faceIds");
      var faceIds := ListToIntArray(faceIdsList);
      if faceIds.Fail? {
        return Fail(faceIds.fault);
      }
      var faceVectorsList :- ListArg(args, "faceVectors");
      var faceVectors := ListListDoubleToFloat2D(faceVectorsList, toFloat);
      if faceVectors.Fail? {
        return Fail(faceVectors.fault);
      }
      var folderSaveTree :- StringArg(args, "folderSaveTree");
      var rows := faceVectors.value;
      var vectors := seq(rows.Length, i requires 0 <= i < rows.Length && rows[i] != null
                                        reads rows, if 0 <= i < rows.Length then {rows[i]} else {}
                                        => rows[i][..]);
      assert vectors == MatrixOf(faceVectorsList, toFloat).value;
      return Ok(Some(BuildVectorData(faceIds.value[..], vectors, folderSaveTree)));
    } else if call.name == "faceRecognitionConfig" {
      var minDistanceFace :- IntArg(args, "minDistanceFace");
      var maxDistanceFace :- IntArg(args, "maxDistanceFace");
      var maxAngleFace :- IntArg(args, "maxAngleFace");
      var threshold :- DoubleArg(args, "faceRecognitionThreshold");
      var resizeOption :- BooleanArg(args, "resize_option");
      return Ok(Some(FaceRecognitionConfig(minDistanceFace, maxDistanceFace, maxAngleFace,
                                           toFloat(threshold), resizeOption)));
    }
    return Ok(None);
  }

  /** The task body: the switch, the engine call and the catch-all that turns any throwable
      into the "error" response. */
  method Execute(engine: Engine, toFloat: real -> real, history: seq<FacadeCall>, call: MethodCall)
    returns (out: Outcome)
    ensures out == Handle(engine, toFloat, history, call)
  {
    var decoded := DecodeCall(call, toFloat);
    match decoded
    case Fail(f) =>
      out := Outcome(None, Failed(f));
    case Ok(None) =>
      out := Outcome(None, NotImplemented);
    case Ok(Some(c)) =>
      var reply := engine(history, c);
      out := Outcome(Some(c), Respond(reply));
  }

  // ---------------------------------------------------------------------------
  // Each branch calls its own engine operation with the decoded arguments and posts its reply

  lemma LoadAIModelBranch(engine: Engine, toFloat: real -> real, history: seq<FacadeCall>, args: Bundle,
                          detectGpu: bool, recognitionGpu: bool)
    requires BooleanArg(args, "detect_gpu") == Ok(detectGpu)
    requires BooleanArg(args, "recognition_gpu") == Ok(recognitionGpu)
    ensures var c := LoadAIModel(detectGpu, recognitionGpu);
            var out := Handle(engine, toFloat, history, MethodCall("loadAIModel", args));
            out.made == Some(c)
            && out.response == if engine(history, c).Flag? then Success(Bool(engine(history, c).ok))
                               else Failed(Thrown(engine(history, c).message))
  {
  }

  lemma LoadDatabaseBranch(engine: Engine, toFloat: real -> real, history: seq<FacadeCall>, args: Bundle,
                           filePath: string)
    requires StringArg(args, "filePath") == Ok(filePath)
    ensures var c := LoadDatabase(filePath);
            var out := Handle(engine, toFloat, history, MethodCall("loadDatabase", args));
            out.made == Some(c)
            && out.response == if engine(history, c).Flag? then Success(Bool(engine(history, c).ok))
                               else Failed(Thrown(engine(history, c).message))
  {
  }

  /** `faceRecognition` answers with the map {"distance": results[0], "id": results[1]}. */
  lemma FaceRecognitionBranch(engine: Engine, toFloat: real -> real, history: seq<FacadeCall>, args: Bundle,
                              bitmap: Option<seq<Value>>, width: int32, height: int32)
    requires ListArg(args, "bitmap") == Ok(bitmap)
    requires IntArg(args, "width") == Ok(width) && IntArg(args, "height") == Ok(height)
    requires PixelsOf(bitmap).Ok?
    ensures var c := FaceRecognition(PixelsOf(bitmap).value, width, height);
            var out := Handle(engine, toFloat, history, MethodCall("faceRecognition", args));
            out.made == Some(c)
            && (engine(history, c).Threw? ==> out.response == Failed(Thrown(engine(history, c).message)))
            && (engine(history, c).Objects? ==>
                  match RecognitionMap(engine(history, c).results)
                  case Ok(m) => out.response == Success(m)
                  case Fail(f) => out.response == Failed(f))
            && (out.response.Success? ==>
                  var results := engine(history, c).results.value;
                  out.response.result == Dict(map["distance" := results[0], "id" := results[1]]))
  {
    var c := FaceRecognition(PixelsOf(bitmap).value, width, height);
    var out := Handle(engine, toFloat, history, MethodCall("faceRecognition", args));
    if out.response.Success? {
      var m := out.response.result;
      var results := engine(history, c).results.value;
      assert m.entries == map["distance" := results[0], "id" := results[1]];
    }
  }

  lemma FaceToVectorBranch(engine: Engine, toFloat: real -> real, history: seq<FacadeCall>, args: Bundle,
                           bitmap: Option<seq<Value>>, width: int32, height: int32)
    requires ListArg(args, "bitmap") == Ok(bitmap)
    requires IntArg(args, "width") == Ok(width) && IntArg(args, "height") == Ok(height)
    requires PixelsOf(bitmap).Ok?
    ensures var c := FaceToVector(PixelsOf(bitmap).value, width, height);
            var out := Handle(engine, toFloat, history, MethodCall("faceToVector", args));
            var reply := engine(history, c);
            out.made == Some(c)
            && (reply.Threw? ==> out.response == Failed(Thrown(reply.message)))
            && (reply.Vector? && reply.vector.None? ==> out.response == Success(Null))
            && (reply.Vector? && reply.vector.Some? ==>
                  out.response.Success? && out.response.result.List?
                  && |out.response.result.elems| == |reply.vector.value|
                  && forall i :: 0 <= i < |reply.vector.value| ==>
                       out.response.result.elems[i] == Float(reply.vector.value[i]))
  {
  }

  lemma BuildVectorDataBranch(engine: Engine, toFloat: real -> real, history: seq<FacadeCall>, args: Bundle,
                              faceIds: seq<int32>, faceVectors: seq<seq<real>>, folderSaveTree: string)
    requires ListArg(args, "faceIds").Ok? && IntsOf(ListArg(args, "faceIds").value) == Ok(faceIds)
    requires ListArg(args, "faceVectors").Ok?
    requires MatrixOf(ListArg(args, "faceVectors").value, toFloat) == Ok(faceVectors)
    requires StringArg(args, "folderSaveTree") == Ok(folderSaveTree)
    ensures var c := BuildVectorData(faceIds, faceVectors, folderSaveTree);
            var out := Handle(engine, toFloat, history, MethodCall("buildVectorData", args));
            var reply := engine(history, c);
            out.made == Some(c)
            && out.response == if reply.Threw? then Failed(Thrown(reply.message))
                               else Success(if reply.path.None? then Null else Str(reply.path.value))
  {
  }

  /** The threshold reaches the engine as the float conversion of the Double argument. */
  lemma FaceRecognitionConfigBranch(engine: Engine, toFloat: real -> real, history: seq<FacadeCall>,
                                    args: Bundle, minDistanceFace: int32, maxDistanceFace: int32,
                                    maxAngleFace: int32, threshold: real, resizeOption: bool)
    requires IntArg(args, "minDistanceFace") == Ok(minDistanceFace)
    requires IntArg(args, "maxDistanceFace") == Ok(maxDistanceFace)
    requires IntArg(args, "maxAngleFace") == Ok(maxAngleFace)
    requires DoubleArg(args, "faceRecognitionThreshold") == Ok(threshold)
    requires BooleanArg(args, "resize_option") == Ok(resizeOption)
    ensures var c := FaceRecognitionConfig(minDistanceFace, maxDistanceFace, maxAngleFace,
                                           toFloat(threshold), resizeOption);
            var out := Handle(engine, toFloat, history, MethodCall("faceRecognitionConfig", args));
            out.made == Some(c)
            && out.response == if engine(history, c).Flag? then Success(Bool(engine(history, c).ok))
                               else Failed(Thrown(engine(history, c).message))
  {
  }

  /** An argument that fails to decode stops the branch before the engine is called:
      the response is the "error" response carrying that failure. */
  lemma DecodeFailureMakesNoCall(engine: Engine, toFloat: real -> real, history: seq<FacadeCall>,
                                 call: MethodCall)
    requires Decode(call, toFloat).Fail?
    ensures Handle(engine, toFloat, history, call)
            == Outcome(None, Error("error", Decode(call, toFloat).fault, Null))
  {
  }

  // ---------------------------------------------------------------------------
  // Worked scenarios

  /** `faceToVector` on a 2x2 bitmap of zeros, sent as Longs, with an engine answering
      [0.1, 0.2, 0.3]: the response is exactly that vector. */
  lemma FaceToVectorScenario(engine: Engine, toFloat: real -> real, history: seq<FacadeCall>)
    requires engine(history, FaceToVector([0, 0, 0, 0], 2, 2)) == Vector(Some([0.1, 0.2, 0.3]))
    ensures Handle(engine, toFloat, history,
                   MethodCall("faceToVector",
                              map["bitmap" := List([Long(0), Long(0), Long(0), Long(0)]),
                                  "width" := Int(2), "height" := Int(2)]))
            == Outcome(Some(FaceToVector([0, 0, 0, 0], 2, 2)),
                       Success(List([Float(0.1), Float(0.2), Float(0.3)])))
  {
    var bitmap := [Long(0), Long(0), Long(0), Long(0)];
    PixelsOfMeaning(bitmap);
    assert PixelsOf(Some(bitmap)).value == [0, 0, 0, 0];
    assert Floats([0.1, 0.2, 0.3]) == [Float(0.1), Float(0.2), Float(0.3)];
  }

  /** The same bitmap sent as Integers fails the `(Long)` cast: an error response and no
      engine call. */
  lemma FaceToVectorIntegerPixels(engine: Engine, toFloat: real -> real, history: seq<FacadeCall>)
    ensures Handle(engine, toFloat, history,
                   MethodCall("faceToVector",
                              map["bitmap" := List([Int(0), Int(0), Int(0), Int(0)]),
                                  "width" := Int(2), "height" := Int(2)]))
            == Outcome(None, Error("error", ClassCast, Null))
  {
    PixelsOfFirstBadElement([Int(0), Int(0), Int(0), Int(0)], 0);
  }

  /** `buildVectorData` with ids [1, 2], vectors [[0.1, 0.2], [0.3, 0.4]] and folder "/tmp/x",
      with an engine answering "/tmp/x/index.bin": the response is that path. */
  lemma BuildVectorDataScenario(engine: Engine, toFloat: real -> real, history: seq<FacadeCall>)
    requires engine(history, BuildVectorData([1, 2], [[toFloat(0.1), toFloat(0.2)], [toFloat(0.3), toFloat(0.4)]],
                                             "/tmp/x"))
             == Path(Some("/tmp/x/index.bin"))
    ensures Handle(engine, toFloat, history,
                   MethodCall("buildVectorData",
                              map["faceIds" := List([Int(1), Int(2)]),
                                  "faceVectors" := List([List([Double(0.1), Double(0.2)]),
                                                         List([Double(0.3), Double(0.4)])]),
                                  "folderSaveTree" := Str("/tmp/x")]))
            .response == Success(Str("/tmp/x/index.bin"))
  {
    var rows := [List([Double(0.1), Double(0.2)]), List([Double(0.3), Double(0.4)])];
    IntsOfMeaning([Int(1), Int(2)]);
    assert IntsOf(Some([Int(1), Int(2)])).value == [1, 2];
    MatrixOfMeaning(rows, toFloat);
    assert WellFormedRow(rows[0]) && WellFormedRow(rows[1]);
    var m := MatrixOf(Some(rows), toFloat).value;
    assert |m| == 2 && |m[0]| == 2 && |m[1]| == 2;
    assert m[0][0] == toFloat(0.1) && m[0][1] == toFloat(0.2);
    assert m[1][0] == toFloat(0.3) && m[1][1] == toFloat(0.4);
    assert m[0] == [toFloat(0.1), toFloat(0.2)] && m[1] == [toFloat(0.3), toFloat(0.4)];
    assert m == [[toFloat(0.1), toFloat(0.2)], [toFloat(0.3), toFloat(0.4)]];
  }
}
