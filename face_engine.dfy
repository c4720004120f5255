/** The native face engine (`FaceLibrary`) as the bridge sees it: six
    operations with strict Java signatures.  What the engine computes is not
    modelled; it is an oracle whose reply may depend on every call made so far. */
module FaceEngine {
  import opened Values

  /** One call into `FaceLibrary`, with the decoded arguments it receives. */
  datatype FacadeCall =
    | LoadAIModel(detectGpu: bool, recognitionGpu: bool)
    | LoadDatabase(filePath: string)
    | FaceRecognition(pixels: seq<int32>, width: int32, height: int32)
    | FaceToVector(pixels: seq<int32>, width: int32, height: int32)
    | BuildVectorData(faceIds: seq<int32>, faceVectors: seq<seq<real>>, folderSaveTree: string)
    | FaceRecognitionConfig(minDistanceFace: int32, maxDistanceFace: int32, maxAngleFace: int32,
                            threshold: real, resizeOption: bool)

  /** What a call into `FaceLibrary` comes back with. */
  datatype Reply =
    | Threw(message: Option<string>)      // any throwable, with its getMessage()
    | Flag(ok: bool)                      // a `boolean` result
    | Objects(results: Option<seq<Value>>) // an `Object[]` result, possibly null
    | Vector(vector: Option<seq<real>>)   // a `float[]` result, possibly null
    | Path(path: Option<string>)          // a `String` result, possibly null

  /** The Java return type of each operation: a reply either throws or has that type. */
  predicate Fits(c: FacadeCall, reply: Reply) {
    reply.Threw? ||
    match c
    case LoadAIModel(_, _) => reply.Flag?
    case LoadDatabase(_) => reply.Flag?
    case FaceRecognition(_, _, _) => reply.Objects?
    case FaceToVector(_, _, _) => reply.Vector?
    case BuildVectorData(_, _, _) => reply.Path?
    case FaceRecognitionConfig(_, _, _, _, _) => reply.Flag?
  }

  /** The engine: given the calls made so far and the next call, its reply. */
  type Engine = e: (seq<FacadeCall>, FacadeCall) -> Reply | forall h, c :: Fits(c, e(h, c))
    witness (h: seq<FacadeCall>, c: FacadeCall) => Threw(None)

  /** The method-channel name whose branch makes this call. */
  function OperationName(c: FacadeCall): string {
    match c
    case LoadAIModel(_, _) => "loadAIModel"
    case LoadDatabase(_) => "loadDatabase"
    case FaceRecognition(_, _, _) => "faceRecognition"
    case FaceToVector(_, _, _) => "faceToVector"
    case BuildVectorData(_, _, _) => "buildVectorData"
    case FaceRecognitionConfig(_, _, _, _, _) => "faceRecognitionConfig"
  }
}
