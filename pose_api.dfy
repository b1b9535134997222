/** The remote pose-analysis service as the client declares it: the response records,
    with every field the server may omit made optional, and the three multipart POST
    endpoints with their default query values. */
module PoseApi {
  import opened Optional

  /** Kotlin `Int`. */
  newtype Int32 = x: int | -0x8000_0000 <= x < 0x8000_0000

  /** A byte array (the overlay PNG). */
  type Bytes = seq<bv8>

  /** A decoded JSON value, as `Any` holds it after decoding. Numbers are reals. */
  datatype JsonValue =
    | JNumber(number: real)
    | JString(text: string)
    | JBool(flag: bool)
    | JArray(elements: seq<JsonValue>)
    | JObject(fields: map<string, JsonValue>)

  /** Reply of the simple analysis: any field may be absent. */
  datatype SimpleResponse = SimpleResponse(
    pose: Option<string>,
    feedback: Option<string>,
    score: Option<Int32>)

  /** Reply of the full analysis: `ok` is always present, the rest may be absent. */
  datatype FullResponse = FullResponse(
    ok: bool,
    landmarks: Option<seq<map<string, JsonValue>>>,
    angles: Option<map<string, real>>,
    metrics: Option<map<string, JsonValue>>,
    feedback: Option<seq<string>>)

  /** A local file: where it is and its own name. */
  datatype ImageFile = ImageFile(path: string, name: string)

  /** One form-data part of a multipart body, carrying a file. */
  datatype Part = FormData(name: string, fileName: string, contentType: string, file: ImageFile)

  /** How the body of a successful reply is read. */
  datatype BodyKind = SimpleJson | FullJson | RawBytes

  /** One request: verb, path relative to the base address, the image part, the two
      query parameters (None: the parameter is not sent), and the reply's body kind. */
  datatype Call = Call(
    verb: string,
    path: string,
    image: Part,
    format: Option<string>,
    mode: Option<string>,
    reply: BodyKind)

  const AnalyzePosePath := "analyze_pose"
  const AnalyzePoseOverlayPath := "analyze_pose_overlay"

  /** `analyzePose`: the simple analysis. */
  function AnalyzePose(image: Part, format: string := "simple", mode: Option<string> := None): Call {
    Call("POST", AnalyzePosePath, image, Some(format), mode, SimpleJson)
  }

  /** `analyzePoseFull`: the full analysis, on the same path. */
  function AnalyzePoseFull(image: Part, format: string := "full", mode: Option<string> := None): Call {
    Call("POST", AnalyzePosePath, image, Some(format), mode, FullJson)
  }

  /** `analyzePoseOverlay`: the overlay image; this endpoint has no format parameter. */
  function AnalyzePoseOverlay(image: Part, mode: Option<string> := None): Call {
    Call("POST", AnalyzePoseOverlayPath, image, None, mode, RawBytes)
  }

  /** Left at their defaults, the simple call asks for format "simple", the full call for
      format "full", the overlay call for no format, and none of them sends a mode. */
  lemma EndpointDefaults(image: Part)
    ensures AnalyzePose(image).format == Some("simple") && AnalyzePose(image).mode == None
    ensures AnalyzePoseFull(image).format == Some("full") && AnalyzePoseFull(image).mode == None
    ensures AnalyzePoseOverlay(image).format == None && AnalyzePoseOverlay(image).mode == None
  {
  }

  /** Every endpoint is a POST carrying the given part and the given mode unchanged; the
      simple and full calls share one path, distinct from the overlay's. */
  lemma EndpointShapes(image: Part, f1: string, f2: string, mode: Option<string>)
    ensures forall c :: c in [AnalyzePose(image, f1, mode), AnalyzePoseFull(image, f2, mode), AnalyzePoseOverlay(image, mode)] ==>
      c.verb == "POST" && c.image == image && c.mode == mode
    ensures AnalyzePose(image, f1, mode).path == AnalyzePoseFull(image, f2, mode).path == "analyze_pose"
    ensures AnalyzePoseOverlay(image, mode).path == "analyze_pose_overlay" != AnalyzePose(image, f1, mode).path
  {
  }
}
