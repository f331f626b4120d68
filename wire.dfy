/**
 * What travels between the server and the screens: the detection records of
 * the JSON body, and the outcome of the HTTP POST as the screens see it.
 */
module Wire {
  import opened Wrappers

  /** One detection record: `class_id`, `nombre`, `descripcion`, `confidence`, `bbox`.
      Confidence and box corners are floats that the model only passes along. */
  datatype Detection = Detection(classId: int, nombre: string, descripcion: string,
                                 confidence: real, bbox: seq<real>)

  /**
   * The outcome of the POST as the screens see it: a body whose `detections`
   * list is present or absent, or a failure of any kind (network, non-2xx
   * status, unreadable body), which the HTTP client reports by rejecting.
   */
  datatype Response = Ok(detections: Option<seq<Detection>>) | TransportError

  /** The result a screen keeps from a response: the first detection, or none. */
  function FirstDetection(response: Response): (r: Option<Detection>)
    ensures r.Some? <==> response.Ok? && response.detections.Some? && |response.detections.value| > 0
    ensures r.Some? ==> r.value == response.detections.value[0]
  {
    match response
    case TransportError => None
    case Ok(None) => None
    case Ok(Some(ds)) => if |ds| > 0 then Some(ds[0]) else None
  }

  /** JavaScript's `predictionResult?.nombre` as a condition: a result whose name is non-empty. */
  predicate HasName(result: Option<Detection>)
  {
    result.Some? && result.value.nombre != ""
  }
}
