/**
 * The prediction service: run the detector on the uploaded image and turn
 * every detected box into one detection record, labelled through the
 * server's class-label table. Decoding the image and running the detector are
 * not modelled; their outcome is the `Inference` given to `Predict`.
 */
module Api {
  import opened Labels
  import opened Wire

  /** The server's class-label table, keyed by class id. */
  const ClassLabels: map<int, ClassLabel> := map[
    0 := ClassLabel("Microscopio óptico avanzado", "Permite observar muestras pequeñas con luz y lentes."),
    1 := ClassLabel("Agitador magnético con placa calefactora", "Mezcla y calienta líquidos en laboratorios."),
    2 := ClassLabel("Aire acondicionado YORK", "Regula temperatura y aire en espacios cerrados."),
    3 := ClassLabel("Cafetera", "Prepara café automáticamente con agua caliente."),
    4 := ClassLabel("Computador", "Procesa información y ejecuta programas."),
    5 := ClassLabel("Control remoto de robot", "Permite manejar un robot a distancia."),
    6 := ClassLabel("Control remoto de Smart TV", "Mando para controlar funciones del televisor."),
    7 := ClassLabel("Estación de soldadura por aire caliente", "Para soldar componentes con aire caliente."),
    8 := ClassLabel("Impresora 3D Creality K1 Max", "Crea objetos 3D a partir de diseños digitales."),
    9 := ClassLabel("Mini fresadora CNC", "Corta o talla materiales controlada por computadora."),
    10 := ClassLabel("Mouse", "Dispositivo para interactuar con la computadora."),
    11 := ClassLabel("Osciloscopio digital Rigol DS1202ZE", "Visualiza señales eléctricas como ondas."),
    12 := ClassLabel("Puerta", "Permite o restringe el acceso a espacios."),
    13 := ClassLabel("Robot humanoide AULER", "Robot con forma y movimientos similares a un humano."),
    14 := ClassLabel("Robot LEGO Mindstorms EV3", "Kit educativo para construir y programar robots."),
    15 := ClassLabel("Router", "Distribuye internet a múltiples dispositivos."),
    16 := ClassLabel("Sensor de suelo integrado", "Mide humedad y temperatura del suelo."),
    17 := ClassLabel("Tablet", "Dispositivo táctil portátil con múltiples funciones."),
    18 := ClassLabel("Tomacorrientes 110V", "Permite conectar aparatos a la red eléctrica."),
    19 := ClassLabel("UPS Netio", "Suministro de energía en caso de cortes eléctricos.")
  ]

  /** The label given to a class id the table does not know. */
  const UnknownLabel: ClassLabel := ClassLabel("Clase desconocida", "Descripción no disponible")

  /** The status code of the error response. */
  const InternalServerError: int := 500

  /** One detected box: its class id, its confidence and its corners. */
  datatype Box = Box(cls: int, conf: real, xyxy: seq<real>)

  /** What decoding and the detector produce: one list of boxes per result, or
      the message of the exception that stopped them. */
  datatype Inference = Failed(message: string) | Results(results: seq<seq<Box>>)

  /** The JSON response: `{"detections": [...]}`, or `{"error": msg}` with its status. */
  datatype ApiResponse = Detections(detections: seq<Detection>) | ServerError(status: int, error: string)

  /** The table's keys are exactly the class ids 0 to 19. */
  lemma TableKeys()
    ensures forall k :: k in ClassLabels <==> 0 <= k < 20
  {
  }

  /** The table's entry for `clsId`, or the unknown label when it has none. */
  function LabelFor(clsId: int): (info: ClassLabel)
    ensures clsId in ClassLabels ==> info == ClassLabels[clsId]
    ensures clsId !in ClassLabels ==> info == UnknownLabel
  {
    if clsId in ClassLabels then ClassLabels[clsId] else UnknownLabel
  }

  /** The detection record built for one box. */
  function ToDetection(box: Box): (d: Detection)
    ensures d.classId == box.cls && d.confidence == box.conf && d.bbox == box.xyxy
    ensures ClassLabel(d.nombre, d.descripcion) == LabelFor(box.cls)
  {
    var info := LabelFor(box.cls);
    Detection(box.cls, info.nombre, info.descripcion, box.conf, box.xyxy)
  }

  /** The boxes of all results, results first and boxes within each result second. */
  function Boxes(results: seq<seq<Box>>): seq<Box>
  {
    if results == [] then [] else Boxes(results[..|results| - 1]) + results[|results| - 1]
  }

  /** The detection records of a run of boxes, one per box, in order. */
  function DetectAll(boxes: seq<Box>): (ds: seq<Detection>)
    ensures |ds| == |boxes|
    ensures forall i :: 0 <= i < |boxes| ==> ds[i] == ToDetection(boxes[i])
  {
    seq(|boxes|, i requires 0 <= i < |boxes| => ToDetection(boxes[i]))
  }

  /** The `detections` list the loops build: each result's records after the previous results'. */
  function Assemble(results: seq<seq<Box>>): seq<Detection>
  {
    if results == [] then [] else Assemble(results[..|results| - 1]) + DetectAll(results[|results| - 1])
  }

  /**
   * Every box becomes exactly one detection, at the same position: the list
   * of detections is the list of boxes, each turned into its record.
   */
  lemma {:induction false} AssembleOnePerBox(results: seq<seq<Box>>)
    ensures |Assemble(results)| == |Boxes(results)|
    ensures forall i :: 0 <= i < |Boxes(results)| ==> Assemble(results)[i] == ToDetection(Boxes(results)[i])
  {
    if results != [] {
      AssembleOnePerBox(results[..|results| - 1]);
    }
  }

  /** Box `b` of result `r` comes after all boxes of the results before `r`. */
  lemma {:induction false} BoxesAt(results: seq<seq<Box>>, r: nat, b: nat)
    requires r < |results| && b < |results[r]|
    ensures |Boxes(results[..r])| + b < |Boxes(results)|
    ensures Boxes(results)[|Boxes(results[..r])| + b] == results[r][b]
  {
    var n := |results| - 1;
    if r == n {
      assert results[..r] == results[..n];
    } else {
      assert results[..n][..r] == results[..r];
      BoxesAt(results[..n], r, b);
    }
  }

  /**
   * The prediction endpoint: on success every box becomes one detection in
   * iteration order; an exception anywhere becomes an error response with
   * status 500 and the exception's message.
   */
  method Predict(inference: Inference) returns (response: ApiResponse)
    ensures inference.Failed? ==> response == ServerError(InternalServerError, inference.message)
    ensures inference.Results? ==> response == Detections(Assemble(inference.results))
  {
    if inference.Failed? {
      return ServerError(InternalServerError, inference.message);
    }
    var results := inference.results;
    var detections: seq<Detection> := [];
    var i := 0;
    while i < |results|
      invariant 0 <= i <= |results|
      invariant detections == Assemble(results[..i])
    {
      var boxes := results[i];
      var j := 0;
      while j < |boxes|
        invariant 0 <= j <= |boxes|
        invariant detections == Assemble(results[..i]) + DetectAll(boxes[..j])
      {
        var box := boxes[j];
        var info := LabelFor(box.cls);
        detections := detections + [Detection(box.cls, info.nombre, info.descripcion, box.conf, box.xyxy)];
        j := j + 1;
      }
      assert boxes[..j] == boxes;
      assert results[..i + 1][..i] == results[..i];
      i := i + 1;
    }
    assert results[..i] == results;
    return Detections(detections);
  }
}
