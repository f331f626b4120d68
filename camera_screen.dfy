/**
 * The camera screen: take a photo, submit it, keep the first detection, and
 * show its description on demand. Each field of `Screen` is one piece of the
 * screen's React state; each method is one event handler.
 */
module CameraScreen {
  import opened Wrappers
  import opened Labels
  import opened Wire

  /** The screen's own copy of the class-label table; the key is the index. */
  const ClassLabels: seq<ClassLabel> := [
    ClassLabel("Microscopio óptico avanzado", "Permite observar muestras pequeñas con luz y lentes."),
    ClassLabel("Agitador magnético con placa calefactora", "Mezcla y calienta líquidos en laboratorios."),
    ClassLabel("Aire acondicionado YORK", "Regula temperatura y aire en espacios cerrados."),
    ClassLabel("Cafetera", "Prepara café automáticamente con agua caliente."),
    ClassLabel("Computador", "Procesa información y ejecuta programas."),
    ClassLabel("Control remoto de robot", "Permite manejar un robot a distancia."),
    ClassLabel("Control remoto de Smart TV", "Mando para controlar funciones del televisor."),
    ClassLabel("Estación de soldadura por aire caliente", "Para soldar componentes con aire caliente."),
    ClassLabel("Impresora 3D Creality K1 Max", "Crea objetos 3D a partir de diseños digitales."),
    ClassLabel("Mini fresadora CNC", "Corta o talla materiales controlada por computadora."),
    ClassLabel("Mouse", "Dispositivo para interactuar con la computadora."),
    ClassLabel("Osciloscopio digital Rigol DS1202ZE", "Visualiza señales eléctricas como ondas."),
    ClassLabel("Puerta", "Permite o restringe el acceso a espacios."),
    ClassLabel("Robot humanoide AULER", "Robot con forma y movimientos similares a un humano."),
    ClassLabel("Robot LEGO Mindstorms EV3", "Kit educativo para construir y programar robots."),
    ClassLabel("Router", "Distribuye internet a múltiples dispositivos."),
    ClassLabel("Sensor de suelo integrado", "Mide humedad y temperatura del suelo."),
    ClassLabel("Tablet", "Dispositivo táctil portátil con múltiples funciones."),
    ClassLabel("Tomacorrientes 110V", "Permite conectar aparatos a la red eléctrica."),
    ClassLabel("UPS Netio", "Suministro de energía en caso de cortes eléctricos.")
  ]

  /** Proof aid: tells the table's names apart by length and first letter
      (the key it recovers is the entry's own). */
  ghost function NameKey(name: string): int
  {
    if |name| == 0 then -1
    else if |name| == 23 then (if name[0] == 'A' then 2 else 5)
    else if |name| == 6 then (if name[0] == 'P' then 12 else if name[0] == 'R' then 15 else 17)
    else if |name| == 25 then (if name[0] == 'R' then 14 else 16)
    else if |name| == 27 then 0
    else if |name| == 40 then 1
    else if |name| == 8 then 3
    else if |name| == 10 then 4
    else if |name| == 26 then 6
    else if |name| == 39 then 7
    else if |name| == 28 then 8
    else if |name| == 18 then 9
    else if |name| == 5 then 10
    else if |name| == 35 then 11
    else if |name| == 21 then 13
    else if |name| == 19 then 18
    else if |name| == 9 then 19
    else -1
  }

  lemma TableWellFormed()
    ensures |ClassLabels| == 20
    ensures NamesDistinct(ClassLabels)
    ensures forall k :: 0 <= k < |ClassLabels| ==> ClassLabels[k].descripcion != ""
  {
    assert forall k :: 0 <= k < |ClassLabels| ==> NameKey(ClassLabels[k].nombre) == k;
  }

  /** Looking up any name of the table gives back that entry's own description. */
  lemma DescribeTableName(k: nat)
    requires k < |ClassLabels|
    ensures Describe(ClassLabels, ClassLabels[k].nombre) == ClassLabels[k].descripcion
  {
    TableWellFormed();
    DescribeOwnName(ClassLabels, k);
  }

  /** What the platform camera hands back: nothing when the camera view is not
      mounted, a failure, or a photo with its local URI ("" when it has none). */
  datatype Photo = Photo(uri: string)
  datatype Capture = CameraUnavailable | CaptureFailed | Captured(photo: Photo)

  class Screen {
    var photo: Option<Photo>
    var predictionResult: Option<Detection>
    var showObjectInfo: bool
    var objectDescription: string

    constructor ()
      ensures photo == None && predictionResult == None
      ensures !showObjectInfo && objectDescription == NoDescription
    {
      photo := None;
      predictionResult := None;
      showObjectInfo := false;
      objectDescription := NoDescription;
    }

    /** The screen shows the photo and its result instead of the viewfinder. */
    predicate ShowsPhotoView()
      reads this
    {
      photo.Some?
    }

    /**
     * Submit the photo at `imageUri` and keep what the server answered.
     * `response` stands for the outcome of the POST. A missing URI aborts
     * before any request and leaves the result as it was.
     */
    method SendToBackend(imageUri: string, response: Response)
      modifies this`predictionResult
      ensures imageUri == "" ==> predictionResult == old(predictionResult)
      ensures imageUri != "" ==> predictionResult == FirstDetection(response)
    {
      if imageUri == "" {
        return;
      }
      match response {
        case Ok(Some(detections)) =>
          if |detections| > 0 {
            predictionResult := Some(detections[0]);
          } else {
            predictionResult := None;
          }
        case Ok(None) =>
          predictionResult := None;
        case TransportError =>
          predictionResult := None;
      }
    }

    /** Capture a photo, store it, then submit it and await the answer; a camera
        that is not ready or a capture that fails changes nothing. */
    method TakePicture(capture: Capture, response: Response)
      modifies this`photo, this`predictionResult
      ensures !capture.Captured? ==> photo == old(photo) && predictionResult == old(predictionResult)
      ensures capture.Captured? ==> photo == Some(capture.photo)
      ensures capture.Captured? && capture.photo.uri != "" ==> predictionResult == FirstDetection(response)
      ensures capture.Captured? && capture.photo.uri == "" ==> predictionResult == old(predictionResult)
    {
      if capture.Captured? {
        photo := Some(capture.photo);
        SendToBackend(capture.photo.uri, response);
      }
    }

    /** Discard the photo and its result and go back to the viewfinder. */
    method RetakePicture()
      modifies this`photo, this`predictionResult
      ensures photo == None && predictionResult == None
      ensures !ShowsPhotoView()
    {
      photo := None;
      predictionResult := None;
    }

    /**
     * Open the details dialog. When the result has a name, the description is
     * looked up in the table; otherwise the stored description stays as it was.
     */
    method ShowObjectDetails()
      modifies this`showObjectInfo, this`objectDescription
      ensures showObjectInfo
      ensures HasName(predictionResult) ==> objectDescription == Describe(ClassLabels, predictionResult.value.nombre)
      ensures !HasName(predictionResult) ==> objectDescription == old(objectDescription)
    {
      showObjectInfo := true;
      if HasName(predictionResult) {
        var description := LookupDescription(ClassLabels, predictionResult.value.nombre);
        objectDescription := description;
      }
    }

    /** Close the details dialog; the result and description stay. */
    method CloseObjectInfo()
      modifies this`showObjectInfo
      ensures !showObjectInfo
    {
      showObjectInfo := false;
    }
  }
}
