/**
 * The gallery screen: pick a stored image, submit it, keep the first
 * detection, and show its description on demand. Each field of `Screen` is one
 * piece of the screen's React state; each method is one event handler.
 */
module GalleryScreen {
  import opened Wrappers
  import opened Labels
  import opened Wire

  /** The screen's own copy of the class-label table; the key is the index. */
  const ClassLabels: seq<ClassLabel> := [
    ClassLabel("Microscopio óptico avanzado", "Permite observar muestras pequeñas con luz y lentes."),
    ClassLabel("Agitador magnético con placa calefactora", "Mezcla y calienta líquidos en laboratorios."),
    ClassLabel("Aire acondicionado YORK", "Regula temperatura y aire en espacios cerrados."),
    ClassLabel("Cafetera", "Prepara café automáticamente con agua caliente."),
    ClassLabel("Computador", "Procesa información y ejecuta programas."),
    ClassLabel("Control remoto de robot", "Permite manejar un robot a distancia."),
    ClassLabel("Control remoto de Smart TV", "Mando para controlar funciones del televisor."),
    ClassLabel("Estación de soldadura por aire caliente", "Para soldar componentes con aire caliente."),
    ClassLabel("Impresora 3D Creality K1 Max", "Crea objetos 3D a partir de diseños digitales."),
    ClassLabel("Mini fresadora CNC", "Corta o talla materiales controlada por computadora."),
    ClassLabel("Mouse", "Dispositivo para interactuar con la computadora."),
    ClassLabel("Osciloscopio digital Rigol DS1202ZE", "Visualiza señales eléctricas como ondas."),
    ClassLabel("Puerta", "Permite o restringe el acceso a espacios."),
    ClassLabel("Robot humanoide AULER", "Robot con forma y movimientos similares a un humano."),
    ClassLabel("Robot LEGO Mindstorms EV3", "Kit educativo para construir y programar robots."),
    ClassLabel("Router", "Distribuye internet a múltiples dispositivos."),
    ClassLabel("Sensor de suelo integrado", "Mide humedad y temperatura del suelo."),
    ClassLabel("Tablet", "Dispositivo táctil portátil con múltiples funciones."),
    ClassLabel("Tomacorrientes 110V", "Permite conectar aparatos a la red eléctrica."),
    ClassLabel("UPS Netio", "Suministro de energía en caso de cortes eléctricos.")
  ]

  /** The description shown when the dialog opens without a named result. */
  const NoInformation: string := "No hay información disponible."

  /** An image from the device's library, with its local URI ("" when it has none). */
  datatype Asset = Asset(uri: string)

  /** What the image picker hands back. */
  datatype PickerResult = Canceled | Picked(asset: Asset)

  class Screen {
    var selectedImage: Option<Asset>
    var showObjectInfo: bool
    var predictionResult: Option<Detection>
    var objectDescription: string

    constructor ()
      ensures selectedImage == None && predictionResult == None
      ensures !showObjectInfo && objectDescription == NoDescription
    {
      selectedImage := None;
      showObjectInfo := false;
      predictionResult := None;
      objectDescription := NoDescription;
    }

    /** The result view is shown only when there is both an image and a result. */
    predicate ShowsResultView()
      reads this
    {
      selectedImage.Some? && predictionResult.Some?
    }

    /**
     * Submit the image at `imageUri` and keep what the server answered.
     * `response` stands for the outcome of the POST. A missing URI aborts
     * before any request and leaves the result as it was.
     */
    method SendToBackend(imageUri: string, response: Response)
      modifies this`predictionResult
      ensures imageUri == "" ==> predictionResult == old(predictionResult)
      ensures imageUri != "" ==> predictionResult == FirstDetection(response)
    {
      if imageUri == "" {
        return;
      }
      match response {
        case Ok(Some(detections)) =>
          if |detections| > 0 {
            predictionResult := Some(detections[0]);
          } else {
            predictionResult := None;
          }
        case Ok(None) =>
          predictionResult := None;
        case TransportError =>
          predictionResult := None;
      }
    }

    /**
     * Ask for library access and open the picker. A refused permission or a
     * cancelled pick changes nothing; a pick stores the image and submits its
     * URI, which is returned as `submitted`.
     */
    method PickImage(granted: bool, picked: PickerResult, response: Response)
      returns (submitted: Option<string>)
      modifies this`selectedImage, this`predictionResult
      ensures !granted || picked.Canceled? ==>
        submitted == None && selectedImage == old(selectedImage) && predictionResult == old(predictionResult)
      ensures granted && picked.Picked? ==>
        submitted == Some(picked.asset.uri) && selectedImage == Some(picked.asset)
      ensures granted && picked.Picked? && picked.asset.uri != "" ==> predictionResult == FirstDetection(response)
      ensures granted && picked.Picked? && picked.asset.uri == "" ==> predictionResult == old(predictionResult)
    {
      submitted := None;
      if !granted {
        return;
      }
      if picked.Picked? {
        selectedImage := Some(picked.asset);
        submitted := Some(picked.asset.uri);
        SendToBackend(picked.asset.uri, response);
      }
    }

    /** Drop the image and its result and reset the description. */
    method SelectAnotherImage()
      modifies this`selectedImage, this`predictionResult, this`objectDescription
      ensures selectedImage == None && predictionResult == None
      ensures objectDescription == NoDescription
      ensures !ShowsResultView()
    {
      selectedImage := None;
      predictionResult := None;
      objectDescription := NoDescription;
    }

    /**
     * Open the details dialog. When the result has a name, the description is
     * looked up in the table; otherwise the dialog says there is no information.
     */
    method ShowObjectDetails()
      modifies this`showObjectInfo, this`objectDescription
      ensures showObjectInfo
      ensures HasName(predictionResult) ==> objectDescription == Describe(ClassLabels, predictionResult.value.nombre)
      ensures !HasName(predictionResult) ==> objectDescription == NoInformation
    {
      showObjectInfo := true;
      if HasName(predictionResult) {
        var description := LookupDescription(ClassLabels, predictionResult.value.nombre);
        objectDescription := description;
      } else {
        objectDescription := NoInformation;
      }
    }

    /** Close the details dialog; the result and description stay. */
    method CloseObjectInfo()
      modifies this`showObjectInfo
      ensures !showObjectInfo
    {
      showObjectInfo := false;
    }
  }
}
