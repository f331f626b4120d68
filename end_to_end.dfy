/**
 * The pieces together: the server's response as the screens receive it, the
 * agreement of the three copies of the class-label table, and what a screen
 * ends up describing for the box the server found first.
 */
module EndToEnd {
  import opened Wrappers
  import opened Labels
  import opened Wire
  import Api
  import CameraScreen
  import GalleryScreen

  /**
   * The server's answer as the screens' HTTP client reports it: a detections
   * body arrives as a present list; an error status makes the client reject,
   * which the screens handle like any transport failure.
   */
  function Deliver(response: Api.ApiResponse): (r: Response)
    ensures response.Detections? ==> r == Ok(Some(response.detections))
    ensures response.ServerError? ==> r == TransportError
  {
    match response
    case Detections(ds) => Ok(Some(ds))
    case ServerError(_, _) => TransportError
  }

  /** The gallery screen's table is entry for entry the camera screen's. */
  lemma GalleryTableMatchesCamera()
    ensures GalleryScreen.ClassLabels == CameraScreen.ClassLabels
  {
  }

  /** The server's table has the client's keys and, under each, the client's entry. */
  lemma ServerTableMatchesClient()
    ensures forall k :: k in Api.ClassLabels <==> 0 <= k < |CameraScreen.ClassLabels|
    ensures forall k :: k in Api.ClassLabels ==> Api.ClassLabels[k] == CameraScreen.ClassLabels[k]
  {
    Api.TableKeys();
  }

  /** The unknown-class name is not a name of the client table. */
  lemma UnknownNameNotInTable()
    ensures forall k :: 0 <= k < |CameraScreen.ClassLabels| ==>
      CameraScreen.ClassLabels[k].nombre != Api.UnknownLabel.nombre
  {
    assert forall k :: 0 <= k < |CameraScreen.ClassLabels| ==>
      CameraScreen.NameKey(CameraScreen.ClassLabels[k].nombre) == k;
    assert CameraScreen.NameKey(Api.UnknownLabel.nombre) == -1;
  }

  /**
   * When the detector finds at least one box, the screens keep the record of
   * the first box; if its class is known, looking its name up in the client
   * table gives the very description the server attached to it, and if it is
   * not, the lookup misses and gives the client's default.
   */
  lemma FirstBoxDescribed(results: seq<seq<Api.Box>>)
    requires |Api.Boxes(results)| > 0
    ensures var kept := FirstDetection(Deliver(Api.Detections(Api.Assemble(results))));
      var box := Api.Boxes(results)[0];
      && kept == Some(Api.ToDetection(box))
      && (0 <= box.cls < 20 ==>
            kept.value.nombre == CameraScreen.ClassLabels[box.cls].nombre
            && Describe(CameraScreen.ClassLabels, kept.value.nombre) == kept.value.descripcion)
      && (!(0 <= box.cls < 20) ==>
            kept.value.nombre == "Clase desconocida"
            && Describe(CameraScreen.ClassLabels, kept.value.nombre) == NoDescription)
  {
    Api.AssembleOnePerBox(results);
    ServerTableMatchesClient();
    var box := Api.Boxes(results)[0];
    if 0 <= box.cls < 20 {
      CameraScreen.DescribeTableName(box.cls);
    } else {
      UnknownNameNotInTable();
      DescribeMiss(CameraScreen.ClassLabels, Api.UnknownLabel.nombre);
    }
  }

  /** A failed inference leaves the screens with no result. */
  lemma FailedInferenceClearsResult(message: string)
    ensures FirstDetection(Deliver(Api.ServerError(Api.InternalServerError, message))) == None
  {
  }

  /**
   * The camera screen, from the start: the detector sees one mouse with
   * confidence 0.97; the screen keeps that detection, and opening the
   * details shows the mouse's description.
   */
  method MouseOnCamera() returns (name: string, confidence: real, description: string, dialogOpen: bool)
    ensures name == "Mouse" && confidence == 0.97
    ensures description == "Dispositivo para interactuar con la computadora."
    ensures dialogOpen
  {
    var mouse := Api.Box(10, 0.97, [1.0, 2.0, 3.0, 4.0]);
    var results := [[mouse]];
    assert Api.Boxes(results) == [mouse] by {
      assert results[..0] == [];
    }
    FirstBoxDescribed(results);
    var response := Api.Predict(Api.Results(results));
    var screen := new CameraScreen.Screen();
    screen.TakePicture(CameraScreen.Captured(CameraScreen.Photo("file:///photo.jpg")), Deliver(response));
    assert screen.predictionResult == Some(Api.ToDetection(mouse));
    assert Api.ToDetection(mouse).nombre == "Mouse" by {
      ServerTableMatchesClient();
      assert Api.ClassLabels[10] == CameraScreen.ClassLabels[10];
    }
    screen.ShowObjectDetails();
    name := screen.predictionResult.value.nombre;
    confidence := screen.predictionResult.value.confidence;
    description := screen.objectDescription;
    dialogOpen := screen.showObjectInfo;
  }

  /**
   * The gallery screen, from the start: pick an image with a URI and let the
   * server answer. The result view appears exactly when the detector found
   * at least one box.
   */
  method PickOnGallery(inference: Api.Inference, uri: string) returns (shown: bool)
    requires uri != ""
    ensures shown <==> inference.Results? && |Api.Boxes(inference.results)| > 0
  {
    var response := Api.Predict(inference);
    if inference.Results? {
      Api.AssembleOnePerBox(inference.results);
    }
    var screen := new GalleryScreen.Screen();
    var submitted := screen.PickImage(true, GalleryScreen.Picked(GalleryScreen.Asset(uri)), Deliver(response));
    shown := screen.ShowsResultView();
  }
}
