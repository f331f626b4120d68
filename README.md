# Object recognition app: label lookup, screen state and detection assembly

A Dafny model of the logic inside a mobile object-recognition app and its
prediction service. The app photographs an object (camera screen) or picks a
stored image (gallery screen), uploads it, keeps the first detection the
service returns and, on request, looks the detected name up in a 20-entry
class-label table to show and narrate its description. The main menu has an
accessibility mode: one tap focuses and reads an option, and a second tap on
the same option within 400 ms opens it. The service runs an object detector
and turns every detected box into one detection record labelled through its
own copy of the table.

Modules, one per source component:

- `Labels` (labels.dfy): the `ClassLabel` record and the first-match
  lookup by name. `FirstMatch` and `Describe` are the specification, and
  `LookupDescription` is the loop with `break` that both screens run.
- `Wire` (wire.dfy): the detection record, the outcome of the upload
  (`Ok` with a present or absent `detections` list, or `TransportError`), and
  `FirstDetection`, the result a screen keeps.
- `CameraScreen`, `GalleryScreen` (camera_screen.dfy, gallery_screen.dfy):
  each screen's own table and a `Screen` class. Its fields are the screen's
  React state and its methods are the event handlers. Every method's
  `modifies` clause names exactly the state setters the handler calls.
- `MainMenu` (main_menu.dfy): the three menu options and a `Menu` class
  holding the accessibility mode, the focused index, the last tap time and
  the last touched option. `Valid()` is the invariant that both indices are
  -1 or a real option.
- `Api` (api.dfy): the server table as a map, `LabelFor` (lookup with a
  default), `Assemble` (the specification of the nested loops) and `Predict`
  (the loops themselves, proved equal to `Assemble`).
- `EndToEnd` (end_to_end.dfy): how the HTTP client delivers the server's
  answer, the agreement of the three table copies, and what a screen ends up
  showing for the box the detector found first.

Details of the code that the model keeps:

- The tables have twenty entries, keys 0 to 19.
- Detection records carry `class_id`, `nombre`, `descripcion`, `confidence`
  and `bbox`.
- The camera screen's "retake" clears the photo and the result but not the
  stored description.
- The camera's details dialog leaves the description unchanged when there is
  no predicted name, while the gallery's sets it to "No hay información
  disponible.".
- The server's unknown-class description "Descripción no disponible" has no
  final period. The client's default "Descripción no disponible." has one.

External inputs become parameters. The upload's outcome is a `Response`. The
camera capture is a `Capture`. The picker's answer is a `PickerResult` plus a
`granted` flag for the permission request. The detector's output is an
`Inference`. Tap times are integer millisecond readings.

## Model

| member | source | states |
|---|---|---|
| `Labels.OrNoDescription` | CODIGOFRONT/CameraScreen.js:127 | a matching entry contributes its description, or the default when that is empty; never the empty string |
| `Labels.FirstMatchFrom` | CODIGOFRONT/CameraScreen.js:125-130 | the key found from `from` on is the first one at or after `from` whose name equals the given name; none found means no entry from there on has it |
| `Labels.FirstMatch` | CODIGOFRONT/CameraScreen.js:125-130 | the key found is the earliest whose name equals the given name; none is found exactly when no entry has that name |
| `Labels.LookupDescription` | CODIGOFRONT/CameraScreen.js:123-130 | the scan in key order with `break` yields exactly the first-match description (`Describe`), and never an empty string |
| `Labels.DescribeFirstMatch` | CODIGOFRONT/CameraScreen.js:125-128 | when entry k is the first to carry the name, the lookup returns entry k's description |
| `Labels.DescribeMiss` | CODIGOFRONT/CameraScreen.js:124 | a name no entry carries resolves to "Descripción no disponible." |
| `Labels.DescribeOwnName` | CODIGOFRONT/CameraScreen.js:123-130 | in a table with distinct names, looking up an entry's own name finds that entry |
| `Wire.FirstDetection` | CODIGOFRONT/CameraScreen.js:96-108 | a result is kept exactly when the response arrived with a present, non-empty `detections` list, and it is `detections[0]` |
| `Wire.HasName` | CODIGOFRONT/CameraScreen.js:123 | the condition `predictionResult?.nombre`: there is a result and its name is non-empty |
| `CameraScreen.TableWellFormed` | CODIGOFRONT/CameraScreen.js:154-175 | the camera table has 20 entries with pairwise distinct names and non-empty descriptions |
| `CameraScreen.DescribeTableName` | CODIGOFRONT/CameraScreen.js:154-175 | looking up any table name gives that entry's own description |
| `CameraScreen.Screen.constructor` | CODIGOFRONT/CameraScreen.js:12-18 | no photo, no result, dialog closed, default description |
| `CameraScreen.Screen.SendToBackend` | CODIGOFRONT/CameraScreen.js:71-109 | a missing URI aborts and leaves the result; otherwise the result becomes `FirstDetection` of the response (so the first detection, or null on an empty or absent list or a transport error); nothing else changes |
| `CameraScreen.Screen.TakePicture` | CODIGOFRONT/CameraScreen.js:53-68 | an unavailable camera or a failed capture changes nothing; a capture stores the photo and then submits its URI |
| `CameraScreen.Screen.RetakePicture` | CODIGOFRONT/CameraScreen.js:112-116 | the photo and the result are both cleared and the viewfinder returns; the dialog flag and the description are untouched |
| `CameraScreen.Screen.ShowObjectDetails` | CODIGOFRONT/CameraScreen.js:119-136 | the dialog opens; with a named result the description becomes the table lookup of that name, and without one it stays as it was |
| `CameraScreen.Screen.CloseObjectInfo` | CODIGOFRONT/CameraScreen.js:139-142 | only the dialog flag changes, to closed |
| `CameraScreen.Screen.ShowsPhotoView` | CODIGOFRONT/CameraScreen.js:219-220 | the photo-and-result view replaces the viewfinder exactly when a photo is held |
| `GalleryScreen.Screen.constructor` | CODIGOFRONT/GalleryScreen.js:12-15 | no image, no result, dialog closed, default description |
| `GalleryScreen.Screen.SendToBackend` | CODIGOFRONT/GalleryScreen.js:69-107 | a missing URI aborts and leaves the result; otherwise the result becomes the first detection, or null on an empty or absent list or a transport error; nothing else changes |
| `GalleryScreen.Screen.PickImage` | CODIGOFRONT/GalleryScreen.js:110-142 | a refused permission or a cancelled pick changes nothing and submits nothing; a pick stores the asset and submits exactly its URI |
| `GalleryScreen.Screen.SelectAnotherImage` | CODIGOFRONT/GalleryScreen.js:145-151 | image and result cleared, description reset to the default, so the result view is gone |
| `GalleryScreen.Screen.ShowObjectDetails` | CODIGOFRONT/GalleryScreen.js:154-172 | the dialog opens; with a named result the description is the table lookup of that name, without one it is "No hay información disponible." |
| `GalleryScreen.Screen.CloseObjectInfo` | CODIGOFRONT/GalleryScreen.js:175-178 | only the dialog flag changes, to closed |
| `GalleryScreen.Screen.ShowsResultView` | CODIGOFRONT/GalleryScreen.js:190 | the result view is shown exactly when both an image and a result are held |
| `MainMenu.MenuRoutes` | CODIGOFRONT/MainMenuScreen.js:30-73 | exactly three options, routing to /camera, /gallery and /about in that order |
| `MainMenu.IsDoubleTap` | CODIGOFRONT/MainMenuScreen.js:132 | a tap is a double tap exactly when it comes less than 400 ms after the previous tap and on the last touched option |
| `MainMenu.Menu.constructor` | CODIGOFRONT/MainMenuScreen.js:19-25 | mode off, nothing focused, last tap 0, no option touched |
| `MainMenu.Menu.ToggleAccessibilityMode` | CODIGOFRONT/MainMenuScreen.js:90-101 | the mode is negated; switching on focuses option 0, switching off sets the focus to -1; the focus invariant holds |
| `MainMenu.Menu.FocusItem` | CODIGOFRONT/MainMenuScreen.js:104-106 | the focus moves to the index exactly when 0 <= index < 3, otherwise it stays; the focus invariant holds |
| `MainMenu.Menu.HandleButtonTouch` | CODIGOFRONT/MainMenuScreen.js:128-147 | the option opens iff the tap is under 400 ms after the last one and on the last touched option; then focus and last touched stay; otherwise the option is focused and becomes the last touched; the tap time is recorded either way |
| `MainMenu.Menu.Press` | CODIGOFRONT/MainMenuScreen.js:218-226 | with the mode off the option opens at once and no tap state changes; with it on the tap logic decides |
| `MainMenu.Menu.FocusFirstAfterActivation` | CODIGOFRONT/MainMenuScreen.js:164-175 | the delayed effect after switching the mode on focuses option 0, keeping the focus invariant |
| `MainMenu.DoubleTapOpens` | CODIGOFRONT/MainMenuScreen.js:132-135 | from a fresh menu in accessibility mode, at any clock reading, a first tap only focuses and a second tap on the same option within 400 ms opens it |
| `MainMenu.AlternatingTapsNeverOpen` | CODIGOFRONT/MainMenuScreen.js:128-147 | from a fresh menu in accessibility mode, any run of taps in which no option is tapped twice in a row opens nothing, whatever the tap times |
| `Api.TableKeys` | CODIGOBACK/api.py:15-36 | the server table's keys are exactly 0 to 19 |
| `Api.LabelFor` | CODIGOBACK/api.py:53-56 | a known class id gets its table entry, an unknown one "Clase desconocida" / "Descripción no disponible" |
| `Api.ToDetection` | CODIGOBACK/api.py:49-63 | the record keeps the box's class id, confidence and corners and carries the label of that class id |
| `Api.AssembleOnePerBox` | CODIGOBACK/api.py:46-64 | the detections list has one record per box, and record i is built from box i of the results-then-boxes order |
| `Api.BoxesAt` | CODIGOBACK/api.py:47-48 | box b of result r sits after every box of the earlier results |
| `Api.Predict` | CODIGOBACK/api.py:39-69 | on success the body's detections are exactly `Assemble` of the detector's results; an exception gives status 500 with its message |
| `EndToEnd.Deliver` | CODIGOBACK/api.py:66-69 | a detections body reaches the screens as a present list; an error response reaches them as a transport failure |
| `EndToEnd.GalleryTableMatchesCamera` | CODIGOFRONT/GalleryScreen.js:18-39 | the gallery table equals the camera table entry for entry |
| `EndToEnd.ServerTableMatchesClient` | CODIGOBACK/api.py:15-36 | the server table has exactly the client's keys and the client's entry under each |
| `EndToEnd.UnknownNameNotInTable` | CODIGOBACK/api.py:54 | "Clase desconocida" is not the name of any client table entry |
| `EndToEnd.FirstBoxDescribed` | CODIGOFRONT/CameraScreen.js:96-130 | with at least one box the screens keep the first box's record; for a known class the client lookup returns the very description the server attached, and for an unknown class it returns the client default |
| `EndToEnd.FailedInferenceClearsResult` | CODIGOFRONT/CameraScreen.js:103-108 | an error response leaves the screens with no result |
| `EndToEnd.MouseOnCamera` | CODIGOFRONT/CameraScreen.js:53-136 | a detected mouse with confidence 0.97 is kept by the camera screen and its details show "Dispositivo para interactuar con la computadora." |
| `EndToEnd.PickOnGallery` | CODIGOFRONT/GalleryScreen.js:190 | after a pick, the gallery's result view appears exactly when the detector found at least one box |

## Left out

- Speech (`Speech.speak`, `Speech.stop`), vibration, alerts and console logging: platform side effects with no effect on the modelled state.
- The HTTP POST itself, the multipart form and the server address: the outcome of the POST is the `Response` parameter.
- Navigation (`router.push`, `router.back`) and the `setTimeout` delays before it. An option's action is modelled as the route it opens.
- Camera capture, the image picker and permission hooks are parameters (`Capture`, `PickerResult`, `granted`). The camera screen's permission-request views are rendering only.
- Image decoding and the detector's inference are the `Inference` parameter. The conversion of the box's class tensor to an integer is taken as already done (`Box.cls: int`).
- Confidence formatting (`* 100`, `toFixed(2)`) and responsive sizes: floating-point presentation. Confidence and box corners are passed through unchanged as reals.
- Async interleaving is not modelled. Each handler runs to completion, so a server answer that arrives after "retake" is not covered. Nor is the gallery's un-awaited submit being overtaken by another event.
- The camera screen's `accessibilityMode` state is left out: it is only ever set to false and nothing reads it.
- A picker result with several assets is modelled by its first asset, the only one the screen uses.
- A missing or non-string `nombre` in a detection is not modelled. The server always sends a string, and an empty name stands for a falsy one. A missing image URI is the empty string.
- Focus animations, rendering, styles, the about and welcome screens and the route wrappers: presentation only.
