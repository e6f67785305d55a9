/** The image-picker screen: the camera-permission gate and the handling of
    what the gallery or the camera hands back. The native pickers and the
    permission library are not modelled; their answers are inputs. */
module ImagePicker {
  import opened Platform
  import Download

  /** The permission the camera button asks for. */
  function CameraPermission(os: Os): (p: Permission)
    ensures p == AndroidCamera <==> os == Android
    ensures p == IosCamera <==> os != Android
  {
    if os == Android then AndroidCamera else IosCamera
  }

  /** `hasCameraPermission`: `checkAnswer` is what `check` answers and
      `requestAnswer` what `request` would answer if it were called. */
  function HasCameraPermission(os: Os, checkAnswer: PermissionStatus, requestAnswer: PermissionStatus): (r: GateRun)
    ensures r.checked == Some(CameraPermission(os))
    ensures r.requests <= 1
    ensures r.requests == 1 <==> checkAnswer == Denied
    ensures r.allowed <==> (checkAnswer == Granted || checkAnswer == Limited
                            || (checkAnswer == Denied && requestAnswer == Granted))
    ensures r.alert != OpenSettingsAlert
    ensures r.alert == NotAvailableAlert <==> (checkAnswer == Unavailable || checkAnswer == Blocked)
  {
    var permission := CameraPermission(os);
    match checkAnswer
    case Unavailable => GateRun(false, Some(permission), 0, NotAvailableAlert)
    case Blocked => GateRun(false, Some(permission), 0, NotAvailableAlert)
    case Denied => GateRun(requestAnswer == Granted, Some(permission), 1, NoAlert)
    case _ => GateRun(true, Some(permission), 0, NoAlert)
  }

  /** Where the storage gate asks at all, it and the camera gate reach the
      same decision with the same number of requests; they differ only in
      the permission asked for and in the alert shown for `blocked`. */
  lemma GatesAgree(os: Os, version: int, checkAnswer: PermissionStatus, requestAnswer: PermissionStatus)
    requires !Download.StorageBypassed(os, version)
    ensures Download.CheckPermission(os, version, checkAnswer, requestAnswer).allowed
         == HasCameraPermission(os, checkAnswer, requestAnswer).allowed
    ensures Download.CheckPermission(os, version, checkAnswer, requestAnswer).requests
         == HasCameraPermission(os, checkAnswer, requestAnswer).requests
  {
  }

  /** The picker's error codes; each is a non-empty string in the source. */
  datatype ErrorCode = CameraUnavailable | PermissionError | Others

  /** One picked asset; only its `uri`, which may be absent, is used. */
  datatype Asset = Asset(uri: Option<string>)

  /** What a picker hands to its callback. */
  datatype PickerResult = PickerResult(didCancel: bool, errorCode: Option<ErrorCode>, assets: Option<seq<Asset>>)

  /** How the callback reads a picker result. `AssetsEmpty` is a present but
      empty asset list: reading the first asset's `uri` then throws, and the
      callback ends before it stores anything. */
  datatype Pick = Cancelled | PickerFailed(code: ErrorCode) | AssetsEmpty | Picked(value: string)

  /** `String(uri)`: an absent uri becomes the text "undefined". */
  function UriText(uri: Option<string>): string
  {
    match uri
    case Some(u) => u
    case None => "undefined"
  }

  /** The decision the callback shared by the gallery and the camera makes. */
  function Interpret(res: PickerResult): (r: Pick)
    ensures r.Cancelled? <==> res.didCancel
    ensures r.PickerFailed? <==> !res.didCancel && res.errorCode.Some?
    ensures r.Picked? <==> !res.didCancel && res.errorCode.None?
                           && (res.assets.None? || |res.assets.value| > 0)
    ensures r.Picked? && res.assets.None? ==> r.value == ""
    ensures r.Picked? && res.assets.Some? ==> r.value == UriText(res.assets.value[0].uri)
  {
    if res.didCancel then Cancelled
    else if res.errorCode.Some? then PickerFailed(res.errorCode.value)
    else match res.assets
      case None => Picked("")
      case Some(assets) => if |assets| == 0 then AssetsEmpty else Picked(UriText(assets[0].uri))
  }

  /** The screen's state, updated in place by the picker callbacks. */
  class ImagePickerScreen {
    var pickerResponse: string

    constructor ()
      ensures pickerResponse == ""
    {
      pickerResponse := "";
    }

    /** The picker callback: only a successful pick is stored. */
    method OnPickerResult(res: PickerResult) returns (pick: Pick)
      modifies this
      ensures pick == Interpret(res)
      ensures pick.Picked? ==> pickerResponse == pick.value
      ensures !pick.Picked? ==> pickerResponse == old(pickerResponse)
    {
      pick := Interpret(res);
      if pick.Picked? {
        pickerResponse := pick.value;
      }
    }

    /** `onImageGalleryClick`: the gallery always opens; `res` is what it
        hands back. */
    method OnImageGalleryClick(res: PickerResult) returns (pick: Pick)
      modifies this
      ensures pick == Interpret(res)
      ensures pickerResponse == if pick.Picked? then pick.value else old(pickerResponse)
    {
      pick := OnPickerResult(res);
    }

    /** `onCameraClick`: the camera opens only once the gate allows it; `res`
        is what the camera would hand back. */
    method OnCameraClick(os: Os, checkAnswer: PermissionStatus, requestAnswer: PermissionStatus, res: PickerResult)
      returns (gate: GateRun, pick: Option<Pick>)
      modifies this
      ensures gate == HasCameraPermission(os, checkAnswer, requestAnswer)
      ensures pick.Some? <==> gate.allowed
      ensures pick.Some? ==> pick.value == Interpret(res)
      ensures pickerResponse == if pick.Some? && pick.value.Picked? then pick.value.value else old(pickerResponse)
    {
      gate := HasCameraPermission(os, checkAnswer, requestAnswer);
      if !gate.allowed {
        pick := None;
        return;
      }
      var p := OnPickerResult(res);
      pick := Some(p);
    }
  }
}
