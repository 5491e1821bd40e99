/** Value types shared by the scanner model: the error taxonomy reported to the
    delegate, the detection events produced by the platform's metadata output,
    the camera authorisation status, and the two pure decisions of the manager
    (the detection gate's filter and the permission switch). */
module ScannerTypes {

  datatype Option<T> = None | Some(value: T)

  /** Errors the delegate can be shown. */
  datatype ScanningError = NoCamera | NoPermission

  /** The symbology a machine-readable code was recognised as. */
  datatype ObjectType = QR | OtherSymbology(name: string)

  /** One object of a detection batch: either something that is not a
      machine-readable code (a face, a body, ...), or a code of some symbology
      whose decoded string may be absent. */
  datatype MetadataObject =
    | NotMachineReadable
    | Code(kind: ObjectType, stringValue: Option<string>)

  /** The camera authorisation status; `UnknownFuture` stands for the cases a
      later platform version may add (the `@unknown default` branch). */
  datatype AuthorizationStatus = NotDetermined | Restricted | Denied | Authorized | UnknownFuture

  /** What the platform answers when `setUp` asks for the default video device
      and builds a device input from it. */
  datatype DeviceProbe = NoDevice | InputThrows | InputReady

  /** The detection gate's filter: the decoded string of a batch, if the batch
      is accepted. Only the first object of the batch is ever examined; it is
      accepted exactly when it is a QR code that carries a string. */
  function FirstQRValue(objects: seq<MetadataObject>): (r: Option<string>)
    ensures r.Some? <==>
      (|objects| > 0 && objects[0].Code? && objects[0].kind.QR? && objects[0].stringValue.Some?)
    ensures r.Some? ==> objects[0].stringValue == r
  {
    if |objects| == 0 then None
    else match objects[0]
      case NotMachineReadable => None
      case Code(kind, value) => if kind.QR? then value else None
  }

  /** The value the permission check hands to its completion: a denial for
      restricted, denied and unknown statuses, a grant for an authorised one,
      and the user's answer to the prompt when the status is not determined. */
  function CameraAccessGranted(status: AuthorizationStatus, userAnswer: bool): (granted: bool)
    ensures granted <==> (status == Authorized || (status == NotDetermined && userAnswer))
  {
    match status
    case NotDetermined => userAnswer
    case Restricted => false
    case Denied => false
    case Authorized => true
    case UnknownFuture => false
  }
}
