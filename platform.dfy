/** The platform facts and the permission vocabulary shared by the list
    screen and the image-picker screen. The operating system, its version and
    every answer of the permission library are inputs: nothing here talks to a
    device. */
module Platform {

  datatype Option<+T> = None | Some(value: T)

  /** `Platform.OS`. The screens only ever compare it with `'ios'` and
      `'android'`; every other platform (windows, macos, web) is `OtherOs`. */
  datatype Os = Ios | Android | OtherOs

  /** An answer of the permission library's `check` or `request`. */
  datatype PermissionStatus = Unavailable | Denied | Limited | Granted | Blocked

  /** The permissions the two screens ask about. */
  datatype Permission =
    | IosPhotoLibraryAddOnly
    | AndroidWriteExternalStorage
    | AndroidCamera
    | IosCamera

  /** The alert a gate shows before it refuses, recorded as an event tag:
      an informational "not available" alert, or one that also offers to
      open the system settings. */
  datatype Alert = NoAlert | NotAvailableAlert | OpenSettingsAlert

  /** What one evaluation of a permission gate did: whether it lets the
      action go ahead, which permission it passed to `check` (None when it
      did not call `check` at all), how many times it called `request`, and
      the alert it showed. */
  datatype GateRun = GateRun(allowed: bool, checked: Option<Permission>, requests: nat, alert: Alert)
}
