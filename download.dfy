/** The storage-permission gate of the list screen and the destination of an
    image download. The answers of the permission library and the platform's
    directories are inputs; the transfer itself is not performed here, only
    the plan handed to the file-fetch library. */
module Download {
  import opened Platform

  /** On Android, API levels above this one no longer need the legacy
      storage permission. */
  const LegacyStorageMaxVersion: int := 29

  /** The permission asked for before saving an image. */
  function StoragePermission(os: Os): Permission
  {
    if os == Ios then IosPhotoLibraryAddOnly else AndroidWriteExternalStorage
  }

  /** The platforms on which the gate does not ask at all. */
  predicate StorageBypassed(os: Os, version: int)
  {
    os == Android && version > LegacyStorageMaxVersion
  }

  /** `checkPermission`: `checkAnswer` is what `check` answers and
      `requestAnswer` what `request` would answer if it were called. */
  function CheckPermission(os: Os, version: int, checkAnswer: PermissionStatus, requestAnswer: PermissionStatus): (r: GateRun)
    ensures StorageBypassed(os, version) ==> r == GateRun(true, None, 0, NoAlert)
    ensures !StorageBypassed(os, version) ==> r.checked == Some(StoragePermission(os))
    ensures r.requests <= 1
    ensures r.requests == 1 <==> !StorageBypassed(os, version) && checkAnswer == Denied
    ensures r.allowed <==> (StorageBypassed(os, version)
                            || checkAnswer == Granted || checkAnswer == Limited
                            || (checkAnswer == Denied && requestAnswer == Granted))
    ensures r.alert == NotAvailableAlert <==> !StorageBypassed(os, version) && checkAnswer == Unavailable
    ensures r.alert == OpenSettingsAlert <==> !StorageBypassed(os, version) && checkAnswer == Blocked
  {
    if StorageBypassed(os, version) then GateRun(true, None, 0, NoAlert)
    else
      var permission := StoragePermission(os);
      match checkAnswer
      case Unavailable => GateRun(false, Some(permission), 0, NotAvailableAlert)
      case Blocked => GateRun(false, Some(permission), 0, OpenSettingsAlert)
      case Denied => GateRun(requestAnswer == Granted, Some(permission), 1, NoAlert)
      case _ => GateRun(true, Some(permission), 0, NoAlert)
  }

  /** The gate never looks at what `request` would answer unless it calls
      `request`. */
  lemma RequestAnswerUnusedWithoutRequest(os: Os, version: int, checkAnswer: PermissionStatus, a: PermissionStatus, b: PermissionStatus)
    requires CheckPermission(os, version, checkAnswer, a).requests == 0
    ensures CheckPermission(os, version, checkAnswer, a) == CheckPermission(os, version, checkAnswer, b)
  {
  }

  /** The directories the file-fetch library reports. */
  datatype Dirs = Dirs(documentDir: string, downloadDir: string)

  /** The `addAndroidDownloads` part of the fetch options. */
  datatype AndroidDownloads = AndroidDownloads(useDownloadManager: bool, notification: bool, mediaScannable: bool, title: string, path: string)

  /** The options passed to the file-fetch library. */
  datatype FetchConfig = FetchConfig(
    fileCache: bool,
    addAndroidDownloads: AndroidDownloads,
    useDownloadManager: bool,
    notification: bool,
    mediaScannable: bool,
    title: string,
    path: string)

  /** What a press of "Download" leads to: nothing once the gate refuses;
      otherwise a GET of `url` with the given options (None stands for the
      empty options object). */
  datatype DownloadPlan =
    | Aborted(gate: GateRun)
    | Transfer(gate: GateRun, url: string, options: Option<FetchConfig>)

  /** The directory an image is saved in. */
  function SaveDir(os: Os, dirs: Dirs): string
  {
    if os == Ios then dirs.documentDir else dirs.downloadDir
  }

  function ImageFileName(id: string): string
  {
    "image-" + id + ".jpg"
  }

  /** Where image `id` is saved in directory `dir`: a `.jpg` path that starts
      with `dir/image-`. It is a file directly inside `dir` exactly when the
      id has no slash; an id with a slash leads into a subdirectory. */
  function SavePath(dir: string, id: string): (path: string)
    ensures |path| == |dir| + |id| + 11
    ensures path[..|dir| + 7] == dir + "/image-"
    ensures path[|path| - 4..] == ".jpg"
    ensures '/' !in id <==> '/' !in path[|dir| + 1..]
  {
    var path := dir + "/" + ImageFileName(id);
    assert path[|dir| + 1..] == "image-" + id + ".jpg";
    assert path[|dir| + 1..][6..6 + |id|] == id;
    path
  }

  /** The image id a path in `dir` names, if it has the shape of a save path. */
  function ImageIdOf(dir: string, path: string): Option<string>
  {
    var head := dir + "/image-";
    if |path| >= |head| + 4 && path[..|head|] == head && path[|path| - 4..] == ".jpg"
    then Some(path[|head|..|path| - 4])
    else None
  }

  /** The save path gives back the id it was built from. */
  lemma SavePathRoundTrip(dir: string, id: string)
    ensures ImageIdOf(dir, SavePath(dir, id)) == Some(id)
  {
    var head := dir + "/image-";
    var path := SavePath(dir, id);
    assert path == head + id + ".jpg";
    assert path[..|head|] == head;
    assert path[|path| - 4..] == ".jpg";
    assert path[|head|..|path| - 4] == id;
  }

  /** Only save paths name an image. */
  lemma ImageIdOfOnlySavePaths(dir: string, path: string, id: string)
    requires ImageIdOf(dir, path) == Some(id)
    ensures path == SavePath(dir, id)
  {
  }

  /** Two images saved in the same directory never share a file. */
  lemma SavePathInjective(dir: string, a: string, b: string)
    requires SavePath(dir, a) == SavePath(dir, b)
    ensures a == b
  {
    SavePathRoundTrip(dir, a);
    SavePathRoundTrip(dir, b);
  }

  /** The top-level title as the source writes it: a quoted string, not a
      template, so the placeholder is never filled in. */
  const LiteralTitle: string := "image-${index}.jpg"

  /** The fetch options as the source builds them. */
  function ConfigAsWritten(os: Os, dirs: Dirs, id: string): (c: FetchConfig)
    ensures c.title == LiteralTitle
    ensures ImageIdOf(SaveDir(os, dirs), c.path) == Some(id)
    ensures ImageIdOf(dirs.downloadDir, c.addAndroidDownloads.path) == Some(id)
    ensures c.addAndroidDownloads.path == dirs.downloadDir + "/" + c.addAndroidDownloads.title
    ensures c.fileCache && c.useDownloadManager && c.notification && c.mediaScannable
    ensures c.addAndroidDownloads.useDownloadManager && c.addAndroidDownloads.notification
            && c.addAndroidDownloads.mediaScannable
  {
    SavePathRoundTrip(SaveDir(os, dirs), id);
    SavePathRoundTrip(dirs.downloadDir, id);
    FetchConfig(
      true,
      AndroidDownloads(true, true, true, ImageFileName(id), SavePath(dirs.downloadDir, id)),
      true, true, true,
      LiteralTitle,
      SavePath(SaveDir(os, dirs), id))
  }

  /** As written, the title is the same text for every image, and it names
      the saved file only for the one id spelled like the placeholder. */
  lemma ConfigAsWrittenTitleMismatch(os: Os, dirs: Dirs, a: string, b: string)
    ensures ConfigAsWritten(os, dirs, a).title == ConfigAsWritten(os, dirs, b).title
    ensures a != "${index}" ==>
              ConfigAsWritten(os, dirs, a).path != SaveDir(os, dirs) + "/" + ConfigAsWritten(os, dirs, a).title
  {
    var dir := SaveDir(os, dirs);
    assert ImageFileName("${index}") == LiteralTitle;
    if a != "${index}" && ConfigAsWritten(os, dirs, a).path == dir + "/" + LiteralTitle {
      SavePathInjective(dir, a, "${index}");
    }
  }

  /** The fetch options with the title filled in as the Android part of the
      options already does. */
  function Config(os: Os, dirs: Dirs, id: string): (c: FetchConfig)
    ensures c.path == SaveDir(os, dirs) + "/" + c.title
    ensures c.title == c.addAndroidDownloads.title
    ensures c.addAndroidDownloads.path == dirs.downloadDir + "/" + c.title
    ensures ImageIdOf(SaveDir(os, dirs), c.path) == Some(id)
    ensures c.fileCache && c.useDownloadManager && c.notification && c.mediaScannable
    ensures c.addAndroidDownloads.useDownloadManager && c.addAndroidDownloads.notification
            && c.addAndroidDownloads.mediaScannable
  {
    SavePathRoundTrip(SaveDir(os, dirs), id);
    ConfigAsWritten(os, dirs, id).(title := ImageFileName(id))
  }

  /** `Platform.select` with entries for iOS and Android only; any other
      platform falls back to the empty options object. */
  function SelectOptions(os: Os, config: FetchConfig): (r: Option<FetchConfig>)
    ensures r.Some? <==> (os == Ios || os == Android)
    ensures r.Some? ==> r.value == config
  {
    if os == Ios || os == Android then Some(config) else None
  }

  /** The plan once the gate has answered, for given fetch options. */
  function Plan(gate: GateRun, os: Os, url: string, config: FetchConfig): DownloadPlan
  {
    if !gate.allowed then Aborted(gate) else Transfer(gate, url, SelectOptions(os, config))
  }

  /** `actualDownload` as written: ask the gate, then plan the transfer of
      `url` for image `id`. */
  function ActualDownload(os: Os, version: int, checkAnswer: PermissionStatus, requestAnswer: PermissionStatus,
                          dirs: Dirs, url: string, id: string): (plan: DownloadPlan)
    ensures plan.gate == CheckPermission(os, version, checkAnswer, requestAnswer)
    ensures plan.Aborted? <==> !plan.gate.allowed
    ensures plan.Transfer? ==> plan.url == url
    ensures plan.Transfer? && os == OtherOs ==> plan.options == None
    ensures plan.Transfer? && os != OtherOs ==>
              plan.options.Some?
              && plan.options.value.path == SavePath(if os == Ios then dirs.documentDir else dirs.downloadDir, id)
              && plan.options.value.addAndroidDownloads.path == SavePath(dirs.downloadDir, id)
              && plan.options.value.addAndroidDownloads.title == ImageFileName(id)
              && plan.options.value.title == LiteralTitle
              && plan.options.value.fileCache && plan.options.value.useDownloadManager
              && plan.options.value.notification && plan.options.value.mediaScannable
              && plan.options.value.addAndroidDownloads.useDownloadManager
              && plan.options.value.addAndroidDownloads.notification
              && plan.options.value.addAndroidDownloads.mediaScannable
  {
    Plan(CheckPermission(os, version, checkAnswer, requestAnswer), os, url, ConfigAsWritten(os, dirs, id))
  }

  /** `actualDownload` with the corrected title: every option is as written
      except that the title names the file being saved. */
  function ActualDownloadCorrected(os: Os, version: int, checkAnswer: PermissionStatus, requestAnswer: PermissionStatus,
                                   dirs: Dirs, url: string, id: string): (plan: DownloadPlan)
    ensures plan.Transfer? == ActualDownload(os, version, checkAnswer, requestAnswer, dirs, url, id).Transfer?
    ensures plan.Transfer? && os != OtherOs ==>
              plan.options.Some?
              && plan.options.value.path == SaveDir(os, dirs) + "/" + plan.options.value.title
              && plan.options.value
                 == ActualDownload(os, version, checkAnswer, requestAnswer, dirs, url, id).options.value
                    .(title := ImageFileName(id))
    ensures plan.Transfer? && os == OtherOs ==> plan.options == None
  {
    Plan(CheckPermission(os, version, checkAnswer, requestAnswer), os, url, Config(os, dirs, id))
  }
}
