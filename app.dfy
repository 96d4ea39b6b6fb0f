/** The `app` slice (`src/store/slices/appSlice.ts`): start-up flags, the version, the
    device's window and platform, the orientation, the modal and keyboard flags, the
    global loading indicator, two error slots and the toast.

    The window size is read once when the slice is created; `resetApp` goes back to
    the state built from that first size, keeping only the device record and the
    version. Sizes are whole numbers here (the source's are JavaScript numbers). */
module AppSlice {
  import opened Wrappers

  datatype Platform = Ios | Android
  datatype Orientation = Portrait | Landscape
  datatype ToastType = Success | Error | Warning | Info

  datatype DeviceInfo = DeviceInfo(width: int, height: int, isTablet: bool, platform: Platform, osVersion: string)

  /** A `Partial` of the device record. */
  datatype DevicePatch = DevicePatch(width: Option<int>, height: Option<int>, isTablet: Option<bool>,
                                     platform: Option<Platform>, osVersion: Option<string>)

  datatype Loading = Loading(global: bool, message: Option<string>)
  datatype Errors = Errors(global: Option<string>, network: Option<string>)
  datatype Toast = Toast(visible: bool, message: string, kind: ToastType, duration: int)

  datatype AppFields = AppFields(
    isInitialized: bool, isOnline: bool, isFirstLaunch: bool, appVersion: string, buildNumber: string,
    deviceInfo: DeviceInfo, orientation: Orientation, keyboardVisible: bool, activeModal: Option<string>,
    loading: Loading, error: Errors, toast: Option<Toast>)

  datatype AppAction =
    | SetInitialized(flag: bool)
    | SetOnlineStatus(online: bool)
    | SetFirstLaunch(flag: bool)
    | SetAppVersion(version: string, buildNumber: string)
    | SetDeviceInfo(patch: DevicePatch)
    | SetOrientation(orientation: Orientation)
    | SetKeyboardVisible(flag: bool)
    | SetActiveModal(modal: Option<string>)
    | SetGlobalLoading(loading: bool, caption: Option<string>)
    | SetGlobalError(globalError: Option<string>)
    | SetNetworkError(networkError: Option<string>)
    | ClearErrors
    | ShowToast(text: string, kind: Option<ToastType>, duration: Option<int>)
    | HideToast
    | UpdateDimensions(width: int, height: int)
    | ResetApp

  /** `Math.min(width, height) >= 768`. */
  function IsTabletSize(width: int, height: int): (tablet: bool)
    ensures tablet <==> width >= 768 && height >= 768
  {
    (if width < height then width else height) >= 768
  }

  /** Wider than high is landscape; a square is portrait. */
  function OrientationOf(width: int, height: int): (o: Orientation)
    ensures o == Landscape <==> width > height
  {
    if width > height then Landscape else Portrait
  }

  /** The device record and the orientation agree with the window size. */
  predicate GeometryConsistent(s: AppFields) {
    s.deviceInfo.isTablet == IsTabletSize(s.deviceInfo.width, s.deviceInfo.height)
    && s.orientation == OrientationOf(s.deviceInfo.width, s.deviceInfo.height)
  }

  /** The initial state for the window size read at start. */
  function Initial(width: int, height: int): (s: AppFields)
    ensures GeometryConsistent(s)
    ensures !s.isInitialized && s.isOnline && s.isFirstLaunch && s.toast.None?
    ensures s.appVersion == "1.0.0" && s.buildNumber == "1"
  {
    AppFields(false, true, true, "1.0.0", "1",
              DeviceInfo(width, height, IsTabletSize(width, height), Ios, ""),
              OrientationOf(width, height), false, None, Loading(false, None), Errors(None, None), None)
  }

  /** `{...deviceInfo, ...patch}`. */
  function MergeDevice(d: DeviceInfo, p: DevicePatch): (r: DeviceInfo)
    ensures r.width == p.width.GetOr(d.width) && r.height == p.height.GetOr(d.height)
    ensures r.isTablet == p.isTablet.GetOr(d.isTablet) && r.platform == p.platform.GetOr(d.platform)
    ensures r.osVersion == p.osVersion.GetOr(d.osVersion)
  {
    DeviceInfo(p.width.GetOr(d.width), p.height.GetOr(d.height), p.isTablet.GetOr(d.isTablet),
               p.platform.GetOr(d.platform), p.osVersion.GetOr(d.osVersion))
  }

  /** The toast `showToast` builds: visible, of kind info unless one is given, shown for
      3000 ms unless a non-zero duration is given (`duration || 3000`). */
  function NewToast(message: string, kind: Option<ToastType>, duration: Option<int>): (t: Toast)
    ensures t.visible && t.message == message
    ensures t.kind == (if kind.Some? then kind.value else Info)
    ensures t.duration == (if duration.Some? && duration.value != 0 then duration.value else 3000)
    ensures t.duration != 0
  {
    Toast(true, message, kind.GetOr(Info),
          if duration.Some? && duration.value != 0 then duration.value else 3000)
  }

  /** `resetApp`: the initial state with the device record and version carried over and
      the first-launch flag off. */
  function ResetFields(s: AppFields, initial: AppFields): (r: AppFields)
    ensures r.deviceInfo == s.deviceInfo && r.appVersion == s.appVersion && r.buildNumber == s.buildNumber
    ensures !r.isFirstLaunch
    ensures r.isOnline == initial.isOnline && r.toast == initial.toast && r.orientation == initial.orientation
  {
    initial.(deviceInfo := s.deviceInfo, appVersion := s.appVersion, buildNumber := s.buildNumber,
             isFirstLaunch := false)
  }

  /** The reducer; `initial` is the state the slice was created with. Only
      `setAppVersion` changes the version and build, even `resetApp` keeping them; only
      `setDeviceInfo` and `updateDimensions` change the device record. */
  function Reduce(s: AppFields, initial: AppFields, a: AppAction): (r: AppFields)
    ensures r.appVersion != s.appVersion || r.buildNumber != s.buildNumber ==> a.SetAppVersion?
    ensures r.deviceInfo != s.deviceInfo ==> a.SetDeviceInfo? || a.UpdateDimensions?
  {
    match a
    case SetInitialized(b) => s.(isInitialized := b)
    case SetOnlineStatus(b) => s.(isOnline := b, error := if b then s.error.(network := None) else s.error)
    case SetFirstLaunch(b) => s.(isFirstLaunch := b)
    case SetAppVersion(v, n) => s.(appVersion := v, buildNumber := n)
    case SetDeviceInfo(p) => s.(deviceInfo := MergeDevice(s.deviceInfo, p))
    case SetOrientation(o) => s.(orientation := o)
    case SetKeyboardVisible(b) => s.(keyboardVisible := b)
    case SetActiveModal(m) => s.(activeModal := m)
    case SetGlobalLoading(b, m) => s.(loading := Loading(b, m))
    case SetGlobalError(m) => s.(error := s.error.(global := m))
    case SetNetworkError(m) => s.(error := s.error.(network := m))
    case ClearErrors => s.(error := Errors(None, None))
    case ShowToast(m, k, d) => s.(toast := Some(NewToast(m, k, d)))
    case HideToast => s.(toast := None)
    case UpdateDimensions(w, h) =>
      s.(deviceInfo := s.deviceInfo.(width := w, height := h, isTablet := IsTabletSize(w, h)),
         orientation := OrientationOf(w, h))
    case ResetApp => ResetFields(s, initial)
  }

  /** Going online clears the network error; going offline keeps it. */
  lemma OnlineStatusCases(s: AppFields, initial: AppFields, online: bool)
    ensures var t := Reduce(s, initial, SetOnlineStatus(online));
            t.isOnline == online && (online ==> t.error.network.None?) && (!online ==> t == s.(isOnline := false))
  {
  }

  /** `updateDimensions` makes the geometry consistent from any state. */
  lemma DimensionsConsistent(s: AppFields, initial: AppFields, w: int, h: int)
    ensures GeometryConsistent(Reduce(s, initial, UpdateDimensions(w, h)))
    ensures Reduce(s, initial, UpdateDimensions(w, h)).deviceInfo.platform == s.deviceInfo.platform
  {
  }

  /** `resetApp` keeps the device record and the version, and is otherwise the start state. */
  lemma ResetKeeps(s: AppFields, w: int, h: int)
    ensures var t := Reduce(s, Initial(w, h), ResetApp);
            t.deviceInfo == s.deviceInfo && t.appVersion == s.appVersion && t.buildNumber == s.buildNumber
            && !t.isFirstLaunch && !t.isInitialized && t.isOnline && t.toast.None?
            && t.error == Errors(None, None) && t.loading == Loading(false, None) && t.activeModal.None?
            && t.orientation == OrientationOf(w, h)
  {
  }

  /** Because the orientation comes from the start-up size and the device record does
      not, a reset after a rotation leaves them disagreeing. */
  lemma ResetAfterRotation()
    ensures var s := Reduce(Initial(1000, 500), Initial(1000, 500), UpdateDimensions(500, 1000));
            GeometryConsistent(s) && !GeometryConsistent(Reduce(s, Initial(1000, 500), ResetApp))
  {
  }

  /** `resetApp` twice is `resetApp` once. */
  lemma ResetIdempotent(s: AppFields, initial: AppFields)
    ensures Reduce(Reduce(s, initial, ResetApp), initial, ResetApp) == Reduce(s, initial, ResetApp)
  {
  }

  class AppState {
    var isInitialized: bool
    var isOnline: bool
    var isFirstLaunch: bool
    var appVersion: string
    var buildNumber: string
    var deviceInfo: DeviceInfo
    var orientation: Orientation
    var keyboardVisible: bool
    var activeModal: Option<string>
    var loading: Loading
    var error: Errors
    var toast: Option<Toast>
    /** The state the slice was created with. */
    const initial: AppFields

    function Fields(): AppFields
      reads this
    {
      AppFields(isInitialized, isOnline, isFirstLaunch, appVersion, buildNumber, deviceInfo, orientation,
                keyboardVisible, activeModal, loading, error, toast)
    }

    constructor (width: int, height: int)
      ensures initial == Initial(width, height) && Fields() == initial
    {
      initial := Initial(width, height);
      isInitialized, isOnline, isFirstLaunch, appVersion, buildNumber := false, true, true, "1.0.0", "1";
      deviceInfo := DeviceInfo(width, height, IsTabletSize(width, height), Ios, "");
      orientation := OrientationOf(width, height);
      keyboardVisible, activeModal, loading, error, toast := false, None, Loading(false, None), Errors(None, None), None;
    }

    method Apply(a: AppAction)
      modifies this
      ensures Fields() == Reduce(old(Fields()), initial, a)
    {
      if a.SetInitialized? || a.SetOnlineStatus? || a.SetFirstLaunch? || a.SetAppVersion? {
        ApplyStatus(a);
      } else if a.SetDeviceInfo? || a.SetOrientation? || a.UpdateDimensions? || a.SetKeyboardVisible? {
        ApplyDevice(a);
      } else if a.SetGlobalError? || a.SetNetworkError? || a.ClearErrors? {
        ApplyErrors(a);
      } else if a.ResetApp? {
        Reset();
      } else {
        ApplyOverlay(a);
      }
    }

    /** The start-up and version reducers. */
    method ApplyStatus(a: AppAction)
      requires a.SetInitialized? || a.SetOnlineStatus? || a.SetFirstLaunch? || a.SetAppVersion?
      modifies this
      ensures Fields() == Reduce(old(Fields()), initial, a)
    {
      match a
      case SetInitialized(b) => isInitialized := b;
      case SetOnlineStatus(b) =>
        isOnline := b;
        if b {
          error := error.(network := None);
        }
      case SetFirstLaunch(b) => isFirstLaunch := b;
      case SetAppVersion(v, n) => appVersion, buildNumber := v, n;
    }

    /** The device, window and keyboard reducers. */
    method ApplyDevice(a: AppAction)
      requires a.SetDeviceInfo? || a.SetOrientation? || a.UpdateDimensions? || a.SetKeyboardVisible?
      modifies this
      ensures Fields() == Reduce(old(Fields()), initial, a)
    {
      match a
      case SetDeviceInfo(p) => deviceInfo := MergeDevice(deviceInfo, p);
      case SetOrientation(o) => orientation := o;
      case SetKeyboardVisible(b) => keyboardVisible := b;
      case UpdateDimensions(w, h) =>
        deviceInfo := deviceInfo.(width := w, height := h, isTablet := IsTabletSize(w, h));
        orientation := OrientationOf(w, h);
    }

    /** The error reducers. */
    method ApplyErrors(a: AppAction)
      requires a.SetGlobalError? || a.SetNetworkError? || a.ClearErrors?
      modifies this
      ensures Fields() == Reduce(old(Fields()), initial, a)
    {
      match a
      case SetGlobalError(m) => error := error.(global := m);
      case SetNetworkError(m) => error := error.(network := m);
      case ClearErrors => error := Errors(None, None);
    }

    /** The modal, loading and toast reducers. */
    method ApplyOverlay(a: AppAction)
      requires a.SetActiveModal? || a.SetGlobalLoading? || a.ShowToast? || a.HideToast?
      modifies this
      ensures Fields() == Reduce(old(Fields()), initial, a)
    {
      match a
      case SetActiveModal(m) => activeModal := m;
      case SetGlobalLoading(b, m) => loading := Loading(b, m);
      case ShowToast(m, k, d) => toast := Some(NewToast(m, k, d));
      case HideToast => toast := None;
    }

    /** `resetApp`: the initial state, keeping the device record, the version and the
        build, and no longer a first launch. */
    method Reset()
      modifies this
      ensures Fields() == ResetFields(old(Fields()), initial)
    {
      isInitialized, isOnline, isFirstLaunch, orientation, keyboardVisible, activeModal, loading, error, toast :=
        initial.isInitialized, initial.isOnline, false, initial.orientation, initial.keyboardVisible,
        initial.activeModal, initial.loading, initial.error, initial.toast;
    }
  }
}
