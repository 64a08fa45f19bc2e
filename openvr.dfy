/** The vocabulary the driver borrows from the OpenVR driver interface:
    fixed-width integers, the "invalid" sentinels, controller roles, device
    classes and the property keys the device writes.  Only what the modelled
    code uses is declared. */
module OpenVr {

  newtype uint32 = x: int | 0 <= x < 0x1_0000_0000
  newtype uint64 = x: int | 0 <= x < 0x1_0000_0000_0000_0000

  /** TrackedDeviceIndex_t and the sentinel k_unTrackedDeviceIndexInvalid */
  type TrackedDeviceIndex = uint32
  const InvalidTrackedDeviceIndex: TrackedDeviceIndex := 0xFFFF_FFFF

  /** VRInputComponentHandle_t and the sentinel k_ulInvalidInputComponentHandle */
  type InputComponentHandle = uint64
  const InvalidInputComponentHandle: InputComponentHandle := 0

  /** PropertyContainerHandle_t */
  type PropertyContainerHandle = uint64

  datatype Option<+T> = None | Some(value: T)

  /** EVRInitError: the two values the core itself returns, and any other
      code the host reports, such as a failed driver-context initialisation */
  datatype InitError = InitErrorNone | DriverFailed | HostError(code: int)

  /** ETrackedControllerRole */
  datatype ControllerRole = RoleInvalid | LeftHand | RightHand | OptOut | Treadmill | Stylus
  {
    function Code(): int {
      match this
      case RoleInvalid => 0
      case LeftHand => 1
      case RightHand => 2
      case OptOut => 3
      case Treadmill => 4
      case Stylus => 5
    }
  }

  /** ETrackedDeviceClass */
  datatype TrackedDeviceClass = ClassInvalid | HMD | Controller | GenericTracker | TrackingReference | DisplayRedirect
  {
    function Code(): int {
      match this
      case ClassInvalid => 0
      case HMD => 1
      case Controller => 2
      case GenericTracker => 3
      case TrackingReference => 4
      case DisplayRedirect => 5
    }
  }

  /** The ETrackedDeviceProperty keys the device writes when it is activated */
  datatype PropertyKey =
    | SerialNumber
    | ModelNumber
    | RenderModelName
    | ManufacturerName
    | ControllerRoleHint
    | DeviceClass
    | InputProfilePath
    | ControllerType
    | LegacyInputProfile

  datatype PropertyValue = StringValue(text: string) | Int32Value(number: int)

  /** EVRScalarType and EVRScalarUnits, carried through to the host unchanged */
  datatype ScalarType = Absolute | Relative
  datatype ScalarUnits = NormalizedOneSided | NormalizedTwoSided

  /** ETrackingResult; only the value the device reports is needed */
  datatype TrackingResult = Uninitialized | CalibratingInProgress | CalibratingOutOfRange | RunningOk | RunningOutOfRange
}
