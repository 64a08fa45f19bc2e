/** One simulated knuckles controller (SoftKnucklesDevice).  The host's
    services are not modelled: the settings the device reads arrive as
    parameters of Init, the property writes and input-component requests it
    makes are appended to ghost logs, and the host's answers (the property
    container, each created handle or its failure) are chosen arbitrarily. */
module Device {
  import opened OpenVr
  import Lifecycle

  /** The kinds of input component a definition can describe */
  datatype ComponentType = Boolean | Scalar | Skeleton | Haptic

  /** KnuckleComponentDefinition: one entry of the static input configuration */
  datatype ComponentDefinition = ComponentDefinition(
    fullPath: string,
    componentType: ComponentType,
    scalarType: ScalarType,
    scalarUnits: ScalarUnits,
    skeletonPath: string,
    basePosePath: string)

  /** A request to the host's driver-input service to create one component */
  datatype InputRequest =
    | CreateBoolean(container: PropertyContainerHandle, path: string)
    | CreateScalar(container: PropertyContainerHandle, path: string, scalarType: ScalarType, scalarUnits: ScalarUnits)
    | CreateSkeleton(container: PropertyContainerHandle, path: string, skeletonPath: string, basePosePath: string)
    | CreateHaptic(container: PropertyContainerHandle, path: string)

  /** One call into the driver-input service and its answer: the handle it
      wrote, or None when it reported an error and left the handle alone. */
  datatype InputCall = InputCall(request: InputRequest, answer: Option<InputComponentHandle>)

  /** One call into the host's property service */
  datatype PropertyWrite = PropertyWrite(container: PropertyContainerHandle, key: PropertyKey, value: PropertyValue)

  /** The discrete part of DriverPose_t; positions and rotations are left out */
  datatype DriverPose = DriverPose(poseIsValid: bool, result: TrackingResult, deviceIsConnected: bool)

  const InitialPose: DriverPose := DriverPose(true, RunningOk, true)

  const LeftRenderModel: string := "{knuckles}/rendermodels/valve_controller_knu_ev2_0_left"
  const RightRenderModel: string := "{knuckles}/rendermodels/valve_controller_knu_ev2_0_right"
  const ManufacturerText: string := "HTC"
  const InputProfileText: string := "{soft_knuckles}/input/soft_knuckles_profile.json"
  const ControllerTypeText: string := "soft_knuckles"

  /** The serial a device reports: the configured serial with "L" or "R"
      appended for the two hands, unchanged for any other role. */
  function SerialFor(role: ControllerRole, configured: string): string
  {
    match role
    case LeftHand => configured + "L"
    case RightHand => configured + "R"
    case _ => configured
  }

  /** The creation request Activate issues for one definition: the creator is
      chosen by the definition's component type, and the path, scalar settings
      and skeleton paths are passed through. */
  function RequestFor(container: PropertyContainerHandle, d: ComponentDefinition): (r: InputRequest)
    ensures r.container == container && r.path == d.fullPath
    ensures r.CreateBoolean? <==> d.componentType == Boolean
    ensures r.CreateScalar? <==> d.componentType == Scalar
    ensures r.CreateSkeleton? <==> d.componentType == Skeleton
    ensures r.CreateHaptic? <==> d.componentType == Haptic
    ensures r.CreateScalar? ==> r.scalarType == d.scalarType && r.scalarUnits == d.scalarUnits
    ensures r.CreateSkeleton? ==> r.skeletonPath == d.skeletonPath && r.basePosePath == d.basePosePath
  {
    match d.componentType
    case Boolean => CreateBoolean(container, d.fullPath)
    case Scalar => CreateScalar(container, d.fullPath, d.scalarType, d.scalarUnits)
    case Skeleton => CreateSkeleton(container, d.fullPath, d.skeletonPath, d.basePosePath)
    case Haptic => CreateHaptic(container, d.fullPath)
  }

  /** The handle a Create*Component helper returns for the host's answer */
  function HandleFrom(answer: Option<InputComponentHandle>): InputComponentHandle
  {
    if answer.Some? then answer.value else InvalidInputComponentHandle
  }

  /** The nine properties Activate writes, in order */
  function ActivationProperties(container: PropertyContainerHandle, serial: string, model: string,
                                renderModel: string, role: ControllerRole): seq<PropertyWrite>
  {
    [ PropertyWrite(container, SerialNumber, StringValue(serial)),
      PropertyWrite(container, ModelNumber, StringValue(model)),
      PropertyWrite(container, RenderModelName, StringValue(renderModel)),
      PropertyWrite(container, ManufacturerName, StringValue(ManufacturerText)),
      PropertyWrite(container, ControllerRoleHint, Int32Value(role.Code())),
      PropertyWrite(container, DeviceClass, Int32Value(Controller.Code())),
      PropertyWrite(container, InputProfilePath, StringValue(InputProfileText)),
      PropertyWrite(container, ControllerType, StringValue(ControllerTypeText)),
      PropertyWrite(container, LegacyInputProfile, StringValue(ControllerTypeText)) ]
  }

  class SoftKnucklesDevice {
    var id: TrackedDeviceIndex
    var activated: bool
    var container: PropertyContainerHandle
    var role: ControllerRole
    /** m_component_definitions[0 .. m_num_component_definitions) */
    var componentDefinitions: seq<ComponentDefinition>
    var pose: DriverPose
    var serialNumber: string
    var modelNumber: string
    var renderModelName: string
    var componentHandles: seq<InputComponentHandle>
    var running: bool
    /** Whether m_pose_thread holds a joinable std::thread */
    var poseThreadJoinable: bool

    /** Every property write the device has made, in order */
    ghost var properties: seq<PropertyWrite>
    /** Every input-component creation the device has requested, in order */
    ghost var inputCalls: seq<InputCall>

    ghost function State(): Lifecycle.Slot
      reads this
    {
      Lifecycle.Slot(activated, running, poseThreadJoinable)
    }

    ghost predicate Valid()
      reads this
    {
      Lifecycle.OnePublisher(State())
    }

    /** Every field except the running flag and the thread slot is as it was */
    twostate predicate KeptAllButLifecycle()
      reads this
    {
      id == old(id) && activated == old(activated) && container == old(container) &&
      role == old(role) && componentDefinitions == old(componentDefinitions) && pose == old(pose) &&
      serialNumber == old(serialNumber) && modelNumber == old(modelNumber) &&
      renderModelName == old(renderModelName) && componentHandles == old(componentHandles) &&
      properties == old(properties) && inputCalls == old(inputCalls)
    }

    /** Every field Init does not set is as it was */
    twostate predicate KeptAllButSettings()
      reads this
    {
      id == old(id) && activated == old(activated) && container == old(container) && pose == old(pose) &&
      componentHandles == old(componentHandles) && running == old(running) &&
      poseThreadJoinable == old(poseThreadJoinable) &&
      properties == old(properties) && inputCalls == old(inputCalls)
    }

    /** The first |calls0| + n entries of the creation log are calls0 followed
        by one request per definition, in order, and handle k is what the
        request for definition k answered, for each k < n. */
    ghost predicate HandlesCreated(calls0: seq<InputCall>, n: nat)
      reads this`componentDefinitions, this`componentHandles, this`inputCalls, this`container
    {
      n <= |componentDefinitions| &&
      |componentHandles| == |componentDefinitions| &&
      |inputCalls| == |calls0| + n && inputCalls[..|calls0|] == calls0 &&
      forall k :: 0 <= k < n ==>
        inputCalls[|calls0| + k].request == RequestFor(container, componentDefinitions[k]) &&
        componentHandles[k] == HandleFrom(inputCalls[|calls0| + k].answer)
    }

    constructor ()
      ensures Valid() && State() == Lifecycle.Initial
      ensures id == InvalidTrackedDeviceIndex
      ensures container == InvalidTrackedDeviceIndex as PropertyContainerHandle
      ensures role == RoleInvalid && pose == InitialPose
      ensures componentDefinitions == [] && componentHandles == []
      ensures serialNumber == "" && modelNumber == "" && renderModelName == ""
      ensures properties == [] && inputCalls == []
    {
      id := InvalidTrackedDeviceIndex;
      activated := false;
      container := InvalidTrackedDeviceIndex as PropertyContainerHandle;
      role := RoleInvalid;
      running := false;
      poseThreadJoinable := false;
      pose := InitialPose;
      componentDefinitions := [];
      componentHandles := [];
      serialNumber, modelNumber, renderModelName := "", "", "";
      properties, inputCalls := [], [];
    }

    /** configuredSerial and configuredModel are the "serialNumber" and
        "modelNumber" settings the host's settings service returns. */
    method Init(role: ControllerRole, definitions: seq<ComponentDefinition>,
                configuredSerial: string, configuredModel: string)
      modifies this`role, this`componentDefinitions, this`serialNumber, this`modelNumber, this`renderModelName
      ensures this.role == role && componentDefinitions == definitions
      ensures role == LeftHand ==> serialNumber == configuredSerial + "L" && renderModelName == LeftRenderModel
      ensures role == RightHand ==> serialNumber == configuredSerial + "R" && renderModelName == RightRenderModel
      ensures role != LeftHand && role != RightHand ==>
                serialNumber == configuredSerial && renderModelName == old(renderModelName)
      ensures serialNumber == SerialFor(role, configuredSerial)
      ensures modelNumber == configuredModel
    {
      componentDefinitions := definitions;
      this.role := role;
      serialNumber := configuredSerial;
      modelNumber := configuredModel;
      if role == LeftHand {
        serialNumber := serialNumber + "L";
        renderModelName := LeftRenderModel;
      } else if role == RightHand {
        serialNumber := serialNumber + "R";
        renderModelName := RightRenderModel;
      }
    }

    method EnterStandby()
      requires Valid()
      modifies this`running, this`poseThreadJoinable
      ensures Valid()
      ensures State() == Lifecycle.Stop(old(State()))
    {
      if running {
        running := false;
        if poseThreadJoinable {
          JoinPoseThread();
        }
      }
    }

    /** The host's driver-input service: it may fail, in which case it leaves
        the caller's handle untouched. */
    method HostCreateComponent(request: InputRequest) returns (answer: Option<InputComponentHandle>)
      modifies this`inputCalls
      ensures inputCalls == old(inputCalls) + [InputCall(request, answer)]
    {
      answer :| true;
      inputCalls := inputCalls + [InputCall(request, answer)];
    }

    method CreateBooleanComponent(fullPath: string) returns (handle: InputComponentHandle)
      modifies this`inputCalls
      ensures |inputCalls| == |old(inputCalls)| + 1
      ensures inputCalls == old(inputCalls) + [InputCall(CreateBoolean(container, fullPath), inputCalls[|inputCalls| - 1].answer)]
      ensures handle == HandleFrom(inputCalls[|inputCalls| - 1].answer)
    {
      handle := InvalidInputComponentHandle;
      var answer := HostCreateComponent(CreateBoolean(container, fullPath));
      if answer.Some? {
        handle := answer.value;
      }
    }

    method CreateScalarComponent(fullPath: string, scalarType: ScalarType, scalarUnits: ScalarUnits)
      returns (handle: InputComponentHandle)
      modifies this`inputCalls
      ensures |inputCalls| == |old(inputCalls)| + 1
      ensures inputCalls == old(inputCalls) +
                [InputCall(CreateScalar(container, fullPath, scalarType, scalarUnits), inputCalls[|inputCalls| - 1].answer)]
      ensures handle == HandleFrom(inputCalls[|inputCalls| - 1].answer)
    {
      handle := InvalidInputComponentHandle;
      var answer := HostCreateComponent(CreateScalar(container, fullPath, scalarType, scalarUnits));
      if answer.Some? {
        handle := answer.value;
      }
    }

    method CreateHapticComponent(name: string) returns (handle: InputComponentHandle)
      modifies this`inputCalls
      ensures |inputCalls| == |old(inputCalls)| + 1
      ensures inputCalls == old(inputCalls) + [InputCall(CreateHaptic(container, name), inputCalls[|inputCalls| - 1].answer)]
      ensures handle == HandleFrom(inputCalls[|inputCalls| - 1].answer)
    {
      handle := InvalidInputComponentHandle;
      var answer := HostCreateComponent(CreateHaptic(container, name));
      if answer.Some? {
        handle := answer.value;
      }
    }

    /** The grip-limit transforms are always null and 0 in this driver */
    method CreateSkeletonComponent(name: string, skeletonPath: string, basePosePath: string)
      returns (handle: InputComponentHandle)
      modifies this`inputCalls
      ensures |inputCalls| == |old(inputCalls)| + 1
      ensures inputCalls == old(inputCalls) +
                [InputCall(CreateSkeleton(container, name, skeletonPath, basePosePath), inputCalls[|inputCalls| - 1].answer)]
      ensures handle == HandleFrom(inputCalls[|inputCalls| - 1].answer)
    {
      handle := InvalidInputComponentHandle;
      var answer := HostCreateComponent(CreateSkeleton(container, name, skeletonPath, basePosePath));
      if answer.Some? {
        handle := answer.value;
      }
    }

    method SetProperty(key: PropertyKey, value: string)
      modifies this`properties
      ensures properties == old(properties) + [PropertyWrite(container, key, StringValue(value))]
    {
      properties := properties + [PropertyWrite(container, key, StringValue(value))];
    }

    method SetInt32Property(key: PropertyKey, value: int)
      modifies this`properties
      ensures properties == old(properties) + [PropertyWrite(container, key, Int32Value(value))]
    {
      properties := properties + [PropertyWrite(container, key, Int32Value(value))];
    }

    /** Starting a thread into m_pose_thread; the slot must be empty, since
        assigning over a joinable std::thread terminates the process. */
    method SpawnPoseThread()
      requires !poseThreadJoinable
      modifies this`poseThreadJoinable
      ensures poseThreadJoinable
    {
      poseThreadJoinable := true;
    }

    method JoinPoseThread()
      requires poseThreadJoinable
      modifies this`poseThreadJoinable
      ensures !poseThreadJoinable
    {
      poseThreadJoinable := false;
    }

    /** The nine property writes at the start of Activate */
    method WriteActivationProperties()
      modifies this`properties
      ensures properties == old(properties) +
                ActivationProperties(container, serialNumber, modelNumber, renderModelName, role)
    {
      SetProperty(SerialNumber, serialNumber);
      SetProperty(ModelNumber, modelNumber);
      SetProperty(RenderModelName, renderModelName);
      SetProperty(ManufacturerName, ManufacturerText);
      SetInt32Property(ControllerRoleHint, role.Code());
      SetInt32Property(DeviceClass, Controller.Code());
      SetProperty(InputProfilePath, InputProfileText);
      SetProperty(ControllerType, ControllerTypeText);
      SetProperty(LegacyInputProfile, ControllerTypeText);
    }

    /** The handle loop of Activate: resize the handle vector to the number of
        definitions and fill entry i from the creator for definition i's type.
        A failed creation leaves the invalid handle and the loop goes on. */
    method CreateInputComponents()
      modifies this`componentHandles, this`inputCalls
      ensures HandlesCreated(old(inputCalls), |componentDefinitions|)
    {
      ghost var calls0 := inputCalls;
      componentHandles := seq(|componentDefinitions|, _ => InvalidInputComponentHandle);
      var i := 0;
      while i < |componentDefinitions|
        invariant HandlesCreated(calls0, i)
      {
        var definition := componentDefinitions[i];
        var handle;
        match definition.componentType {
          case Boolean =>
            handle := CreateBooleanComponent(definition.fullPath);
          case Scalar =>
            handle := CreateScalarComponent(definition.fullPath, definition.scalarType, definition.scalarUnits);
          case Skeleton =>
            handle := CreateSkeletonComponent(definition.fullPath, definition.skeletonPath, definition.basePosePath);
          case Haptic =>
            handle := CreateHapticComponent(definition.fullPath);
        }
        componentHandles := componentHandles[i := handle];
        i := i + 1;
      }
    }

    /** A first Activate records the object id, writes the nine properties,
        creates one input component per definition, and starts the publisher;
        a second Activate fails and changes nothing.  Unlike the source, the
        publisher is started only when Reactivate has not already started one. */
    method Activate(objectId: TrackedDeviceIndex) returns (err: InitError)
      requires Valid()
      modifies this
      ensures Valid()
      ensures State() == Lifecycle.ActivateGuarded(old(State()))
      ensures err == Lifecycle.ActivateStatus(old(State()))
      ensures old(activated) ==> unchanged(this)
      ensures !old(activated) ==> id == objectId
      ensures !old(activated) ==>
                properties == old(properties) +
                  ActivationProperties(container, serialNumber, modelNumber, renderModelName, role)
      ensures !old(activated) ==> HandlesCreated(old(inputCalls), |componentDefinitions|)
      ensures role == old(role) && componentDefinitions == old(componentDefinitions) && pose == old(pose)
      ensures serialNumber == old(serialNumber) && modelNumber == old(modelNumber)
      ensures renderModelName == old(renderModelName)
    {
      if activated {
        return DriverFailed;
      }
      FirstActivation(objectId);
      return InitErrorNone;
    }

    /** Activate past its guard */
    method FirstActivation(objectId: TrackedDeviceIndex)
      requires Valid() && !activated
      modifies this
      ensures Valid()
      ensures State() == Lifecycle.ActivateGuarded(old(State()))
      ensures id == objectId
      ensures properties == old(properties) +
                ActivationProperties(container, serialNumber, modelNumber, renderModelName, role)
      ensures HandlesCreated(old(inputCalls), |componentDefinitions|)
      ensures role == old(role) && componentDefinitions == old(componentDefinitions) && pose == old(pose)
      ensures serialNumber == old(serialNumber) && modelNumber == old(modelNumber)
      ensures renderModelName == old(renderModelName)
    {
      Register(objectId);
      CreateInputComponents();
      Reactivate();  // the guarded thread start: Reactivate's body
    }

    /** Marks the device activated under the host's object id, looks up its
        property container, and writes the nine properties into it. */
    method Register(objectId: TrackedDeviceIndex)
      modifies this`activated, this`id, this`container, this`properties
      ensures activated && id == objectId
      ensures properties == old(properties) +
                ActivationProperties(container, serialNumber, modelNumber, renderModelName, role)
    {
      activated := true;
      id := objectId;
      var hostContainer: PropertyContainerHandle :| true;  // TrackedDeviceToPropertyContainer(m_id)
      container := hostContainer;
      WriteActivationProperties();
    }

    method Deactivate()
      requires Valid()
      modifies this`running, this`poseThreadJoinable
      ensures Valid()
      ensures State() == Lifecycle.Stop(old(State()))
    {
      if running {
        running := false;
        if poseThreadJoinable {
          JoinPoseThread();
        }
      }
    }

    method Reactivate()
      requires Valid()
      modifies this`running, this`poseThreadJoinable
      ensures Valid()
      ensures State() == Lifecycle.Restart(old(State()))
    {
      if !running {
        running := true;
        SpawnPoseThread();
      }
    }

    method GetPose() returns (p: DriverPose)
      ensures p == pose
    {
      p := pose;
    }

    method GetSerial() returns (serial: string)
      ensures serial == serialNumber
    {
      serial := serialNumber;
    }
  }
}
