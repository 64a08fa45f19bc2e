/** The driver's entry points: the provider that owns the two devices, the
    notifier callback that publishes them, the sample watchdog, and the
    factory the host calls to obtain either.  The socket notifier itself is
    not modelled; the provider's calls to it, and its calls into the host's
    device registry, are appended to a ghost log of events. */
module Provider {
  import opened OpenVr
  import Lifecycle
  import opened Device

  const NumDevices: nat := 2
  const ListenAddress: string := "127.0.0.1"
  const ListenPort: int := 27015

  /** What the provider asks of its notifier and of the host, in order */
  datatype Event =
    | StartListening(address: string, port: int)
    | StopListening
    | TrackedDeviceAdded(serial: string, deviceClass: TrackedDeviceClass, index: nat)
    | DeviceDeactivated(index: nat)

  /** The two registrations AddDevices makes for the given serials */
  function Registrations(leftSerial: string, rightSerial: string): seq<Event>
  {
    [TrackedDeviceAdded(leftSerial, Controller, 0), TrackedDeviceAdded(rightSerial, Controller, 1)]
  }

  /** The two hands' serials built from one configured serial differ, and
      differ in their last character. */
  lemma HandSerialsDiffer(configured: string)
    ensures SerialFor(LeftHand, configured) != SerialFor(RightHand, configured)
    ensures |SerialFor(LeftHand, configured)| == |SerialFor(RightHand, configured)| == |configured| + 1
    ensures SerialFor(LeftHand, configured)[|configured|] == 'L'
    ensures SerialFor(RightHand, configured)[|configured|] == 'R'
  {
    var l, r := SerialFor(LeftHand, configured), SerialFor(RightHand, configured);
    assert l[|configured|] == 'L' && r[|configured|] == 'R';
  }

  class SoftKnucklesProvider {
    /** m_knuckles[NUM_DEVICES] */
    const knuckles: array<SoftKnucklesDevice>
    var notifier: SoftKnucklesSocketNotifier?
    ghost var events: seq<Event>

    ghost predicate Valid()
      reads this, knuckles, knuckles[..]
    {
      knuckles.Length == NumDevices &&
      knuckles[0] != knuckles[1] &&
      knuckles[0].Valid() && knuckles[1].Valid() &&
      notifier != null && notifier.provider == this
    }

    constructor ()
      ensures Valid() && fresh(knuckles) && fresh(knuckles[0]) && fresh(knuckles[1])
      ensures knuckles[0].State() == Lifecycle.Initial && knuckles[1].State() == Lifecycle.Initial
      ensures knuckles[0].id == knuckles[1].id == InvalidTrackedDeviceIndex
      ensures knuckles[0].role == knuckles[1].role == RoleInvalid
      ensures knuckles[0].serialNumber == knuckles[1].serialNumber == ""
      ensures knuckles[0].properties == knuckles[1].properties == []
      ensures knuckles[0].inputCalls == knuckles[1].inputCalls == []
      ensures events == []
    {
      var left := new SoftKnucklesDevice();
      var right := new SoftKnucklesDevice();
      knuckles := new SoftKnucklesDevice[NumDevices][left, right];
      events := [];
      new;
      notifier := new SoftKnucklesSocketNotifier(this);
    }

    /** Initialises the host's driver context first and returns its error,
        changing nothing, when that fails.  Otherwise device 0 becomes the
        left hand with the left definitions, device 1 the right hand with the
        right definitions, then the notifier starts listening.  context is
        the result of the host's context initialisation; configuredSerial and
        configuredModel are the settings each device reads. */
    method Init(context: InitError, leftDefinitions: seq<ComponentDefinition>, rightDefinitions: seq<ComponentDefinition>,
                configuredSerial: string, configuredModel: string) returns (err: InitError)
      requires Valid()
      modifies this, knuckles[0], knuckles[1]
      ensures Valid() && err == context
      ensures err != InitErrorNone ==>
                unchanged(this, knuckles[0], knuckles[1])
      ensures err == InitErrorNone ==>
                && knuckles[0].role == LeftHand && knuckles[0].componentDefinitions == leftDefinitions
                && knuckles[1].role == RightHand && knuckles[1].componentDefinitions == rightDefinitions
                && knuckles[0].serialNumber == configuredSerial + "L"
                && knuckles[1].serialNumber == configuredSerial + "R"
                && knuckles[0].serialNumber != knuckles[1].serialNumber
                && knuckles[0].renderModelName == LeftRenderModel && knuckles[1].renderModelName == RightRenderModel
                && knuckles[0].modelNumber == configuredModel && knuckles[1].modelNumber == configuredModel
                && knuckles[0].KeptAllButSettings() && knuckles[1].KeptAllButSettings()
                && knuckles[0].State() == old(knuckles[0].State()) && knuckles[1].State() == old(knuckles[1].State())
                && notifier == old(notifier)
                && events == old(events) + [StartListening(ListenAddress, ListenPort)]
    {
      if context != InitErrorNone {
        return context;
      }
      knuckles[0].Init(LeftHand, leftDefinitions, configuredSerial, configuredModel);
      knuckles[1].Init(RightHand, rightDefinitions, configuredSerial, configuredModel);
      HandSerialsDiffer(configuredSerial);
      events := events + [StartListening(ListenAddress, ListenPort)];
      return InitErrorNone;
    }

    /** Registers every device with the host, in index order, each under its
        own serial as a controller. */
    method AddDevices()
      requires Valid()
      modifies this`events
      ensures events == old(events) + Registrations(knuckles[0].serialNumber, knuckles[1].serialNumber)
    {
      var i := 0;
      while i < NumDevices
        invariant 0 <= i <= NumDevices
        invariant events == old(events) + Registrations(knuckles[0].serialNumber, knuckles[1].serialNumber)[..i]
      {
        var serial := knuckles[i].GetSerial();
        events := events + [TrackedDeviceAdded(serial, Controller, i)];
        i := i + 1;
      }
    }

    /** Stops the notifier, then deactivates device 0 and then device 1 */
    method Cleanup()
      requires Valid()
      modifies this`events, knuckles[0], knuckles[1]
      ensures Valid()
      ensures knuckles[0].State() == Lifecycle.Stop(old(knuckles[0].State()))
      ensures knuckles[1].State() == Lifecycle.Stop(old(knuckles[1].State()))
      ensures knuckles[0].KeptAllButLifecycle() && knuckles[1].KeptAllButLifecycle()
      ensures events == old(events) + [StopListening, DeviceDeactivated(0), DeviceDeactivated(1)]
    {
      events := events + [StopListening];
      knuckles[0].Deactivate();
      events := events + [DeviceDeactivated(0)];
      knuckles[1].Deactivate();
      events := events + [DeviceDeactivated(1)];
    }

    function ShouldBlockStandbyMode(): (block: bool)
      ensures !block
    {
      false
    }

    /** Deactivates both devices, so that afterwards neither runs a publisher */
    method EnterStandby()
      requires Valid()
      modifies this`events, knuckles[0], knuckles[1]
      ensures Valid()
      ensures knuckles[0].State() == Lifecycle.Stop(old(knuckles[0].State()))
      ensures knuckles[1].State() == Lifecycle.Stop(old(knuckles[1].State()))
      ensures !knuckles[0].running && !knuckles[0].poseThreadJoinable
      ensures !knuckles[1].running && !knuckles[1].poseThreadJoinable
      ensures knuckles[0].KeptAllButLifecycle() && knuckles[1].KeptAllButLifecycle()
      ensures events == old(events) + [DeviceDeactivated(0), DeviceDeactivated(1)]
    {
      knuckles[0].Deactivate();
      events := events + [DeviceDeactivated(0)];
      knuckles[1].Deactivate();
      events := events + [DeviceDeactivated(1)];
    }

    /** The calls to Reactivate are commented out, so leaving standby changes
        neither device. */
    method LeaveStandby()
      requires Valid()
      ensures Valid()
      ensures knuckles[0].State() == old(knuckles[0].State()) && knuckles[1].State() == old(knuckles[1].State())
    {
    }
  }

  /** The notifier's callback: the connection it waited for has arrived */
  class SoftKnucklesSocketNotifier {
    const provider: SoftKnucklesProvider

    constructor (p: SoftKnucklesProvider)
      ensures provider == p
    {
      provider := p;
    }

    method Notify()
      requires provider.Valid()
      modifies provider`events
      ensures provider.events ==
                old(provider.events) + Registrations(provider.knuckles[0].serialNumber, provider.knuckles[1].serialNumber)
    {
      provider.AddDevices();
    }
  }

  /** CWatchdogDriver_Sample.  threadAllocated says whether m_pWatchdogThread
      points to a thread; exiting is the process-wide g_bExiting flag. */
  class WatchdogDriver {
    var exiting: bool
    var threadAllocated: bool
    /** How many times a watchdog thread has been joined and freed */
    ghost var joins: nat

    constructor ()
      ensures !exiting && !threadAllocated && joins == 0
    {
      exiting := false;
      threadAllocated := false;
      joins := 0;
    }

    /** Returns the host's context error, changing nothing, when the driver
        context fails to initialise; otherwise clears the exit flag and
        starts the watchdog thread.  context is the result of the host's
        context initialisation. */
    method Init(context: InitError) returns (err: InitError)
      modifies this`exiting, this`threadAllocated
      ensures err == context
      ensures err != InitErrorNone ==> unchanged(this)
      ensures err == InitErrorNone ==> !exiting && threadAllocated
    {
      if context != InitErrorNone {
        return context;
      }
      exiting := false;
      threadAllocated := true;
      err := InitErrorNone;
    }

    /** Sets the exit flag and joins, frees and forgets the thread, so that a
        second Cleanup only sets the flag again. */
    method Cleanup()
      modifies this
      ensures exiting && !threadAllocated
      ensures joins == old(joins) + (if old(threadAllocated) then 1 else 0)
    {
      exiting := true;
      if threadAllocated {
        joins := joins + 1;
        threadAllocated := false;
      }
    }
  }

  /** The interface objects HmdDriverFactory can hand out */
  datatype DriverInterface = ProviderSingleton | WatchdogSingleton | NullInterface

  const ServerTrackedDeviceProviderVersion: string := "IServerTrackedDeviceProvider_004"
  const WatchdogProviderVersion: string := "IVRWatchdogProvider_001"

  /** Answers the host's request for an interface by name: the provider for the
      tracked-device provider interface, the watchdog for the watchdog
      interface, and null for every other name. */
  function HmdDriverFactory(interfaceName: string): (r: DriverInterface)
    ensures r == ProviderSingleton <==> interfaceName == ServerTrackedDeviceProviderVersion
    ensures r == WatchdogSingleton <==> interfaceName == WatchdogProviderVersion
    ensures r == NullInterface <==>
              interfaceName != ServerTrackedDeviceProviderVersion && interfaceName != WatchdogProviderVersion
  {
    if interfaceName == ServerTrackedDeviceProviderVersion then ProviderSingleton
    else if interfaceName == WatchdogProviderVersion then WatchdogSingleton
    else NullInterface
  }
}
