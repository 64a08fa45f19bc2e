# soft_knuckles, modelled in Dafny

soft_knuckles is an OpenVR driver that simulates a pair of Valve Index
("knuckles") controllers. This project models three parts of it and proves
properties about each.

- **Device lifecycle** (`SoftKnucklesDevice`). Each device has three lifecycle facts:
  - `m_activated`: the device has been activated;
  - `m_running`: its pose publisher should run;
  - the `std::thread` slot `m_pose_thread`, reduced to one bit: does it hold a joinable thread.

  The operations are Init, Activate, Deactivate, EnterStandby, Reactivate,
  GetPose and get_serial. Activate also writes nine properties and creates
  one input component per configured definition, dispatching on the
  definition's component type.
  - `lifecycle.dfy` abstracts the lifecycle to a pure state machine over the three facts.
  - `device.dfy` is the class. Its fields are those of the C++ class, with three exceptions: the definition pointer and its count form one sequence, `componentDefinitions`, and `m_driver_context` and `m_debug_handler` have no field.
  - Each method of the class is proved to move the abstract state exactly as the state machine says.
  - The central invariant is `m_running == joinable`. It implies that no thread is ever assigned over a live one, so each device owns at most one publisher thread.
- **Provider, notifier, watchdog and factory** (`provider.dfy`):
  - the provider owns the two devices, initialises device 0 as the left hand and device 1 as the right hand, and registers both with the host when the socket notifier fires;
  - it deactivates both devices on standby and on cleanup;
  - the sample watchdog keeps a thread-pointer bookkeeping bit;
  - `HmdDriverFactory` maps an interface name to a singleton or to null.
- **Debug client** (`command_line.dfy`, `debug_client.dfy`). The terminal program reads command lines into a `char[256]` buffer. For each line it:
  - skips leading white space;
  - cuts the comment in place at the first `#`;
  - classifies what is left as blank, `sleep N`, `quit`, or a request for the left (`l`) or right (`r`) controller, and acts on it.

  `command_line.dfy` gives the C library's view of the text:
  - the C string ends at the first NUL;
  - white space is what `isspace` accepts;
  - `sscanf(cmd, "sleep %d", ...)` and `strncmp(cmd, "quit", 4)` are modelled as functions;
  - fgets reads a line of at most 255 characters.

  It also defines the action each line leads to. `debug_client.dfy` has the pointer-walking loops over the buffer, `send_request`'s response buffer, and the outer read loop.

The OpenVR runtime is not modelled. Its services become parameters,
arbitrary choices, or ghost logs:
- the result of the driver-context initialisation that the provider and the watchdog run first;
- the settings the device reads;
- the property container and the handles the host hands out, including creation failures;
- `VR_Init`'s result and the two device indices the client looks up;
- the driver's reply to a debug request;
- the registrations and notifier calls, which go to a ghost log.

Two facts about the code shape the model:
- Activate writes nine properties, the controller type and the legacy input profile included.
- LeaveStandby restarts nothing, because its calls to Reactivate are commented out.

## Model

| member | source | states |
|---|---|---|
| Lifecycle.Stop | soft_knuckles_device.cpp:254-264 | A stop clears the running flag and keeps the activated flag. It changes nothing when the device is not running. From a state satisfying the invariant it leaves no joinable thread and keeps the invariant. |
| Lifecycle.Restart | soft_knuckles_device.cpp:266-274 | Reactivate leaves the device running and changes nothing when it was already running. From a state satisfying the invariant, the slot then holds a joinable thread and the invariant still holds. |
| Lifecycle.ActivateGuarded | soft_knuckles_device.cpp:205-252 | A second Activate changes nothing. A first one leaves the device activated and running. The invariant is preserved. |
| Lifecycle.ActivateStatus | soft_knuckles_device.cpp:207-211 | Activate returns VRInitError_Driver_Failed exactly when the device is already activated. |
| Lifecycle.RunKeepsOnePublisher | soft_knuckles_device.h:41-42 | `running == joinable` holds after every sequence of Activate, Deactivate, EnterStandby and Reactivate. |
| Lifecycle.NeverSpawnsOverLiveThread | soft_knuckles_device.cpp:266-274 | On no sequence of lifecycle operations does a thread get assigned to a slot that still holds a joinable thread. |
| Lifecycle.ActivationIsPermanent | soft_knuckles_device.cpp:207-212 | Nothing clears m_activated. After any sequence of operations, Deactivate and EnterStandby included, Activate still fails. |
| Lifecycle.StopAndRestartAreIdempotent | soft_knuckles_device.cpp:97-108 | Stopping twice is stopping once, and so is restarting twice. |
| Lifecycle.StopLeavesNoPublisher | soft_knuckles_device.cpp:254-264 | After any trace ending in Deactivate or EnterStandby, the device is not running and holds no joinable thread. |
| Lifecycle.ReactivateThenActivateAssignsOverLiveThread | soft_knuckles_device.cpp:248-249 | On a new device, Reactivate then the source's unguarded Activate assigns a thread to a slot whose thread is still joinable. |
| Lifecycle.AsWrittenAgreesWithoutReactivate | soft_knuckles_device.cpp:248-249 | On traces without Reactivate, the source's Activate and the guarded one reach the same states and spawn at the same steps. |
| Device.RequestFor | soft_knuckles_device.cpp:231-245 | The creator is chosen by the definition's component type, one creator per type. Path, scalar type and units, and skeleton paths are passed through, into the device's own container. |
| Device.SoftKnucklesDevice.constructor | soft_knuckles_device.cpp:30-36 | A new device is not activated and not running, and holds no thread. Its id and container are k_unTrackedDeviceIndexInvalid and its role is invalid. Nothing has been written or created yet. |
| Device.SoftKnucklesDevice.Init | soft_knuckles_device.cpp:57-86 | Stores the role and definitions. The serial is the configured one plus "L" for the left hand, plus "R" for the right hand, and unchanged otherwise. The render-model name is set only for the two hands. |
| Device.SoftKnucklesDevice.EnterStandby | soft_knuckles_device.cpp:97-108 | The lifecycle state becomes Stop of the old one, and the invariant is kept. |
| Device.SoftKnucklesDevice.CreateBooleanComponent | soft_knuckles_device.cpp:110-124 | Makes exactly one boolean-creation call into the device's container. Returns the handle the host wrote, or the invalid handle when the host reported an error. |
| Device.SoftKnucklesDevice.CreateScalarComponent | soft_knuckles_device.cpp:126-142 | The same for a scalar component, passing its type and units through. |
| Device.SoftKnucklesDevice.CreateHapticComponent | soft_knuckles_device.cpp:144-158 | The same for a haptic component. |
| Device.SoftKnucklesDevice.CreateSkeletonComponent | soft_knuckles_device.cpp:160-176 | The same for a skeleton component, passing both skeleton paths through. |
| Device.SoftKnucklesDevice.SetProperty | soft_knuckles_device.cpp:178-181 | Appends exactly one string-property write to the device's container. |
| Device.SoftKnucklesDevice.SetInt32Property | soft_knuckles_device.cpp:183-186 | Appends exactly one int32-property write to the device's container. |
| Device.SoftKnucklesDevice.SpawnPoseThread | soft_knuckles_device.h:42 | A thread may be assigned to the slot only while the slot holds no joinable thread. |
| Device.SoftKnucklesDevice.WriteActivationProperties | soft_knuckles_device.cpp:217-225 | The property log grows by the nine writes, in source order, with the device's serial, model, render model and role. |
| Device.SoftKnucklesDevice.CreateInputComponents | soft_knuckles_device.cpp:227-246 | The handle vector has one entry per definition. Entry k is what the creator for definition k's type answered, or the invalid handle on failure. The creation log grows by exactly those requests, in order. |
| Device.SoftKnucklesDevice.Register | soft_knuckles_device.cpp:212-225 | Marks the device activated under the host's object id, then writes the nine properties into the container the host names. |
| Device.SoftKnucklesDevice.FirstActivation | soft_knuckles_device.cpp:212-249 | Past the guard: id recorded, properties written, handles created, and the device running with exactly one publisher. |
| Device.SoftKnucklesDevice.Activate | soft_knuckles_device.cpp:205-252 | A second call returns Driver_Failed and changes nothing. A first call returns None and records the id, properties and handles. In both cases the state moves as `ActivateGuarded`, and the invariant is kept. |
| Device.SoftKnucklesDevice.Deactivate | soft_knuckles_device.cpp:254-264 | The lifecycle state becomes Stop of the old one, and the invariant is kept. |
| Device.SoftKnucklesDevice.Reactivate | soft_knuckles_device.cpp:266-274 | The lifecycle state becomes Restart of the old one, and the invariant is kept. |
| Device.SoftKnucklesDevice.GetPose | soft_knuckles_device.cpp:291-294 | Returns the stored pose and changes nothing. |
| Device.SoftKnucklesDevice.GetSerial | soft_knuckles_device.cpp:296-299 | Returns the stored serial and changes nothing. |
| Provider.HandSerialsDiffer | soft_knuckles_provider.cpp:68-72 | The left and right serials built from one configured serial differ, and differ in their last character, 'L' against 'R'. |
| Provider.SoftKnucklesProvider.constructor | soft_knuckles_provider.cpp:56-60 | Two distinct new devices, both in the initial lifecycle state, each with the invalid id and role, an empty serial and nothing written or created yet, and a notifier that points back at the provider. |
| Provider.SoftKnucklesProvider.Init | soft_knuckles_provider.cpp:62-77 | Returns the driver-context error when the host's context initialisation fails, and then changes neither device, the notifier nor the event log. Otherwise it returns None: device 0 becomes the left hand with the left definitions and device 1 the right hand with the right definitions. Their serials differ. Listening starts on 127.0.0.1:27015. Each hand gets its own render model and the configured model number. No lifecycle state changes, no other device field changes, and the notifier stays the same. |
| Provider.SoftKnucklesProvider.AddDevices | soft_knuckles_provider.cpp:80-89 | Exactly two registrations, in index order, each under the device's own serial, as a controller. |
| Provider.SoftKnucklesProvider.Cleanup | soft_knuckles_provider.cpp:91-97 | Stops the notifier, then stops device 0, then device 1. Each device's lifecycle state becomes Stop of the old one, and every other field of each device is kept. |
| Provider.SoftKnucklesProvider.ShouldBlockStandbyMode | soft_knuckles_provider.cpp:110-114 | Always false. |
| Provider.SoftKnucklesProvider.EnterStandby | soft_knuckles_provider.cpp:115-120 | Stops both devices, in order. Afterwards neither is running or holds a joinable thread, and every other field of each device is kept, the serials included. |
| Provider.SoftKnucklesProvider.LeaveStandby | soft_knuckles_provider.cpp:121-126 | Neither device's lifecycle state changes. |
| Provider.SoftKnucklesSocketNotifier.Notify | soft_knuckles_provider.cpp:135-138 | Exactly the registrations of one AddDevices. |
| Provider.WatchdogDriver.constructor | soft_knuckles_provider.cpp:145-148 | No thread yet. |
| Provider.WatchdogDriver.Init | soft_knuckles_provider.cpp:177-194 | Returns the driver-context error when the host's context initialisation fails, and then changes nothing. Otherwise it clears the exit flag, holds a thread, and returns None. |
| Provider.WatchdogDriver.Cleanup | soft_knuckles_provider.cpp:196-205 | Sets the exit flag and leaves no thread. The thread is joined once if one was held and not at all otherwise, so a second Cleanup joins nothing. |
| Provider.HmdDriverFactory | soft_knuckles_provider.cpp:217-234 | The provider exactly for the tracked-device-provider version, the watchdog exactly for the watchdog version, and null exactly for every other name. |
| CommandLine.CString | soft_knuckles_debug_client/soft_knuckles_debug_client.cpp:67-71 | The text a buffer holds is a NUL-free prefix of it, ending just before the first NUL. |
| CommandLine.TrimLeftDropsOnlySpace | soft_knuckles_debug_client/soft_knuckles_debug_client.cpp:67-69 | Skipping white space drops a prefix made only of white space and keeps the rest unchanged. What is left does not start with white space. |
| CommandLine.StripComment | soft_knuckles_debug_client/soft_knuckles_debug_client.cpp:70-79 | The command keeps the text before the first '#', unchanged, and contains no '#'. |
| CommandLine.CutCommentStripsComment | soft_knuckles_debug_client/soft_knuckles_debug_client.cpp:70-79 | After the in-place cut, the buffer's C string is the original C string up to its first '#'. |
| CommandLine.CutCommentChangesOnlyHash | soft_knuckles_debug_client/soft_knuckles_debug_client.cpp:73-75 | The in-place cut changes no character except a '#' that becomes a NUL. |
| CommandLine.CutCommentAtFirstHash | soft_knuckles_debug_client/soft_knuckles_debug_client.cpp:71-77 | When a '#' comes before any NUL, exactly the first one becomes a NUL. |
| CommandLine.CutCommentAtFirstNul | soft_knuckles_debug_client/soft_knuckles_debug_client.cpp:71-78 | When the C string holds no '#', the buffer is unchanged. |
| CommandLine.CutCommentIdempotent | soft_knuckles_debug_client/soft_knuckles_debug_client.cpp:70-79 | Cutting twice is cutting once, and the cut line leads to the same action as the uncut one. |
| CommandLine.StripCommentIdempotent | soft_knuckles_debug_client/soft_knuckles_debug_client.cpp:70-79 | Cutting the comment of a command that has none changes nothing. |
| CommandLine.TrimLeftStripCommentCommute | soft_knuckles_debug_client/soft_knuckles_debug_client.cpp:67-79 | Skipping white space then cutting the comment gives the same as the other order. |
| CommandLine.LineUpTo | soft_knuckles_debug_client/soft_knuckles_debug_client.cpp:66 | fgets stores a prefix of the input: non-empty when there is input and room, no longer than the room, with no newline before its last character. When it stops early it stops just after a newline. |
| CommandLine.NextLine | soft_knuckles_debug_client/soft_knuckles_debug_client.cpp:65-66 | One fgets into the 256-character buffer reads a non-empty prefix of the remaining input, of at most 255 characters. |
| CommandLine.Lines | soft_knuckles_debug_client/soft_knuckles_debug_client.cpp:63-66 | Every line the loop reads is non-empty and fits the buffer with its terminator. |
| CommandLine.LinesRoundTrip | soft_knuckles_debug_client/soft_knuckles_debug_client.cpp:66 | Reading line by line loses and adds nothing: the lines, concatenated, are the input. |
| CommandLine.ScanSleep | soft_knuckles_debug_client/soft_knuckles_debug_client.cpp:86 | sscanf "sleep %d" succeeds only on text whose first five characters are "sleep". |
| CommandLine.ScanIntSkipsSpace | soft_knuckles_debug_client/soft_knuckles_debug_client.cpp:86 | The white space before the number, which the space directive and %d allow, is skipped. |
| CommandLine.ScanNumberOfNumeral | soft_knuckles_debug_client/soft_knuckles_debug_client.cpp:86 | A signed decimal numeral followed by a non-digit converts to exactly its value. |
| CommandLine.SleepRoundTrip | soft_knuckles_debug_client/soft_knuckles_debug_client.cpp:86-90 | "sleep", any white space, a decimal integer n and a tail that does not continue it: the line scans as a sleep of exactly n. |
| CommandLine.ClassifyDecides | soft_knuckles_debug_client/soft_knuckles_debug_client.cpp:82-117 | Each action happens exactly when its test is the first to succeed. Blank text is ignored. A successful "sleep %d" sleeps for the number read. A "quit" prefix quits. Otherwise 'l' or 'r' sends the command minus its first character to that hand's index, and anything else is an unrecognized target. With both indices valid, a request is sent exactly when the command starts with 'l' or 'r'. |
| CommandLine.LineIgnoredIffBlank | soft_knuckles_debug_client/soft_knuckles_debug_client.cpp:82-85 | A line leads to nothing exactly when, after its leading white space, it is empty or starts with '#'. |
| CommandLine.UpToQuit | soft_knuckles_debug_client/soft_knuckles_debug_client.cpp:91-95 | The actions taken form a prefix of the lines' actions with no quit before the last one. When the prefix is cut short, its last action is quit. |
| CommandLine.UpToQuitStopsAtFirst | soft_knuckles_debug_client/soft_knuckles_debug_client.cpp:91-95 | The loop stops right after the first quit, and runs through everything when there is none. |
| CommandLine.ClientActions | soft_knuckles_debug_client/soft_knuckles_debug_client.cpp:62-119 | Action i is the action for line i. No quit comes before the last action, and when lines remain unread the last action is quit. |
| CommandLine.EndOfInputRepeatsLastCommand | soft_knuckles_debug_client/soft_knuckles_debug_client.cpp:66 | With fgets' result ignored, a pass at end of input leaves the buffer as it was and repeats the last action, which is not quit. The loop therefore never ends. |
| DebugClient.ResponseText | soft_knuckles_debug_client/soft_knuckles_debug_client.cpp:30-32 | What send_request prints fits the response buffer and contains no NUL. It is empty when the driver wrote nothing, and it is the whole reply when the reply fits. |
| DebugClient.HostDebugRequest | soft_knuckles_debug_client/soft_knuckles_debug_client.cpp:31 | When the driver answers, the buffer holds as much of the reply as fits, then a NUL, and the rest is untouched. When it does not answer, the buffer is unchanged. |
| DebugClient.SendRequest | soft_knuckles_debug_client/soft_knuckles_debug_client.cpp:27-33 | Because the response is emptied first, the printed line is the driver's reply cut to the buffer, or empty when the driver wrote nothing, followed by a newline. |
| DebugClient.SkipSpace | soft_knuckles_debug_client/soft_knuckles_debug_client.cpp:67-69 | cmd stops at the first character of the C string that is not white space, and everything before it is white space. |
| DebugClient.CutFrom | soft_knuckles_debug_client/soft_knuckles_debug_client.cpp:70-79 | The terminator stops at the first '#' from cmd on, which becomes a NUL with nothing else changed, or at the end of the C string, with the buffer unchanged. |
| DebugClient.ProcessLine | soft_knuckles_debug_client/soft_knuckles_debug_client.cpp:67-117 | The buffer afterwards is the comment-cut buffer, and the action is the one the line calls for. |
| DebugClient.CommandIsStrippedText | soft_knuckles_debug_client/soft_knuckles_debug_client.cpp:70-79 | Whatever the two pointer loops leave is the comment-cut buffer, and the C string from cmd is the trimmed text up to its comment. |
| DebugClient.Fgets | soft_knuckles_debug_client/soft_knuckles_debug_client.cpp:66 | At end of input it reports failure and leaves the buffer alone. Otherwise it stores the next line and its terminator, and advances past the line. |
| DebugClient.Pass | soft_knuckles_debug_client/soft_knuckles_debug_client.cpp:67-118 | On a freshly read line, the pass takes the line's action and prints what that action prints. |
| DebugClient.Act | soft_knuckles_debug_client/soft_knuckles_debug_client.cpp:82-117 | Prints "ok", "bye", the driver's reply or the unrecognized-target message, as the action calls for, and nothing for a blank line. |
| DebugClient.ReadAndAct | soft_knuckles_debug_client/soft_knuckles_debug_client.cpp:65-118 | One pass: at end of input nothing is read. Otherwise the next line is read and its action taken and printed. |
| DebugClient.CommandLoop | soft_knuckles_debug_client/soft_knuckles_debug_client.cpp:62-119 | The actions taken are exactly ClientActions of the input's lines: up to and including the first quit, or to the end of input. The output is their transcript. |
| DebugClient.RunClient | soft_knuckles_debug_client/soft_knuckles_debug_client.cpp:37-120 | Nothing happens unless VR_Init succeeded. The banner is printed, and the loop runs only when both hands were found. |

## Left out

- socket_notifier.cpp is not part of this model. Its listener thread, sockets and one-shot accept are operating-system I/O. The provider's calls into it are logged as events.
- The thread bodies are not modelled: `update_pose_thread` publishes every second and `WatchdogThreadFunction` wakes the host periodically. A thread is only the joinable bit, and a watchdog thread is only the pointer bookkeeping.
- The pose's floating-point rotations and position (soft_knuckles_device.cpp:39-54) are left out. The pose keeps only its validity, tracking result and connected flag.
- soft_knuckles_debug_handler.h and the request handling behind DebugRequest are not part of this model: only the handler's declaration exists.
- DebugRequest's forwarding is left out. So is the `m_debug_handler->Init(this)` call in Init. The client's view of the driver's reply is the `respond` parameter.
- GetComponent always answers null, and the model has no component objects.
- Also left out: RunFrame's static counter, the `dprintf` logging, GetInterfaceVersions' table, and SetBoolProperty, which nothing in the visible source calls. The friend class SoftKnucklesDebugHandler (soft_knuckles_device.h:25) might call it, but its code is not part of this model.
- CreateTrackpadComponent is declared in soft_knuckles_device.h:65 but not defined in soft_knuckles_device.cpp.
- The OpenVR headers are not part of this model. The values used for k_unTrackedDeviceIndexInvalid (0xFFFFFFFF), k_ulInvalidInputComponentHandle (0), TrackedDeviceClass_Controller (2), the controller-role codes and the interface version strings are the published OpenVR ones.
- soft_knuckles_config.h is not part of this model. The left and right component definitions are parameters of the provider's Init, and the settings values are parameters of the device's Init.
- The settings lookup truncates values to the 1024-character buffer; the model takes the configured strings whole.
- Dafny has no private members: the helpers the C++ class declares private are ordinary methods here. Only Activate's code path calls them.
- Device.SoftKnucklesDevice.Activate starts the publisher only when none is running. The source assigns a new thread unconditionally; see Findings.
- DebugClient.RunClient and DebugClient.CommandLoop stop at end of input: the loop breaks when fgets reports it. The source, which ignores fgets' result, loops for ever there; see Findings.
- DebugClient.ReadAndAct uses a fresh buffer for each pass. The source reuses an uninitialised stack buffer whose contents matter only at end of input, which EndOfInputRepeatsLastCommand covers.
- CommandLine.ScanNumber converts numerals of any size. `%d` on a number outside `int` is undefined behaviour in C, and the conversion to milliseconds is not modelled.
- The sleep itself, and stdin and stdout as streams, are left out. Input is a sequence of characters and output is the string printed.
- One Dafny `char` stands for one input byte. fgets' limit of 255 and `isspace` work on bytes, and multi-byte encodings are not modelled.
- VR_Init and the role-index lookups are parameters of RunClient.
- The driver's reply is a total function of the target and the request.
- DebugClient.HostDebugRequest assumes the runtime writes a NUL inside the response buffer when it answers. ResponseText's promise that the printed text fits the buffer and holds no NUL rests on that assumption. A runtime that filled the buffer without a terminator would make printf read past it, and the model does not cover that.
- Provider.WatchdogDriver.Init fails only through the driver-context macro at soft_knuckles_provider.cpp:179. `new thread` throws rather than returning null, so the Driver_Failed branch (soft_knuckles_provider.cpp:187-191) is unreachable and is not modelled. A second Init without Cleanup leaks the first thread; the model only records that a thread is held.
- g_bExiting is a process-wide global in the source; here it is a field of the watchdog.
- Device.SoftKnucklesDevice.constructor starts with no component definitions. The C++ constructor leaves the definition pointer and count uninitialised, so an Activate before Init is undefined behaviour in the source, where the model creates no components. In the provider, each device's Init runs before the device is registered with the host, so the host cannot activate it earlier.
- The host's property-container lookup and its input-component answers are arbitrary choices, so any answer, failure included, is covered.

## Findings

| source | as written | input that shows it | evidently intended | confidence | as-written member | corrected member |
|---|---|---|---|---|---|---|
| soft_knuckles_device.cpp:248-249 | Activate sets `m_running` and assigns a new `std::thread` to `m_pose_thread` without checking whether Reactivate already started one | Reactivate, then Activate, on a new device: the assignment lands on a joinable thread, which calls `std::terminate` | Start the publisher only when none is running, as Reactivate does | not executed; latent, since LeaveStandby's calls to Reactivate are commented out | Lifecycle.ReactivateThenActivateAssignsOverLiveThread | Lifecycle.NeverSpawnsOverLiveThread |
| soft_knuckles_debug_client/soft_knuckles_debug_client.cpp:66 | The result of `fgets` is ignored | Input that ends without a `quit` line: every further pass re-reads the stale buffer and repeats its last command, so the loop never ends | Leave the loop when fgets reports end of input | not executed | CommandLine.EndOfInputRepeatsLastCommand | DebugClient.RunClient |
