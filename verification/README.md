# K-2SO head firmware: verified model

The firmware drives a droid's head from an ESP32: a Bluetooth controller moves the eyes and the lights,
and a WiFi access point, brought up with a button, serves a control page and updates. This project models
the parts with the most state and arithmetic and proves what they guarantee over whole runs.

Each component has a specification on values (states, steps, runs) with its theorems, and, where the
firmware changes things in place, a class whose methods are proved to do to the state what the
specification says. "History" fields (`told`, `severed`, `wentUp`, `setups`, `log`, `calls`, `acts`, `issued`,
`executed`, `rises`, `falls`, `seen`) record what happened so that properties of runs can be stated; the
firmware has no such fields.

| module | models |
|---|---|
| `HidTable` | device slots, the seats handed to the application, parents and virtual children |
| `BredrFsm`, `BredrSafety` | the BR/EDR connection machine with its SDP queries, and what it never does |
| `BredrFrame`, `BredrProgress` | what an event leaves alone, and that a device gets there |
| `BredrTold` | whom an event tells to set up, exactly, with nothing assumed |
| `BredrEffects` | what every event does, device by device: the machine as a table |
| `BredrStale`, `BredrNames` | what an SDP answer or a name does that comes too late |
| `HidHost` | the device table and the machine in the firmware's in-place form |
| `Mailbox` | reports crossing from the Bluetooth CPU to the application CPU; connect and disconnect callbacks |
| `ReportQueue` | outgoing reports and the 32-slot ring they wait in |
| `Crc32` | the reflected CRC-32 of section 3.2.9 of IEEE 802.3, without initial or final inversion |
| `NeoPixel`, `LedController` | the pixel buffer and its three brightness multipliers |
| `PixelEffects`, `LedEffects` | what each of their calls does, pixel by pixel |
| `EyeMotion`, `EyeEffects` | saccades, blinks, speech and easing on a wrapping 32-bit clock; what one call does |
| `AdminButton`, `Scanning` | the button that swaps scanning for the access point, and the way of its commands to the radio |
| `Allowlist` | the Bluetooth allow-list and its stored text |
| `SoftSpi` | SPI in software |
| `Quadrature` | mouse movement as quadrature signals |
| `Prelude` | integer widths and options, shared by the others |

`dafny verify dfyconfig.toml` checks all of it.

## What is assumed

- `HidTable`: a device is connected once per connection, and a device that is dropped is disconnected first.
  `BredrSafety` proves that the event handlers respect the first. A drop may hit any slot, also a virtual child
  by itself, as the console's `disconnect` does (`components/bluepad32/arch/uni_console_esp32.c:248-262`,
  `components/bluepad32/bt/uni_bt.c:206-214`).
- `BredrSafety.Plausible` spells out what its theorems assume of the events: requests to the Bluetooth stack are
  accepted and answered by events; channels open only on devices that wait for them; a connection request
  finds no device that was found by inquiry and is on its way; names come only to devices that wait for one, or
  are being set up or ready; an SDP answer finds the slot that asked still waiting. The handlers check none of
  this.
- Ordinary events break the last three. A device found by inquiry may connect by itself. A name request is still out when the name timer has fired or the device
  has gone, and its answer is acted on in every state below "pending ready"
  (`components/bluepad32/bt/uni_bt_bredr.c:737-751`). Deleting a device leaves the lock on its slot
  (`DropKeepsLock`); when its SDP channel then closes, the stack reports the query as complete
  (`components/btstack/src/classic/sdp_client.c:361-370`, `components/btstack/src/classic/sdp_client.c:525-534`),
  and the handler does not look at the status (`components/bluepad32/bt/uni_bt_sdp.c:186-191`).
- `BredrTold` assumes nothing: for every event in every table it says exactly whom it tells, and over every run
  it gives the condition under which all is well. `BredrStale` and `BredrNames` work it out for late answers
  and late names, with runs in which each effect occurs.
- `Mailbox`: storing and taking a report are atomic (the firmware holds a mutex); so are the two steps of
  releasing a seat, which the firmware does without it.
- `EyeMotion`: one reading of the clock per update; random numbers and the BUSY line are inputs.
- `AdminButton`, `Scanning`: whether an access point comes up is an input; the BLE setting does not change
  during a run.
- `ReportQueue`: whether L2CAP takes a report is an input.

## Findings

- A press of the admin button noticed at clock value 0 is taken for "not pressed" until the next pass
  (`OneHoldOneToggle`).
- A ninth command issued while eight wait replaces the oldest one, which is lost: the newest runs in its
  place (`NextIsOldest` is the exact condition, `NinthOverwrites` the effect, `NinthRunsFirst` the run).
- While the allow-list loads, the stored property holds only what has been read so far (`WhileLoading`): a
  reset at that moment loses the rest.
- A controller that reconnects during a blink can hold the eyes dark for longer than the 120 ms of a blink:
  exactly while it is connected with its stick at rest and idle has not resumed (`DarkPastTheBlink`). It can
  take 499 ms (`DarkFor499Ms`), never 500 (`NeverDarkFor500Ms`).
- "Told to set up at most once, and only when up" holds exactly as long as every event is harmless (`RunIsRight`);
  late SDP answers and late names are not, and other events can make a punctual one harmful.
  - A late answer can tell a device that never connected: exactly if the slot with the lock is one that the
    answer tells, and never came up (`TellsTooSoon`, with the run `StaleAnswerReadiesAStranger`).
  - It can tell a device twice: exactly if it is one that the answer tells, and was told before (`TellsTwice`,
    with the run `StaleAnswerTellsTwice`). `AnswerTells` says which slots an answer tells.
  - It drops a device that is ready and seated: at once, or when its parser is done (`AnswerDrops`, with the run
    `StaleAnswerDropsAReadyDevice`).
  - A name that comes after its timer fired can tell the device while its query runs; the answer, in time, then
    tells it again (`LateNameTellsTwice`). One that comes in a later life can tell a device that is not up yet
    (`LateNameReadiesTooSoon`). `NameTells` and `NameTellsTooSoon` are the exact conditions.
  - A late name can drop the device in its own query (`LateNameDrops`): exactly if it makes the device ask while
    a query is in progress (`NameDrops`).
  - A device found by inquiry that connects by itself before its name comes counts as incoming, and is told by
    its name before it is up (`CrossedRequestReadiesTooSoon`; the exact condition is `NameTellsTooSoon`).
- A controller that is connected can stay unheard: when the chosen one goes, only a controller that connects
  above it in the same poll, or one in a later poll, is adopted (`LosingTheChosen`, with the run
  `ConnectedButUnheard`).
- A virtual child dropped by itself leaves its parent pointing at its slot (`DropKeepsKinUnlessVirtual`,
  `SeveredExactly`). The next device there is dropped with the parent (`SeveredDropsAStranger`). Seats stay right
  all the same (`SeatsOverAnyRun`).

## Model

| member | source | states |
|---|---|---|
| HidTable.Pigeonhole | components/bluepad32_arduino/arduino_platform.c:192-232 | a connected device without a seat: fewer than four seats are counted used, and the search for a free one finds one |
| HidTable.TakeKeepsSeats | components/bluepad32_arduino/arduino_platform.c:192-232 | asked about such a device the platform always accepts, never answers NO_SLOTS, and count, marks and owners stay right |
| HidTable.ReleaseKeepsSeats | components/bluepad32_arduino/arduino_platform.c:174-190 | taking any device down marks its seat free and counts one less, or changes neither if it has none, and keeps count, marks and owners right |
| HidTable.CreateKeepsTable | components/bluepad32/uni_hid_device.c:69-83 | a new device takes the first free slot, cleared but for its address, and every table invariant survives |
| HidTable.ConnectKeepsTable | components/bluepad32/uni_hid_device.c:428-440 | a first connect leaves the device connected and unseated, with the invariants intact |
| HidTable.DropClears | components/bluepad32/uni_hid_device.c:442-507 | disconnect then delete clears exactly the device and everybody down its line of children, and leaves every other slot as it was |
| HidTable.DropKeepsSeats | components/bluepad32/uni_hid_device.c:442-507 | dropping any device, with whoever is down its line, keeps count, marks and owners right |
| HidTable.DropKeepsTable | components/bluepad32/uni_hid_device.c:442-507 | dropping any device, a virtual child by itself included, keeps seats, owners and records right, and keeps families whole as long as no virtual child was dropped by itself |
| HidTable.DropKeepsKinUnlessVirtual | components/bluepad32/uni_hid_device.c:442-507 | dropping a device leaves parents and children pointing at each other iff it is not a virtual child |
| HidTable.DepthIsEnough | components/bluepad32/uni_hid_device.c:442-507 | however deep the recursion over children may go, it does what four levels do: no line of children comes back to where it began |
| HidTable.SetReadyCompleteAnswers | components/bluepad32/uni_hid_device.c:230-260 | completing setup accepts exactly the connected, unseated devices; every other one is refused and dropped |
| HidTable.SpawnKeepsTable | components/bluepad32/uni_hid_device.c:85-119 | a virtual child takes a free slot as it is; parent and child point at each other and nothing else breaks |
| HidTable.ChildIsTaken | components/bluepad32/parser/uni_hid_parser_ds4.c:240-262 | a virtual child that connects and completes is never refused: the branch that breaks the link is not reached |
| HidTable.FinishSetupKeepsTable | components/bluepad32/parser/uni_hid_parser_ds4.c:240-262 | completing setup with the child it may bring keeps the table right |
| HidTable.SetReadyKeepsTable | components/bluepad32/uni_hid_device.c:207-228 | telling the parser of a device to set up, and completing at once where the parser does, keeps the table right |
| HidTable.ApplyKeepsTable | components/bluepad32/uni_hid_device.c:207-507 | each of create, type, connect, tell, complete, state change, drop and switch, done to any slot at any time (connect: once per connection), keeps the table right |
| HidTable.SeveredExactly | components/bluepad32/uni_hid_device.c:230-507 | an operation drops a virtual child by itself iff it is a drop of one, or completes the setup of one that is not connected without a seat |
| HidTable.SeatsHaveOneOwner | components/bluepad32_arduino/arduino_platform.c:102-115 | used_controllers_ counts the taken seats; a taken seat j holds j and has exactly one connected owner; a request for j goes to that owner once it is ready, and otherwise to nobody |
| HidTable.SeatsOverAnyRun | components/bluepad32_arduino/arduino_platform.c:168-232 | all of that in every state reachable by any interleaving of the operations on any slots, virtual children told, completed or dropped by themselves included |
| HidTable.FamiliesOverAnyRun | components/bluepad32/uni_hid_device.c:85-119 | in every such state, parents and children point at each other unless a virtual child was dropped by itself |
| HidTable.SeveredDropsAStranger | components/bluepad32/bt/uni_bt.c:206-214 | a run from power-on: a virtual child is dropped by itself, another device takes its slot, and is dropped with the parent |
| HidHost.Bluepad.constructor | components/bluepad32_arduino/arduino_platform.c:95-100 | every slot cleared, every seat marked free |
| HidHost.Bluepad.NewDevice | components/bluepad32/uni_hid_device.c:69-83 | the loop over the slots creates as the specification says, or reports that none is free |
| HidHost.Bluepad.NewVirtual | components/bluepad32/uni_hid_device.c:85-119 | the same for a virtual child, only while virtual devices are enabled |
| HidHost.Bluepad.InstanceForAddress | components/bluepad32/uni_hid_device.c:132-140 | the first device at an address, virtual ones passed over |
| HidHost.Bluepad.InstanceForSeat | components/bluepad32/uni_hid_device.c:173-182 | the first ready device with a seat, or none |
| HidHost.Bluepad.SetConnected | components/bluepad32/uni_hid_device.c:428-440 | marks the connection up and forgets the seat, nothing else |
| HidHost.Bluepad.OnDeviceDisconnected | components/bluepad32_arduino/arduino_platform.c:174-190 | frees the seat in range and counts down; otherwise changes nothing |
| HidHost.Bluepad.PlatformReady | components/bluepad32_arduino/arduino_platform.c:192-232 | the three answers, the first free seat, and the count |
| HidHost.Bluepad.Remove | components/bluepad32/uni_hid_device.c:442-507 | disconnect and delete of a device and whoever is down its line of children, by recursion |
| HidHost.Bluepad.ReadyComplete | components/bluepad32/uni_hid_device.c:230-260 | accepts, or drops the device, as specified |
| HidHost.Bluepad.Finish | components/bluepad32/parser/uni_hid_parser_ds4.c:240-262 | completion followed by the virtual child |
| HidHost.Bluepad.MakeReady | components/bluepad32/uni_hid_device.c:207-228 | tells the parser unless the device is already being set up |
| HidHost.Bluepad.StartQuery | components/bluepad32/bt/uni_bt_sdp.c:219-237 | takes the lock and asks, or drops the device when the lock is taken |
| HidHost.Bluepad.StartHidQuery | components/bluepad32/bt/uni_bt_sdp.c:262-287 | asks for the HID descriptor, or ends the query when it is not needed |
| HidHost.Bluepad.EndQuery | components/bluepad32/bt/uni_bt_sdp.c:239-245 | frees the lock and re-enters the machine |
| HidHost.Bluepad.ProcessFsm | components/bluepad32/bt/uni_bt_bredr.c:193-322 | every branch of the connection machine, terminating by the rank of the connection state |
| HidHost.Bluepad.OnConnectionRequest | components/bluepad32/bt/uni_bt_bredr.c:598-620 | finds or creates the device and marks it incoming |
| HidHost.Bluepad.OnL2capIncoming | components/bluepad32/bt/uni_bt_bredr.c:324-400 | declined, nothing changes; otherwise drops a device that is ready, then registers the control channel |
| HidHost.Bluepad.OnL2capOpened | components/bluepad32/bt/uni_bt_bredr.c:402-470 | failure drops; control and interrupt move the state, interrupt also connects; then the machine runs |
| HidHost.Bluepad.OnInquiry | components/bluepad32/bt/uni_bt_bredr.c:534-596 | ignores a ready device, continues a known one, creates an unknown one |
| HidHost.Bluepad.OnRemoteName | components/bluepad32/bt/uni_bt_bredr.c:720-755 | stores the name; moves only a device that is not being set up or ready |
| HidHost.Bluepad.OnVendorAnswer | components/bluepad32/bt/uni_bt_sdp.c:186-191 | guesses the type and re-enters the machine for the slot that holds the lock; ignored without a lock |
| HidHost.Bluepad.OnHidAnswer | components/bluepad32/bt/uni_bt_sdp.c:134-136 | ends the query of the slot that holds the lock |
| HidHost.Bluepad.OnNameTimeout | components/bluepad32/bt/uni_bt_bredr.c:55-62 | a device that does not answer gets a plain name, and the machine goes on |
| HidHost.Bluepad.OnSdpTimeout | components/bluepad32/bt/uni_bt_sdp.c:200-215 | frees the lock and changes nothing else |
| HidHost.Bluepad.OnConnectionTimeout | components/bluepad32/uni_hid_device.c:968-981 | drops a device that is not ready in time |
| HidHost.Bluepad.OnAdvertised | components/bluepad32/bt/uni_bt_le.c:765-824 | creates an unknown BLE device, named and discovered |
| HidHost.Bluepad.OnHidServiceConnected | components/bluepad32/bt/uni_bt_le.c:296-298 | guess, connect, set up, in that order |
| HidHost.Bluepad.Dispatch | components/bluepad32/bt/uni_bt_bredr.c:324-755 | every event, handled in place by its method, does what the specification says |
| HidHost.Bluepad.OnEvent | components/bluepad32/bt/uni_bt_bredr.c:324-755 | and keeps the invariant of BredrSafety in the object itself: a settled table is settled after every plausible event |
| BredrSafety.ProcessSettles | components/bluepad32/bt/uni_bt_bredr.c:193-322 | the machine takes a device on the move to a state it may rest in, or sets it up, or drops it; nobody else is disturbed |
| BredrSafety.ProcessRests | components/bluepad32/bt/uni_bt_bredr.c:193-322 | called again on a device at rest, the machine changes nothing |
| BredrSafety.SdpStartSettles | components/bluepad32/bt/uni_bt_sdp.c:219-237 | a query starts, or the device is dropped because another runs; nobody is told to set up |
| BredrSafety.SdpEndSettles | components/bluepad32/bt/uni_bt_sdp.c:239-245 | the end of a query that its own device asked for leads to a state the device may rest in, or sets it up properly |
| BredrSafety.SetReadySettles | components/bluepad32/uni_hid_device.c:207-228 | a device that is up and not yet told is told exactly once, and the whole table stays settled |
| BredrSafety.StepSettles | components/bluepad32/bt/uni_bt_bredr.c:324-755 | every plausible event keeps the invariant: table, stages, distinct addresses, and the history of setups |
| BredrSafety.SetUpOnceAndOnlyWhenUp | components/bluepad32/bt/uni_bt_bredr.c:456-469 | over every plausible run: whoever was told to set up was connected over its own interrupt channel (or as a BLE device) and had not been told before in that life; set up once iff pending or ready; ready only with a seat |
| BredrSafety.NobodyIsRefused | components/bluepad32/uni_hid_device.c:230-260 | a deferred parser that finishes leaves its device ready and seated |
| BredrSafety.DroppedIsUnknown | components/bluepad32/bt/uni_bt_bredr.c:360-371 | after the drop of a ready device no device has its address |
| BredrTold.ProcessTells | components/bluepad32/bt/uni_bt_bredr.c:193-322 | called on any record in any table, the machine tells it to set up iff its state, direction, name and query say so, with the history it has, and tells nobody else |
| BredrTold.EventTells | components/bluepad32/bt/uni_bt_bredr.c:324-755 | any event in any table tells exactly whom a look at the record it concerns says, nobody or one |
| BredrTold.StepIsRight | components/bluepad32/bt/uni_bt_bredr.c:324-755 | after any event in any table, everybody ever told was up and not told before iff that was so and whom the event tells is connected, up, without a seat and not told before |
| BredrTold.RunIsRight | components/bluepad32/bt/uni_bt_bredr.c:456-469 | over any run whatever, from any table, plausible or not: everybody ever told was up and not told before iff every single event met that condition |
| BredrTold.PlausibleIsHarmless | components/bluepad32/bt/uni_bt_bredr.c:324-755 | in a settled table every plausible event meets it |
| BredrStale.AnswerTells | components/bluepad32/bt/uni_bt_sdp.c:219-287 | in any table, for the vendor answer as for the HID answer: the slot with the lock is told iff it is incoming or did not ask before connecting, and the vendor answer leaves no descriptor to ask for; it is told with the history it has, and nobody else is told |
| BredrStale.TellsTooSoon | components/bluepad32/bt/uni_bt_sdp.c:239-245 | in any table, either answer tells a device whose transport never came up iff that condition holds and the slot with the lock never came up |
| BredrStale.TellsTwice | components/bluepad32/bt/uni_bt_sdp.c:239-245 | in any table, either answer tells a device that was told before iff that condition holds and the slot with the lock was told before |
| BredrStale.AnswerIsRight | components/bluepad32/bt/uni_bt_sdp.c:186-191 | the history of setups stays right iff the answer tells nobody, or somebody connected, up, without a seat and not told before |
| BredrStale.WhoAskedIsToldRight | components/bluepad32/bt/uni_bt_sdp.c:134-136 | a device still waiting for its answer always meets that |
| BredrStale.AnswerDrops | components/bluepad32/uni_hid_device.c:230-260 | a device that an answer tells is dropped, at once or when its parser is done, iff it is not connected without a seat: a late answer drops a ready device |
| BredrStale.DropKeepsLock | components/bluepad32/uni_hid_device.c:488-507 | deleting a device leaves the SDP lock on its slot |
| BredrStale.StaleAnswerReadiesAStranger | components/bluepad32/bt/uni_bt_sdp.c:186-191 | a run from power-on: a device is dropped during its query, another takes the slot, the late answer tells the newcomer to set up though it never connected |
| BredrStale.StaleAnswerTellsTwice | components/bluepad32/bt/uni_bt_sdp.c:186-191 | a run from power-on, for either answer: the newcomer connects, is told as it should be, and the late answer tells it again |
| BredrStale.StaleAnswerDropsAReadyDevice | components/bluepad32/uni_hid_device.c:244-252 | a run from power-on, for either answer: the newcomer is ready and seated, and the late answer drops it |
| BredrNames.NameTells | components/bluepad32/bt/uni_bt_bredr.c:733-751 | in any table, a name tells the device at its address iff that is neither being set up nor ready, is incoming, and the name is known to the parsers, or other than the one that asks first and no query is needed; it is told with the history it has |
| BredrNames.NameTellsTooSoon | components/bluepad32/bt/uni_bt_bredr.c:733-751 | in any table, a name tells a device whose transport never came up iff that condition holds and it never came up |
| BredrNames.NameDrops | components/bluepad32/bt/uni_bt_bredr.c:737-751 | in any table, a name that tells nobody drops the device iff it makes it ask while a query, be it its own, is in progress; the lock stays on the slot |
| BredrNames.LateNameTellsTwice | components/bluepad32/bt/uni_bt_bredr.c:55-62 | a run from power-on: the name timer fires, the query starts, the name comes and tells the device, and the answer to its query, in time, tells it again |
| BredrNames.LateNameDrops | components/bluepad32/bt/uni_bt_bredr.c:737-751 | the same run with a plain name: the device is dropped in its own query, with the lock left on the slot |
| BredrNames.CrossedRequestReadiesTooSoon | components/bluepad32/bt/uni_bt_bredr.c:598-620 | a run from power-on: a device found by inquiry connects by itself, counts as incoming, and the name, in time, tells it before its transport is up |
| BredrNames.LateNameReadiesTooSoon | components/bluepad32/bt/uni_bt_bredr.c:737-751 | a run from power-on: a device goes before its name comes and comes back, and the name tells it before its transport is up |
| BredrEffects.AnswerDoes | components/bluepad32/bt/uni_bt_bredr.c:193-322 | every answer a device waits for, as a table: by direction, name and query the device moves on to a definite record, or asks for its ids with the lock or is dropped because another has it, or is told and then pending or ready with the first free seat |
| BredrEffects.ReadyReopens | components/bluepad32/bt/uni_bt_bredr.c:360-371 | a ready device that opens a channel anew is dropped and its seat is free; with the control channel it starts over from a cleared, incoming record, with another it is unknown |
| BredrEffects.OthersComeIn | components/bluepad32/bt/uni_bt_bredr.c:373-400 | any other device changes in its incoming flag alone, and only for the control channel; a stranger takes the first free slot |
| BredrEffects.ConnectionRequestDoes | components/bluepad32/bt/uni_bt_bredr.c:598-620 | a known device changes in its incoming flag alone; a stranger takes the first free slot, if there is one |
| BredrEffects.FailedChannelDoes | components/bluepad32/bt/uni_bt_bredr.c:402-415 | the device is gone with its seat, and unknown after |
| BredrEffects.GoneDoes | components/bluepad32/uni_hid_device.c:968-981 | a device that goes, or is not ready in time, is gone with its seat; one that is ready outlives the timer |
| BredrEffects.DropIsGone | components/bluepad32/uni_hid_device.c:442-507 | whoever is dropped leaves a cleared record and a free seat, and nobody else has that seat |
| BredrEffects.InquiryDoes | components/bluepad32/bt/uni_bt_bredr.c:534-596 | a known device, or a full table, stays as it is; a stranger takes the first free slot and is asked for its name, or goes on from the name it came with |
| BredrEffects.NameTimeoutDoes | components/bluepad32/bt/uni_bt_bredr.c:55-62 | a name that does not come in time counts as a plain one |
| BredrEffects.NotedDo | components/bluepad32/bt/uni_bt_bredr.c:737-751 | a name for a device that is being set up, or ready, is noted and changes nothing else |
| BredrEffects.SetupDoneDoes | components/bluepad32/uni_hid_device.c:230-260 | a parser that is done makes its device ready with the first free seat; a child comes iff the parser brings one, virtual devices are enabled and a slot is free |
| BredrEffects.SwitchesDo | components/bluepad32/bt/uni_bt_sdp.c:200-215 | the timeout frees the lock, the switch is set, and nothing else changes |
| BredrEffects.BleAdvertisedDoes | components/bluepad32/bt/uni_bt_le.c:765-824 | an unknown BLE device takes the first free slot, named and discovered |
| BredrEffects.BleConnectedDoes | components/bluepad32/bt/uni_bt_le.c:296-298 | a BLE device whose service is connected is up, and told |
| BredrProgress.EveryAnswerAdvances | components/bluepad32/bt/uni_bt_bredr.c:193-322 | every event a device waits for leaves it with fewer events to go, unless it then needs a query while another runs and is dropped |
| BredrProgress.NothingLeftMeansTold | components/bluepad32/bt/uni_bt_bredr.c:193-322 | a BR/EDR device at rest has nothing left to wait for iff it was told to set up |
| BredrProgress.InterruptAdvances | components/bluepad32/bt/uni_bt_bredr.c:300-320 | an interrupt channel that opened leads an incoming device to its name, an outgoing one to its query or its setup |
| BredrProgress.NamedAdvances | components/bluepad32/bt/uni_bt_bredr.c:244-274 | a name that arrived leads to the query, the control channel or the setup, as direction and name demand |
| BredrFrame.OthersAreLeftAlone | components/bluepad32/bt/uni_bt_bredr.c:324-755 | an event that is not about a device leaves its record as it was, if it is nobody's child, and nobody's child it stays: no lookup, creation, drop or virtual child of another touches it |
| BredrProgress.EveryRunAdvances | components/bluepad32/bt/uni_bt_bredr.c:193-322 | over any run in which a device that is nobody's child gets the answers it waits for, mixed with any events of others: as long as it is not turned away, each answer brings it at least one step on |
| BredrProgress.ItGetsThere | components/bluepad32/bt/uni_bt_bredr.c:193-322 | over such a run it waits for no more answers than it had to go, at most seven, and if it got them all it was told to set up, once |
| Mailbox.ActKeeps | components/bluepad32_arduino/arduino_platform.c:234-321 | each atomic step of either CPU keeps the invariant |
| Mailbox.EdgesKeep | components/bluepad32_arduino/ArduinoBluepad32.cpp:48-66 | the callbacks of the first n seats leave those seats following the new bits, alternate, and touch the shown state only when the chosen pad disconnects |
| Mailbox.PollsAreRight | components/bluepad32_arduino/arduino_platform.c:303-321 | over every interleaving a poll yields a report exactly when one was published since the last one taken or the last reset, and the newest one; it finds a seat taken exactly while it is, and looks at every seat and asks those it found taken |
| Mailbox.StepIsLogged | components/bluepad32_arduino/arduino_platform.c:168-321 | each step of either CPU does, and records, just what it stands for, and a poll goes through the seats one after the other |
| Mailbox.ApplicationReads | main/gamepad_input.cpp:25-50 | at any time the application listens to the first controller that connected while it had none, until that one goes, and shows it exactly if the last report taken from it is a gamepad's and was taken since it connected; and then that report |
| Mailbox.LosingTheChosen | main/gamepad_input.cpp:17-23 | when the chosen controller goes, the application is left without one iff none above it connects in the same poll |
| Mailbox.ConnectedButUnheard | main/gamepad_input.cpp:10-23 | a run of two polls: two controllers connect, the chosen one goes, and the other is connected with nobody listening |
| Mailbox.FreshReportIsShown | main/gamepad_input.cpp:38-50 | a gamepad's report taken in this poll from the chosen controller is shown at its end; without one, what is shown stays as it was |
| Mailbox.CallbacksOfPoll | components/bluepad32_arduino/ArduinoBluepad32.cpp:41-68 | a poll runs one callback for each seat that changed, of the right kind, in the order of the seats, and no others |
| Mailbox.CallbacksAlternate | components/bluepad32_arduino/ArduinoBluepad32.cpp:41-68 | callbacks alternate per seat, connect first; a pad is connected exactly between the two |
| Mailbox.AfterEachPoll | main/gamepad_input.cpp:10-41 | after each poll a pad is connected iff its seat was seen taken; sController is null or connected; what is shown as connected is the last report taken from it, and a gamepad's |
| Mailbox.Gamepads.OnControllerData | components/bluepad32_arduino/arduino_platform.c:234-249 | stores the report and its mark for a seat in range, and nothing otherwise |
| Mailbox.Gamepads.Release | components/bluepad32_arduino/arduino_platform.c:180-187 | zeroes the record, then marks it free |
| Mailbox.Gamepads.GetControllerData | components/bluepad32_arduino/arduino_platform.c:303-321 | for any index: the three results, what is copied, and that the mark is taken back; nothing for an index out of range |
| Mailbox.Gamepads.OnConnected | main/gamepad_input.cpp:10-15 | adopts the controller only while there is none |
| Mailbox.Gamepads.OnDisconnected | main/gamepad_input.cpp:17-23 | lets go of the adopted controller and blanks the state |
| Mailbox.Gamepads.CompareBits | components/bluepad32_arduino/ArduinoBluepad32.cpp:41-68 | the loop over the bits runs the callbacks seat by seat, none when nothing changed |
| Mailbox.Gamepads.ShowChosen | main/gamepad_input.cpp:38-72 | what the application state becomes |
| Mailbox.Gamepads.Update | components/bluepad32_arduino/ArduinoBluepad32.cpp:19-71 | an undisturbed poll is the sequence of its atomic steps, and returns true iff a report was taken |
| ReportQueue.Conservation | components/bluepad32/uni_hid_device.c:797-863 | over any run: submitted equals transmitted plus queued plus refused, as multisets |
| ReportQueue.StepKeeps | components/bluepad32/uni_hid_device.c:797-863 | one event adds exactly what was submitted with it |
| ReportQueue.HandedIn | components/bluepad32/uni_hid_device.c:797-823 | a report handed in is dropped without channel or bytes, transmitted if L2CAP takes it, otherwise queued last iff fewer than 31 wait and it is shorter than 128 bytes, and refused if not |
| ReportQueue.FailedReportsGoOut | components/bluepad32/uni_hid_device.c:797-863 | up to 31 reports that fail go out once the channel is free, each once, in the order they were handed in |
| ReportQueue.RetryRotates | components/bluepad32/uni_hid_device.c:844-863 | a failed resend moves the oldest report to the end and is never refused; a successful one removes it from the front |
| ReportQueue.FailuresRotate | components/bluepad32/uni_hid_device.c:844-863 | k failures rotate the queue k places |
| ReportQueue.SuccessesDrain | components/bluepad32/uni_hid_device.c:844-863 | k successes transmit the k oldest, oldest first |
| ReportQueue.CircularBuffer.EmptyAndFull | components/bluepad32/uni_circular_buffer.c:42-48 | empty iff no entries, full iff 31 |
| ReportQueue.CircularBuffer.Put | components/bluepad32/uni_circular_buffer.c:11-26 | appends to the FIFO or refuses with the right error, writing only the tail slot |
| ReportQueue.CircularBuffer.Get | components/bluepad32/uni_circular_buffer.c:28-40 | removes the oldest entry, leaving its bytes in place |
| ReportQueue.CircularBuffer.Reset | components/bluepad32/uni_circular_buffer.c:50-52 | empties the ring |
| ReportQueue.Sender.SendReport | components/bluepad32/uni_hid_device.c:797-823 | refines the FIFO step; writes no slot but the tail |
| ReportQueue.Sender.SendQueuedReports | components/bluepad32/uni_hid_device.c:844-863 | refines the FIFO step; the slot being copied from is not written |
| Crc32.Crc32Le | components/bluepad32/uni_utils.c:9-22 | the two nested loops over a 32-bit word compute the polynomial CRC of seed and message |
| Crc32.CrcIsRemainder | components/bluepad32/uni_utils.c:9-22 | for messages of any length it is the remainder of long division by the CRC-32 generator, with the seed folded into the first 32 bits |
| Crc32.DivisionIsExact | components/bluepad32/uni_utils.c:9-22 | a dividend is its quotient times the generator plus its remainder |
| Crc32.DivisionIsUnique | components/bluepad32/uni_utils.c:9-22 | and only in that way: a multiple of the generator plus 32 coefficients fixes both |
| Crc32.CrcIsTheRemainder | components/bluepad32/uni_utils.c:9-22 | c is the CRC and q the quotient iff q times the generator plus c is the message times x^32 with the seed added in front |
| Crc32.CrcLinear | components/bluepad32/uni_utils.c:9-22 | linear over XOR of seeds and of equally long messages |
| Crc32.WordsLinear | components/bluepad32/uni_utils.c:9-22 | and so are the 32-bit words the loops compute |
| Crc32.BitStepInjective | components/bluepad32/uni_utils.c:14-18 | one bit step loses nothing |
| Crc32.CrcInjectiveInSeed | components/bluepad32/uni_utils.c:9-22 | over any message, different seeds give different CRCs |
| Crc32.CrcAppend | components/bluepad32/uni_utils.c:9-22 | a message may be fed in parts |
| Crc32.BurstDetected | components/bluepad32/uni_utils.c:9-22 | messages that agree but for a window of at most four bytes have the same CRC iff the windows are equal |
| Crc32.WordsDetectBurst | components/bluepad32/uni_utils.c:9-22 | and the words differ exactly when the windows do |
| NeoPixel.RescaleBound | components/Adafruit_NeoPixel/Adafruit_NeoPixel.cpp:3683-3694 | a byte at most the old level rescales to at most the new one, so the 16-bit product never overflows a byte |
| NeoPixel.SetLevelKeeps | components/Adafruit_NeoPixel/Adafruit_NeoPixel.cpp:3663-3697 | the lossy rescale keeps every byte within the new level; setting the level already set changes nothing |
| NeoPixel.SetColourKeeps | components/Adafruit_NeoPixel/Adafruit_NeoPixel.cpp:3385-3445 | a pixel written at the current level stays within it |
| NeoPixel.FillRangeKeeps | components/Adafruit_NeoPixel/Adafruit_NeoPixel.cpp:3479-3500 | so does a filled range |
| NeoPixel.ScaleLoss | components/Adafruit_NeoPixel/Adafruit_NeoPixel.cpp:3392-3396 | reading back at stored brightness k > 0 gives g <= c with k*(c-g) <= 254+k |
| NeoPixel.PackFits | components/Adafruit_NeoPixel/Adafruit_NeoPixel.cpp:3644-3645 | fields below 256 are packed side by side into 32 bits and taken apart again |
| NeoPixel.FieldsNeverOverlap | components/Adafruit_NeoPixel/Adafruit_NeoPixel.cpp:3612-3646 | for any pixel of any buffer within its level, written or rescaled: the four fields are below 256, so the packed colour is their sum and is taken apart into just them |
| NeoPixel.ReadBack | components/Adafruit_NeoPixel/Adafruit_NeoPixel.cpp:3612-3646 | a pixel written and read back: each channel within that loss, exact at full brightness |
| NeoPixel.OthersKept | components/Adafruit_NeoPixel/Adafruit_NeoPixel.cpp:3385-3466 | writing one pixel changes no other |
| PixelEffects.RescaleKeepsShare | components/Adafruit_NeoPixel/Adafruit_NeoPixel.cpp:3683-3694 | a byte at the old level lands exactly on the new one, dark stays dark, and every byte keeps its share of the level, less than two steps short |
| PixelEffects.RescaleKeepsOrder | components/Adafruit_NeoPixel/Adafruit_NeoPixel.cpp:3683-3694 | a brighter byte stays at least as bright |
| PixelEffects.FillShows | components/Adafruit_NeoPixel/Adafruit_NeoPixel.cpp:3479-3500 | the pixels from first up to the end read back as the colour, within the loss of the level, and all others as before; where the 16-bit end wraps, none is written |
| PixelEffects.ClearShows | components/Adafruit_NeoPixel/Adafruit_NeoPixel.cpp:3708 | every pixel reads 0 and the brightness stays |
| PixelEffects.ResizeShows | components/Adafruit_NeoPixel/Adafruit_NeoPixel.cpp:177-205 | so many dark pixels at the brightness there was, or none |
| NeoPixel.Adafruit_NeoPixel.constructor | components/Adafruit_NeoPixel/Adafruit_NeoPixel.cpp:85-96 | a dark strip at full brightness, of no pixels if the allocator refuses |
| NeoPixel.Adafruit_NeoPixel.UpdateLength | components/Adafruit_NeoPixel/Adafruit_NeoPixel.cpp:177-205 | a new dark buffer, or none when the allocator refuses |
| NeoPixel.Adafruit_NeoPixel.SetPixelColorRGB | components/Adafruit_NeoPixel/Adafruit_NeoPixel.cpp:3385-3406 | scales and stores the channels in wire order |
| NeoPixel.Adafruit_NeoPixel.SetPixelColorRGBW | components/Adafruit_NeoPixel/Adafruit_NeoPixel.cpp:3417-3437 | the same with white |
| NeoPixel.Adafruit_NeoPixel.SetPixelColor | components/Adafruit_NeoPixel/Adafruit_NeoPixel.cpp:3447-3466 | the same from a packed colour |
| NeoPixel.Adafruit_NeoPixel.Fill | components/Adafruit_NeoPixel/Adafruit_NeoPixel.cpp:3479-3500 | fills the range, with its end computed in 16 bits |
| NeoPixel.Adafruit_NeoPixel.SetBrightness | components/Adafruit_NeoPixel/Adafruit_NeoPixel.cpp:3663-3697 | rescales the buffer in place and stores level + 1 modulo 256 |
| NeoPixel.Adafruit_NeoPixel.Clear | components/Adafruit_NeoPixel/Adafruit_NeoPixel.cpp:3708 | zeroes the buffer, keeps the brightness |
| NeoPixel.Adafruit_NeoPixel.GetPixelColor | components/Adafruit_NeoPixel/Adafruit_NeoPixel.cpp:3612-3646 | the packed colour of a pixel, a 32-bit word, 0 past the end |
| LedController.StripsShowTheProduct | main/led_controller.cpp:18-23 | after any run of calls from power-on: each strip's brightness is global*dim*blink/65025, no byte exceeds it, and the next rescale overflows no byte |
| LedController.EveryPixelReadsBack | components/Adafruit_NeoPixel/Adafruit_NeoPixel.cpp:3612-3646 | after any run of calls from power-on, however often a strip was rescaled: the fields of every pixel are below 256 and the packed colour is taken apart into just them |
| LedController.DoKeeps | main/led_controller.cpp:49-177 | every call keeps that, setBlinkLevel's early return included |
| LedEffects.WritesWhatItSays | main/led_controller.cpp:63-145 | after a writing call every pixel it addresses, by strip, by strip and pixel, or by global index, reads back as its colour within the loss of the level, and every other pixel of any strip as before |
| LedEffects.DimmingKeepsShare | main/led_controller.cpp:147-177 | after a brightness, dim or blink call the multipliers are the new ones, a byte at the old product is at the new one, and every byte keeps its share |
| LedEffects.BeginShows | main/led_controller.cpp:49-61 | the first four strips, of their lengths, dark and undimmed |
| LedController.ResolveIsPosition | main/led_controller.cpp:27-39 | a global index resolves iff it is below the total, to the strip and pixel at that position |
| LedController.Controller.Begin | main/led_controller.cpp:49-61 | up to four strips, each dark, undimmed and at its level; one whose buffer is refused has no pixels |
| LedController.Controller.ApplyStripBrightness | main/led_controller.cpp:18-23 | brings one strip to the product |
| LedController.Controller.SetPixel | main/led_controller.cpp:63-67 | writes one pixel of one strip, ignoring strips that are not there |
| LedController.Controller.Fill | main/led_controller.cpp:69-77 | writes every pixel of one strip |
| LedController.Controller.FillHSV | main/led_controller.cpp:79-88 | the same from a packed colour |
| LedController.Controller.Clear | main/led_controller.cpp:90-94 | darkens one strip |
| LedController.Controller.ResolveGlobalIndex | main/led_controller.cpp:27-39 | the loop finds what the specification says |
| LedController.Controller.SetPixelGlobal | main/led_controller.cpp:130-136 | writes the pixel at a global index, if there is one |
| LedController.Controller.SetPixelGlobalHSV | main/led_controller.cpp:138-145 | the same from a packed colour |
| LedController.Controller.SetBrightness | main/led_controller.cpp:147-156 | stores the level and rescales every strip |
| LedController.Controller.SetStripDim | main/led_controller.cpp:162-167 | stores the dim of a strip, present or not, and rescales it |
| LedController.Controller.SetBlinkLevel | main/led_controller.cpp:169-177 | returns early on an unchanged level, otherwise rescales every strip |
| EyeMotion.RunWraps | main/eye_motion.cpp:123-137 | the machine on the wrapping 32-bit clock is, step for step, the one on an unbounded clock, while the deadlines an update reads are within 2^31 ms and the blink start and last play command it reads under 2^32 ms old |
| EyeMotion.OldDeadline | main/eye_motion.cpp:123-125 | a deadline passed less than a clock turn ago reads as passed iff it is under 2^31 ms old |
| EyeMotion.StepWraps | main/eye_motion.cpp:179-319 | one step of that simulation |
| EyeMotion.BlinkSpacing | main/eye_motion.cpp:135-212 | a blink starts at least 4500 ms after the last one ended and after speech last owned the eyes, whatever happens between |
| EyeMotion.BlinkIsShort | main/eye_motion.cpp:179-212 | after an idle update level 0 means a blink begun at most 120 ms before, and the first one not owned by speech 210 ms in restores the rest level |
| EyeMotion.DarkPastTheBlink | main/eye_motion.cpp:274-319 | after any update the eyes are dark more than 120 ms into a blink iff they were dark before, more than 120 ms into it, and a controller is connected with its stick at rest before idle resumes |
| EyeMotion.DarkFor499Ms | main/eye_motion.cpp:285-312 | a run from power-on that does it: a controller reconnects and the eyes are dark 499 ms after the blink began |
| EyeMotion.NeverDarkFor500Ms | main/eye_motion.cpp:135-319 | and no run from power-on does worse: after every update, eyes that are dark belong to a blink begun less than 500 ms before |
| EyeMotion.ParkedIsLit | main/eye_motion.cpp:254-272 | over any run: while idle is disabled no blink is in flight and the level is not 0 |
| EyeMotion.EasedBetween | main/eye_motion.cpp:309-319 | easing never overshoots and leaves exactly 1 - ease of the distance |
| EyeMotion.RunInTravel | main/eye_motion.cpp:274-319 | with stick axes in range, angles and targets stay within 0..180 over any run |
| EyeMotion.IdleTargetRange | main/eye_motion.cpp:139-150 | idle targets stay within their narrower range |
| EyeMotion.HeldTargetReached | main/eye_motion.cpp:309-319 | a target held for k updates is at most 180*0.78^k away |
| EyeMotion.PulseInRange | main/servo_controller.cpp:40-51 | any angle with any trim gives a pulse inside the channel's range, and the ends of travel give its ends |
| EyeEffects.StickPoints | main/eye_motion.cpp:285-317 | while the stick has the eyes, the targets stand where the axes do, in whole degrees, pan by one axis, tilt against the other, and the eyes go 35% of the way |
| EyeEffects.StickReachesEnds | main/eye_motion.cpp:302-305 | the ends of the axes are the ends of the travel: full right 180, full up 0 |
| EyeEffects.AxesAreApart | main/eye_motion.cpp:302-305 | pan does not depend on the vertical axis, nor tilt on the horizontal one |
| EyeEffects.StickSuspends | main/eye_motion.cpp:216-283 | a stick off its centre ends a blink at the rest level and puts off wandering, saccade and blink; at its centre it leaves them alone |
| EyeEffects.EyesWander | main/eye_motion.cpp:139-150 | otherwise the eyes go 22% of the way, and the target hops, 18% back to the centre and within 40 to 140 degrees, exactly when a saccade is due and wandering is enabled |
| EyeEffects.SpeechLights | main/eye_motion.cpp:161-192 | while a clip sounds the level is 255, and 70 in the 450 ms after a play command; a blink is ended and the next put off |
| EyeEffects.BlinkStarts | main/eye_motion.cpp:205-211 | a blink starts exactly when it is due; before that the level is at rest |
| EyeEffects.BlinkRuns | main/eye_motion.cpp:194-204 | over any number of updates of a blink, the level is what the time since its start says: 0 for 120 ms, rising over 90 ms, then at rest |
| EyeEffects.SwitchParks | main/eye_motion.cpp:254-272 | disabling lights the eyes and ends a blink, enabling puts off saccade and blink, and neither does anything twice |
| EyeEffects.ParkedEyesRest | main/eye_motion.cpp:289-300 | with wandering disabled an update leaves lights and timers alone |
| EyeEffects.PulseIsOnLine | main/servo_controller.cpp:40-51 | the pulse is the point of the range at the share of the travel, less than a microsecond short |
| EyeEffects.PulseGrows | main/servo_controller.cpp:40-51 | a larger angle never gives a shorter pulse |
| EyeMotion.Eyes.constructor | main/eye_motion.cpp:227-236 | centred, idle, with the first saccade and blink scheduled |
| EyeMotion.Eyes.PickIdleTarget | main/eye_motion.cpp:139-150 | hops and clamps both targets and schedules the next hop |
| EyeMotion.Eyes.SpeechLevel | main/eye_motion.cpp:161-174 | when speech owns the eyes, and the level it sets |
| EyeMotion.Eyes.UpdateEyeLevel | main/eye_motion.cpp:179-212 | speech, a blink in flight, a blink due, or rest |
| EyeMotion.Eyes.SuspendIdle | main/eye_motion.cpp:216-223 | ends a blink in flight and postpones idle |
| EyeMotion.Eyes.SetIdleEnabled | main/eye_motion.cpp:254-272 | parks or resumes idle |
| EyeMotion.Eyes.NotePlay | main/audio_player.cpp:169-176 | stamps the last play command |
| EyeMotion.Eyes.Update | main/eye_motion.cpp:274-319 | one update in full |
| AdminButton.RadioIsShared | main/sketch.cpp:328-375 | over every run, whether or not the access point comes up: OTA runs iff the web UI runs iff the last scan command was "stop", at every pass; and between any two actions OTA implies access point implies scan stopped |
| AdminButton.ToggleKeeps | main/sketch.cpp:338-362 | one toggle keeps that order, and starts the web UI iff it was down and the access point comes up |
| AdminButton.OneHoldOneToggle | main/sketch.cpp:328-375 | a hold acts on the radio once, at the first pass a second or more after the press was noticed, and not at all without one: the access point and its service go down if they were up, come up if it comes up, and otherwise scanning goes on; a press at clock 0 is not noticed |
| AdminButton.HoldSwaps | main/sketch.cpp:337-367 | what a hold leaves switched on: scan for access point with service, or back |
| AdminButton.EveryHoldActs | main/sketch.cpp:328-375 | every run of the loop is a sequence of holds, and the radio sees exactly what they ask for, in order, and nothing else |
| AdminButton.Sketch.BeginOta | main/ota_service.cpp:17-57 | starts once |
| AdminButton.Sketch.StopOta | main/ota_service.cpp:59-66 | stops only what runs |
| AdminButton.Sketch.StartWeb | main/web_ui.cpp:279-297 | runs only if the access point came up |
| AdminButton.Sketch.StopWeb | main/web_ui.cpp:299-308 | stops only what runs |
| AdminButton.Sketch.CheckAdminButton | main/sketch.cpp:328-375 | one pass of the loop |
| Scanning.CommandsAreObeyed | components/bluepad32/bt/uni_bt.c:226-276 | with at most eight commands waiting they run in the order issued; inquiry follows the last scan command run; BLE scanning is on only if that was "start", through any connects and disconnects |
| Scanning.NextIsOldest | components/bluepad32/bt/uni_bt.c:226-229 | the next command to run is the oldest one iff fewer than eight were waiting when the newest came, or it is the same command |
| Scanning.NinthOverwrites | components/bluepad32/bt/uni_bt.c:226-229 | with a ninth command the newest runs in place of the oldest, and still eight callbacks are to run: the oldest command is lost |
| Scanning.NinthRunsFirst | components/bluepad32/bt/uni_bt.c:226-276 | from power-on, any eight commands wait, in order; with any ninth the first to run is the ninth |
| Scanning.IssueKeepsQueue | components/bluepad32/bt/uni_bt.c:226-229 | using the next registration keeps the others in order while fewer than eight wait |
| Scanning.CommandRuns | components/bluepad32/bt/uni_bt.c:134-145 | a start that changes something turns inquiry on, and BLE scanning where it is enabled; a stop turns both off; nothing else touches them |
| Scanning.LeFollowsTheLastCommand | components/bluepad32/bt/uni_bt_le.c:87-102 | except while a BLE connection is being made, BLE scanning is on exactly if enabled and the last scan command run was "start", over any run |
| Scanning.ResumeRestores | components/bluepad32/bt/uni_bt_le.c:87-102 | connecting pauses BLE scanning; its end restores exactly what the last command asked for |
| Scanning.NoScanBesideAccessPoint | main/sketch.cpp:328-375 | from button to radio: when all commands have run, nothing scans while the access point is up, and both kinds of scanning are on while it is down, but for a BLE connection in the making |
| Scanning.Bluetooth.Hand | components/bluepad32/bt/uni_bt.c:264-276 | writes the next registration and hands it over; the list takes it once only |
| Scanning.Bluetooth.EnableScanning | components/bluepad32/bt/uni_bt.c:134-145 | acts only on a change |
| Scanning.Bluetooth.RunNext | components/bluepad32/bt/uni_bt.c:184-225 | runs the command the oldest registration now holds |
| Scanning.Bluetooth.StartLe | components/bluepad32/bt/uni_bt_le.c:929-936 | nothing while BLE is off |
| Scanning.Bluetooth.StopLe | components/bluepad32/bt/uni_bt_le.c:938-945 | nothing while BLE is off |
| Scanning.Bluetooth.ConnectLe | components/bluepad32/bt/uni_bt_le.c:87-94 | pauses the scan, keeps the wish |
| Scanning.Bluetooth.Resume | components/bluepad32/bt/uni_bt_le.c:96-102 | resumes only what was wished for |
| Allowlist.PrintThenLoad | components/bluepad32/bt/uni_bt_allowlist.c:20-69 | a printed list loads as the same non-zero addresses in order, packed to the front, and the stored text is unchanged |
| Allowlist.TextParses | components/bluepad32/bt/uni_bt_allowlist.c:60-67 | the text of an address parses back to it wherever it stands |
| Allowlist.AddressIffSpelt | components/btstack/src/btstack_util.c:413-439 | a text parses to an address exactly if it spells its six numbers out: two digits each, in either case, with a colon, a dash, a blank or nothing between |
| Allowlist.LeadingStops | components/bluepad32/bt/uni_bt_allowlist.c:59-68 | loading takes all texts before the first that is not an address, and none after |
| Allowlist.ParsesBack | components/bluepad32/bt/uni_bt_allowlist.c:59-68 | the 18-byte stride meets every address of a printed list and ends with it |
| Allowlist.NeverTwice | components/bluepad32/bt/uni_bt_allowlist.c:91-123 | no reachable list has a non-zero address twice, whatever text was stored |
| Allowlist.AddAdds | components/bluepad32/bt/uni_bt_allowlist.c:91-104 | an address is added iff it is new and there is room, in the first free slot; nothing else changes |
| Allowlist.RemoveRemoves | components/bluepad32/bt/uni_bt_allowlist.c:106-115 | an address is removed iff it is there, from the first slot that has it; nothing else changes |
| Allowlist.RemoveAllEmpties | components/bluepad32/bt/uni_bt_allowlist.c:117-123 | every slot is free and the stored text empty |
| Allowlist.RemoveUndoesAdd | components/bluepad32/bt/uni_bt_allowlist.c:91-115 | removing what was just added restores the list |
| Allowlist.StaysSaved | components/bluepad32/bt/uni_bt_allowlist.c:91-123 | the stored text stays the printed list, through changes and reboots |
| Allowlist.RebootKeepsAddresses | components/bluepad32/bt/uni_bt_allowlist.c:154-168 | a reboot keeps exactly the addresses, in order |
| Allowlist.WhileLoading | components/bluepad32/bt/uni_bt_allowlist.c:59-68 | while loading, the property holds only the addresses read so far |
| Allowlist.Fits | components/bluepad32/bt/uni_bt_allowlist.c:26-40 | the text and its terminator fit the 128-byte buffer iff at most seven addresses are listed, and then also the 127 bytes the property is read with |
| Allowlist.AllowList.constructor | components/bluepad32/bt/uni_bt_allowlist.c:154-163 | boot |
| Allowlist.AllowList.ToProperty | components/bluepad32/bt/uni_bt_allowlist.c:20-41 | the printing loop |
| Allowlist.AllowList.FromProperty | components/bluepad32/bt/uni_bt_allowlist.c:43-69 | the parsing loop, stopping at the first text that is not an address |
| Allowlist.AllowList.AddAddress | components/bluepad32/bt/uni_bt_allowlist.c:91-104 | the first free slot, unless known or full |
| Allowlist.AllowList.RemoveAddress | components/bluepad32/bt/uni_bt_allowlist.c:106-115 | the first match |
| Allowlist.AllowList.Clear | components/bluepad32/bt/uni_bt_allowlist.c:117-123 | every slot zero, stored |
| SoftSpi.SlaveReceives | components/Adafruit_BusIO/Adafruit_SPIDevice.cpp:171-268 | the data line carries the current bit at every edge that counts, although unchanged levels are not written, so a shift-register slave receives exactly the bytes: any buffer, bit order and mode |
| SoftSpi.LoopbackReturns | components/Adafruit_BusIO/Adafruit_SPIDevice.cpp:212-215 | a loopback, or no MISO, leaves the buffer unchanged |
| SoftSpi.PeerIsHeardWhole | components/Adafruit_BusIO/Adafruit_SPIDevice.cpp:212-266 | full duplex: a peer that drives a message leaves that message in the buffer |
| SoftSpi.ByteArrives | components/Adafruit_BusIO/Adafruit_SPIDevice.cpp:192-193 | eight clocks in either bit order put the byte into the slave's register, whatever it held |
| SoftSpi.GatherOfBits | components/Adafruit_BusIO/Adafruit_SPIDevice.cpp:212-215 | the bits of a byte, read at the masks they went out with, give the byte |
| SoftSpi.SoftSpi.TransferBit | components/Adafruit_BusIO/Adafruit_SPIDevice.cpp:195-262 | one bit in each mode: line, edge, level read, and the clock left as the next bit needs it |
| SoftSpi.SoftSpi.TransferByte | components/Adafruit_BusIO/Adafruit_SPIDevice.cpp:181-266 | one byte |
| SoftSpi.SoftSpi.Transfer | components/Adafruit_BusIO/Adafruit_SPIDevice.cpp:171-269 | the buffer in place: with MOSI a slave has exactly its bytes, and a loopback, or no MISO, leaves it as it was |
| Quadrature.DecoderRecoversMovement | components/bluepad32/uni_mouse_quadrature.c:81-127 | for any interleaving of updates and ticks: successive outputs differ in exactly one line, and a 4x decoder counts exactly the sum over updates of sign times the smaller of distance and ticks before the next update that moves |
| Quadrature.RunCounts | components/bluepad32/uni_mouse_quadrature.c:81-201 | the same from any state, with what was left of the last update |
| Quadrature.WholePathRecovered | components/bluepad32/uni_mouse_quadrature.c:189-201 | with time enough for every update the decoder recovers the sum of all movements |
| Quadrature.StepDecodes | components/bluepad32/uni_mouse_quadrature.c:89-119 | a step in either direction, wrapping included, changes one line and decodes as that direction |
| Quadrature.QuadratureState.ProcessQuadrature | components/bluepad32/uni_mouse_quadrature.c:81-127 | one tick |
| Quadrature.QuadratureState.ProcessUpdate | components/bluepad32/uni_mouse_quadrature.c:189-201 | replaces distance and direction, keeps the phase; zero changes nothing |

## Left out

- Hardware and library calls (GPIO, UART, I2C, RMT, flash storage, the Bluetooth stack, FreeRTOS, WiFi, HTTP): they are inputs or answers, as listed above.
- The assembly and timing loops that push pixels onto the wire.
- HID parsers: a parser is reduced to whether it defers its setup, needs a HID descriptor and adds a virtual child.
- HidHost.Bluepad.Remove: the recursion over children carries a bound on its depth, for termination; `DepthIsEnough` shows that it is never reached in a table that the invariant describes.
- HidHost.Bluepad.StartQuery: takes the vendor query to be accepted by the stack; its failure path, which drops the device, is not modelled.
- HidHost.Bluepad.StartHidQuery: the same for the descriptor query.
- HidHost.Bluepad.ProcessFsm: the same for the requests for the two channels, whose refusal leaves the state as it was.
- BredrSafety.SetUpOnceAndOnlyWhenUp: over plausible runs, which leave out late SDP answers, late names and devices that turn from outgoing to incoming; there the property is false, and `BredrTold.RunIsRight` is the exact condition over all runs.
- BredrSafety.StepSettles: the same restriction for one event.
- BredrProgress.ItGetsThere: for a device that is nobody's child, which every device is that is not virtual as long as no virtual child was dropped by itself (`BredrFrame.RealIsAlone`).
- BredrProgress.EveryRunAdvances: the same.
- The BLE side before its service is connected (advertising data, pairing, device information), and the BLE configuration service, which disconnects without deleting.
- The bytes of SDP attributes and of HID descriptors.
- Names, class of device, vendor and product ids: a name is one of none, plain, "Wireless Controller" or one that the parsers recognise.
- Mailbox.PollsAreRight: the record is zeroed in one step, while the firmware zeroes it without the mutex, so a report torn by a concurrent release is not captured; nor are the cached controller properties.
- The bit mask of connected controllers is a row of booleans.
- NeoPixel.Adafruit_NeoPixel.UpdateLength: requires the byte count to fit 16 bits, as the field that holds it does. The firmware multiplies in 16 bits without a check, so a longer strip gets a buffer too short for its pixels and writes past its end; what memory does then is not modelled.
- NeoPixel.Adafruit_NeoPixel.constructor: the same restriction. A refused allocation is modelled.
- LedController.StripsShowTheProduct: the same restriction on the strips of a `begin`: at most 21845 pixels of three bytes each.
- LedController.DoKeeps: the same.
- LedController.EveryPixelReadsBack: the same.
- LedController.Controller.Begin: the same.
- ColorHSV's arithmetic: HSV writers take the packed colour it returns.
- The acknowledgement flash of the admin button, which writes the blink level directly; the display of strips; patterns, tracks, volume, console, JSON and HTML.
- EyeMotion.HeldTargetReached: over the reals; rounding of 32-bit floats is not modelled.
- EyeMotion.PulseInRange: over the reals, for one channel whose range is given.
- The BR/EDR half of scanning beyond "inquiring or not", and the choice of which devices an inquiry reports.
- SoftSpi.SlaveReceives: delays, the chip-select line and hardware SPI.
- The timer period of the quadrature encoder: ticks come at any time.
- Quadrature.QuadratureState.ProcessUpdate: a delta of -2^31, whose absolute value does not fit 32 bits, is taken as a plain integer.
