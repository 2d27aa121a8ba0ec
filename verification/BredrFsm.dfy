/** The BR/EDR connection machine and the SDP queries it starts.

    Devices connect in two ways. A device that connects to us (incoming) opens its channels first and is
    asked for its name last; a device that an inquiry found is asked for its name first. In between, an
    SDP query may be needed, before or after the channels open, and only one runs at a time. Each way ends
    with the device's parser being told to set it up.

    Requests to the Bluetooth stack are taken to be accepted; their answers come back as events. */
module BredrFsm {
  import opened HidTable
  import opened Prelude

  function SetQuery(h: Host, i: nat, q: SdpQuery): (r: Host)
    requires Sized(h) && i < MAX_DEVICES
    ensures Sized(r)
  {
    With(h, i, h.devices[i].(query := q))
  }

  // A controller type is guessed only for a device that has none.
  function Guess(h: Host, i: nat, parser: Parser): (r: Host)
    requires Sized(h) && i < MAX_DEVICES
    ensures Sized(r)
  {
    if h.devices[i].typed then h else With(h, i, h.devices[i].(typed := true, parser := parser))
  }

  // ---------------------------------------------------------------------------
  // The machine
  // ---------------------------------------------------------------------------

  // A device that needs a query while another is in progress is dropped.
  function SdpStart(h: Host, i: nat): (r: Host)
    requires Sized(h) && i < MAX_DEVICES
    ensures Sized(r)
  {
    if h.sdp.Some? then Drop(h, i) else SetState(h.(sdp := Some(i)), i, VendorRequested)
  }

  // Only "vendor fetched" leads back into the machine through a query that is not needed.
  function Rank(s: ConnState): nat { if s == VendorFetched then 1 else 0 }

  function SdpStartHid(h: Host, i: nat): (r: Host)
    requires Sized(h) && i < MAX_DEVICES
    ensures Sized(r)
    decreases 0, 3
  {
    if !h.devices[i].parser.needsDescriptor then SdpEnd(h, i)
    else if h.sdp.None? then h
    else SetState(h, i, HidRequested)
  }

  function SdpEnd(h: Host, i: nat): (r: Host)
    requires Sized(h) && i < MAX_DEVICES
    ensures Sized(r)
    decreases 0, 2
  {
    Process(SetState(h, i, HidFetched).(sdp := None), i)
  }

  function Process(h: Host, i: nat): (r: Host)
    requires Sized(h) && i < MAX_DEVICES
    ensures Sized(r)
    decreases Rank(h.devices[i].state), 1
  {
    var d := h.devices[i];
    if d.name == Unnamed && (d.state == Discovered || d.state == InterruptConnected) then
      SetState(h, i, NameInquired)
    else if d.state == NameFetched then ProcessNamed(h, i)
    else if d.state == VendorFetched then SdpStartHid(h, i)
    else if d.state == HidFetched then
      if !d.incoming && d.query == BeforeConnect then SetState(h, i, ControlRequested) else SetReady(h, i)
    else if !d.incoming && d.state == ControlConnected then SetState(h, i, InterruptRequested)
    else if !d.incoming && d.state == InterruptConnected then
      if d.query == AfterConnect then SdpStart(h, i) else SetReady(h, i)
    else h
  }

  // The name has just become known.
  function ProcessNamed(h: Host, i: nat): (r: Host)
    requires Sized(h) && i < MAX_DEVICES
    ensures Sized(r)
  {
    var d := h.devices[i];
    if d.name == WirelessController then SdpStart(SetQuery(h, i, BeforeConnect), i)
    else
      var known := if d.name.Known?
        then SetState(SetQuery(Guess(h, i, d.name.parser), i, NotNeeded), i, HidFetched) else h;
      if !d.incoming then SetState(known, i, ControlRequested)
      else if known.devices[i].query == NotNeeded then SetReady(known, i)
      else SdpStart(known, i)
  }

  // ---------------------------------------------------------------------------
  // Events
  // ---------------------------------------------------------------------------

  datatype Psm = Control | Interrupt | OtherPsm

  datatype Event =
    | ConnectionRequest(addr: nat)
    | IncomingChannel(addr: nat, psm: Psm)
    | ChannelOpened(addr: nat, psm: Psm, ok: bool)
    | InquiryResult(addr: nat, name: Name)     // of a device that is allowed and supported
    | NameComplete(addr: nat, name: Name)
    | NameTimeout(slot: nat)
    | VendorResult(parser: Parser)             // the parser the vendor and product ids stand for
    | HidResult
    | SdpTimeout
    | SetupDone(slot: nat)                     // a deferred parser finished
    | ConnectionTimeout(slot: nat)
    | Gone(slot: nat)                          // channel closed, or a disconnection asked for
    | BleAdvertised(addr: nat, name: Name)
    | BleConnected(slot: nat, parser: Parser)
    | VirtualSwitch(enabled: bool)

  function SetIncoming(h: Host, i: nat): (r: Host)
    requires Sized(h) && i < MAX_DEVICES
    ensures Sized(r)
  {
    With(h, i, h.devices[i].(incoming := true))
  }

  function SetName(h: Host, i: nat, name: Name): (r: Host)
    requires Sized(h) && i < MAX_DEVICES
    ensures Sized(r)
  {
    With(h, i, h.devices[i].(name := name))
  }

  function Lookup(h: Host, addr: nat): (r: Option<nat>)
    requires Sized(h)
    ensures r.Some? ==> r.value < MAX_DEVICES && h.devices[r.value].addr == addr && h.devices[r.value].parent.None?
  {
    ByAddress(h.devices, addr, 0)
  }

  // The device at an address, made if there is none and a slot is free.
  function LookupOrCreate(h: Host, addr: nat): (r: (Host, Option<nat>))
    requires Sized(h)
    ensures Sized(r.0) && (r.1.Some? ==> r.1.value < MAX_DEVICES)
  {
    if Lookup(h, addr).Some? then (h, Lookup(h, addr)) else Create(h, addr)
  }

  function OnIncoming(h: Host, addr: nat): (r: Host)
    requires Sized(h)
    ensures Sized(r)
  {
    var (made, slot) := LookupOrCreate(h, addr);
    match slot
    case Some(i) => SetIncoming(made, i)
    case None => made
  }

  // A device that is ready and opens a channel anew has lost its connection without telling.
  function OnIncomingChannel(h: Host, addr: nat, psm: Psm): (r: Host)
    requires Sized(h)
    ensures Sized(r)
  {
    var slot := Lookup(h, addr);
    var known := if slot.Some? && h.devices[slot.value].state == Ready then Drop(h, slot.value) else h;
    if psm == Control then OnIncoming(known, addr) else known
  }

  function OnChannelOpened(h: Host, i: nat, psm: Psm, ok: bool): (r: Host)
    requires Sized(h) && i < MAX_DEVICES
    ensures Sized(r)
  {
    if !ok then Drop(h, i)
    else
      var moved := match psm
        case Control => SetState(h, i, ControlConnected)
        case Interrupt => Connect(SetState(h, i, InterruptConnected), i)
        case OtherPsm => h;
      Process(moved, i)
  }

  function OnInquiryResult(h: Host, addr: nat, name: Name): (r: Host)
    requires Sized(h)
    ensures Sized(r)
  {
    match Lookup(h, addr)
    case Some(i) => if h.devices[i].state == Ready then h else Process(h, i)
    case None =>
      var (made, slot) := Create(h, addr);
      match slot
      case None => made
      case Some(i) =>
        Process(With(made, i, Found(made.devices[i], name)), i)
  }

  function Found(d: Device, name: Name): Device {
    if name == Unnamed then d.(state := Discovered) else d.(name := name, state := NameFetched)
  }

  // A name that comes late does not move a device that is being set up.
  function OnNameComplete(h: Host, i: nat, name: Name): (r: Host)
    requires Sized(h) && i < MAX_DEVICES
    ensures Sized(r)
  {
    var named := SetName(h, i, name);
    if h.devices[i].state == PendingReady || h.devices[i].state == Ready then named
    else Process(SetState(named, i, NameFetched), i)
  }

  function OnVendorResult(h: Host, i: nat, parser: Parser): (r: Host)
    requires Sized(h) && i < MAX_DEVICES
    ensures Sized(r)
  {
    Process(SetState(Guess(h, i, parser), i, VendorFetched), i)
  }

  function OnBleAdvertised(h: Host, addr: nat, name: Name): (r: Host)
    requires Sized(h)
    ensures Sized(r)
  {
    if Lookup(h, addr).Some? then h
    else
      var (made, slot) := Create(h, addr);
      match slot
      case None => made
      case Some(i) => With(made, i, made.devices[i].(name := name, ble := true, state := Discovered))
  }

  function Handle(h: Host, e: Event): (r: Host)
    requires Sized(h)
    ensures Sized(r)
  {
    match e
    case ConnectionRequest(addr) => OnIncoming(h, addr)
    case IncomingChannel(addr, psm) => OnIncomingChannel(h, addr, psm)
    case ChannelOpened(addr, psm, ok) =>
      (match Lookup(h, addr) case Some(i) => OnChannelOpened(h, i, psm, ok) case None => h)
    case InquiryResult(addr, name) => OnInquiryResult(h, addr, name)
    case NameComplete(addr, name) =>
      (match Lookup(h, addr) case Some(i) => OnNameComplete(h, i, name) case None => h)
    case NameTimeout(i) => if i < MAX_DEVICES then Process(SetState(SetName(h, i, Plain), i, NameFetched), i) else h
    case VendorResult(parser) =>
      (match h.sdp case Some(i) => if i < MAX_DEVICES then OnVendorResult(h, i, parser) else h case None => h)
    case HidResult =>
      (match h.sdp case Some(i) => if i < MAX_DEVICES then SdpEnd(h, i) else h case None => h)
    case SdpTimeout => h.(sdp := None)
    case SetupDone(i) => if i < MAX_DEVICES then FinishSetup(h, i) else h
    case ConnectionTimeout(i) => if i < MAX_DEVICES && h.devices[i].state != Ready then Drop(h, i) else h
    case Gone(i) => if i < MAX_DEVICES then Drop(h, i) else h
    case BleAdvertised(addr, name) => OnBleAdvertised(h, addr, name)
    case BleConnected(i, parser) => if i < MAX_DEVICES then SetReady(Connect(Guess(h, i, parser), i), i) else h
    case VirtualSwitch(enabled) => h.(virtualEnabled := enabled)
  }
}
