/** What an event leaves alone: the record of every device it is not about, and who is whose child. */
module BredrFrame {
  import opened HidTable
  import opened BredrFsm
  import opened BredrSafety
  import opened Prelude

  predicate NotParent(h: Host, c: nat, i: nat)
    requires Sized(h) && c < MAX_DEVICES
  {
    h.devices[c].child != Some(i)
  }

  // No record has the slot for its child.
  ghost predicate Unclaimed(h: Host, i: nat) {
    Sized(h) && i < MAX_DEVICES && forall c: nat :: c < MAX_DEVICES ==> NotParent(h, c, i)
  }

  // A device that is nobody's child.
  ghost predicate Alone(h: Host, i: nat) { Unclaimed(h, i) && h.devices[i].addr != 0 }

  // The slot stays unclaimed, and its record as it was, unless what is done concerns it.
  ghost predicate Kept(h: Host, r: Host, i: nat, concerned: bool)
    requires Sized(h) && Sized(r) && i < MAX_DEVICES
  {
    Unclaimed(r, i) && (!concerned ==> r.devices[i] == h.devices[i])
  }

  // As long as families are whole, every device that is not virtual is nobody's child.
  lemma RealIsAlone(h: Host, i: nat)
    requires TableInv(h) && !h.severed && Real(h, i)
    ensures Alone(h, i)
  {
    forall c: nat | c < MAX_DEVICES
      ensures NotParent(h, c, i)
    {
      assert Kin(h, c, i);
    }
  }

  // ---------------------------------------------------------------------------
  // The table
  // ---------------------------------------------------------------------------

  lemma OneSlotKeeps(h: Host, r: Host, k: nat, d: Device, i: nat)
    requires Unclaimed(h, i) && Sized(r) && k < MAX_DEVICES && r.devices == h.devices[k := d] && d.child != Some(i)
    ensures Kept(h, r, i, k == i)
  {
    forall c: nat | c < MAX_DEVICES
      ensures NotParent(r, c, i)
    {
      assert NotParent(h, c, i);
    }
  }

  lemma {:induction false} NotDownTheLine(h: Host, k: nat, n: nat, i: nat)
    requires Unclaimed(h, i) && k < MAX_DEVICES && k != i
    ensures i !in Household(h.devices, k, n)
    decreases n
  {
    assert NotParent(h, k, i);
    if ChildOf(h, k).Some? && n > 0 { NotDownTheLine(h, ChildOf(h, k).value, n - 1, i); }
  }

  lemma DropKeeps(h: Host, k: nat, i: nat)
    requires Unclaimed(h, i) && k < MAX_DEVICES
    ensures Kept(h, Drop(h, k), i, k == i)
  {
    DropClears(h, k);
    var r := Drop(h, k);
    if k != i { NotDownTheLine(h, k, DEPTH, i); }
    forall c: nat | c < MAX_DEVICES
      ensures NotParent(r, c, i)
    {
      assert NotParent(h, c, i);
    }
  }

  lemma CompleteKeeps(h: Host, k: nat, i: nat)
    requires Alone(h, i) && k < MAX_DEVICES
    ensures Kept(h, SetReadyComplete(h, k).0, i, k == i)
  {
    if h.devices[k].state != Ready {
      var asked := OnDeviceReady(h, k).0;
      assert NotParent(h, k, i);
      OneSlotKeeps(h, asked, k, asked.devices[k], i);
      DropKeeps(asked, k, i);
      OneSlotKeeps(asked, SetState(asked, k, Ready), k, asked.devices[k].(state := Ready), i);
    }
  }

  lemma CreateVirtualKeeps(h: Host, p: nat, i: nat)
    requires Alone(h, i) && p < MAX_DEVICES
    ensures var (r, slot) := CreateVirtual(h, p);
            Kept(h, r, i, p == i) && slot != Some(i) && r.devices[i].addr == h.devices[i].addr
  {
    var (r, slot) := CreateVirtual(h, p);
    if slot.Some? {
      var c := slot.value;
      var d := h.devices[c].(addr := h.devices[p].addr, parent := Some(p), typed := true, name := Plain);
      assert NotParent(h, c, i);
      OneSlotKeeps(h, With(h, c, d), c, d, i);
      OneSlotKeeps(With(h, c, d), r, p, r.devices[p], i);
    }
  }

  lemma AddChildKeeps(h: Host, p: nat, i: nat)
    requires Alone(h, i) && p < MAX_DEVICES
    ensures Kept(h, AddChild(h, p), i, p == i)
  {
    CreateVirtualKeeps(h, p, i);
    var (born, slot) := CreateVirtual(h, p);
    if slot.Some? {
      var c := slot.value;
      assert NotParent(born, c, i);
      OneSlotKeeps(born, Connect(born, c), c, Connect(born, c).devices[c], i);
      CompleteKeeps(Connect(born, c), c, i);
      var finished := SetReadyComplete(Connect(born, c), c).0;
      var free := finished.devices[p].(child := None);
      OneSlotKeeps(finished, With(finished, p, free), p, free, i);
    }
  }

  lemma FinishKeeps(h: Host, k: nat, i: nat)
    requires Alone(h, i) && k < MAX_DEVICES
    ensures Kept(h, FinishSetup(h, k), i, k == i)
  {
    CompleteKeeps(h, k, i);
    if SetReadyComplete(h, k).1 { AddChildKeeps(SetReadyComplete(h, k).0, k, i); }
  }

  lemma SetReadyKeeps(h: Host, k: nat, i: nat)
    requires Alone(h, i) && k < MAX_DEVICES
    ensures Kept(h, SetReady(h, k), i, k == i)
  {
    assert NotParent(h, k, i);
    OneSlotKeeps(h, Pending(h, k), k, Pending(h, k).devices[k], i);
    FinishKeeps(Pending(h, k), k, i);
  }

  // ---------------------------------------------------------------------------
  // The machine
  // ---------------------------------------------------------------------------

  lemma MoveKeeps(h: Host, r: Host, k: nat, i: nat)
    requires Alone(h, i) && Sized(r) && k < MAX_DEVICES && r.devices == h.devices[k := r.devices[k]]
    requires r.devices[k].child == h.devices[k].child && r.devices[k].addr == h.devices[k].addr
    ensures Kept(h, r, i, k == i) && Alone(r, i)
  {
    assert NotParent(h, k, i);
    OneSlotKeeps(h, r, k, r.devices[k], i);
  }

  lemma SdpStartKeeps(h: Host, k: nat, i: nat)
    requires Alone(h, i) && k < MAX_DEVICES
    ensures Kept(h, SdpStart(h, k), i, k == i)
  {
    if h.sdp.Some? { DropKeeps(h, k, i); } else { MoveKeeps(h, SdpStart(h, k), k, i); }
  }

  lemma EndKeeps(h: Host, k: nat, i: nat)
    requires Alone(h, i) && k < MAX_DEVICES
    ensures Kept(h, SdpEnd(h, k), i, k == i)
  {
    var fetched := SetState(h, k, HidFetched).(sdp := None);
    MoveKeeps(h, fetched, k, i);
    assert SdpEnd(h, k) == Process(fetched, k);
    if Process(fetched, k) == SetReady(fetched, k) {
      SetReadyKeeps(fetched, k, i);
    } else {
      MoveKeeps(fetched, SetState(fetched, k, ControlRequested), k, i);
    }
  }

  lemma NamedKeeps(h: Host, k: nat, i: nat)
    requires Alone(h, i) && k < MAX_DEVICES
    ensures Kept(h, ProcessNamed(h, k), i, k == i)
  {
    var d := h.devices[k];
    if d.name == WirelessController {
      MoveKeeps(h, SetQuery(h, k, BeforeConnect), k, i);
      SdpStartKeeps(SetQuery(h, k, BeforeConnect), k, i);
    } else {
      var known := if d.name.Known?
        then SetState(SetQuery(Guess(h, k, d.name.parser), k, NotNeeded), k, HidFetched) else h;
      MoveKeeps(h, known, k, i);
      MoveKeeps(known, SetState(known, k, ControlRequested), k, i);
      SetReadyKeeps(known, k, i);
      SdpStartKeeps(known, k, i);
    }
  }

  lemma ProcessKeeps(h: Host, k: nat, i: nat)
    requires Alone(h, i) && k < MAX_DEVICES
    ensures Kept(h, Process(h, k), i, k == i)
  {
    var d := h.devices[k];
    if d.state == NameFetched {
      NamedKeeps(h, k, i);
    } else if d.state == VendorFetched {
      assert Process(h, k) == SdpStartHid(h, k);
      EndKeeps(h, k, i);
      MoveKeeps(h, SetState(h, k, HidRequested), k, i);
    } else if d.state == HidFetched && (d.incoming || d.query != BeforeConnect) {
      assert Process(h, k) == SetReady(h, k);
      SetReadyKeeps(h, k, i);
    } else if d.state == InterruptConnected && d.name != Unnamed && !d.incoming {
      SdpStartKeeps(h, k, i);
      SetReadyKeeps(h, k, i);
    } else {
      MoveKeeps(h, Process(h, k), k, i);
    }
  }

  // ---------------------------------------------------------------------------
  // Events
  // ---------------------------------------------------------------------------

  // The device an event is about. An inquiry result is about a device that is not known yet.
  predicate Concerns(h: Host, i: nat, e: Event)
    requires Sized(h) && i < MAX_DEVICES
  {
    match e
    case ConnectionRequest(addr) => addr == h.devices[i].addr
    case IncomingChannel(addr, psm) => addr == h.devices[i].addr
    case ChannelOpened(addr, psm, ok) => addr == h.devices[i].addr
    case InquiryResult(addr, name) => false
    case NameComplete(addr, name) => addr == h.devices[i].addr
    case NameTimeout(k) => k == i
    case VendorResult(parser) => h.sdp == Some(i)
    case HidResult => h.sdp == Some(i)
    case SdpTimeout => false
    case SetupDone(k) => k == i
    case ConnectionTimeout(k) => k == i
    case Gone(k) => k == i
    case BleAdvertised(addr, name) => false
    case BleConnected(k, parser) => k == i
    case VirtualSwitch(enabled) => false
  }

  lemma CreateKeeps(h: Host, addr: nat, i: nat)
    requires Unclaimed(h, i)
    ensures var (r, slot) := Create(h, addr);
            && Kept(h, r, i, slot == Some(i)) && (h.devices[i].addr != 0 ==> slot != Some(i))
            && (slot.Some? ==> r.devices[slot.value] == Cleared(addr))
  {
    var (r, slot) := Create(h, addr);
    if slot.Some? { OneSlotKeeps(h, r, slot.value, Cleared(addr), i); }
  }

  lemma IncomingKeeps(h: Host, addr: nat, i: nat)
    requires Unclaimed(h, i)
    ensures Kept(h, OnIncoming(h, addr), i, addr == h.devices[i].addr || h.devices[i].addr == 0)
  {
    CreateKeeps(h, addr, i);
    var (made, slot) := LookupOrCreate(h, addr);
    if slot.Some? {
      assert NotParent(made, slot.value, i);
      var r := SetIncoming(made, slot.value);
      OneSlotKeeps(made, r, slot.value, r.devices[slot.value], i);
    }
  }

  lemma IncomingChannelKeeps(h: Host, addr: nat, psm: Psm, i: nat)
    requires Alone(h, i)
    ensures Kept(h, OnIncomingChannel(h, addr, psm), i, addr == h.devices[i].addr)
  {
    var slot := Lookup(h, addr);
    if slot.Some? && h.devices[slot.value].state == Ready {
      DropKeeps(h, slot.value, i);
      IncomingKeeps(Drop(h, slot.value), addr, i);
    } else {
      IncomingKeeps(h, addr, i);
    }
  }

  lemma ChannelOpenedKeeps(h: Host, k: nat, psm: Psm, ok: bool, i: nat)
    requires Alone(h, i) && k < MAX_DEVICES
    ensures Kept(h, OnChannelOpened(h, k, psm, ok), i, k == i)
  {
    DropKeeps(h, k, i);
    var moved := match psm
      case Control => SetState(h, k, ControlConnected)
      case Interrupt => Connect(SetState(h, k, InterruptConnected), k)
      case OtherPsm => h;
    MoveKeeps(h, moved, k, i);
    ProcessKeeps(moved, k, i);
  }

  lemma InquiryKeeps(h: Host, addr: nat, name: Name, i: nat)
    requires Settled(h) && Alone(h, i) && addr != 0
    ensures Kept(h, OnInquiryResult(h, addr, name), i, false)
  {
    var known := Lookup(h, addr);
    if known.Some? {
      ProcessRests(h, known.value);
    } else {
      CreateKeeps(h, addr, i);
      var (made, slot) := Create(h, addr);
      if slot.Some? {
        var found := With(made, slot.value, Found(made.devices[slot.value], name));
        MoveKeeps(made, found, slot.value, i);
        ProcessKeeps(found, slot.value, i);
      }
    }
  }

  lemma NameKeeps(h: Host, k: nat, name: Name, i: nat)
    requires Alone(h, i) && k < MAX_DEVICES
    ensures Kept(h, OnNameComplete(h, k, name), i, k == i)
    ensures Kept(h, Process(SetState(SetName(h, k, name), k, NameFetched), k), i, k == i)
  {
    MoveKeeps(h, SetName(h, k, name), k, i);
    var named := SetState(SetName(h, k, name), k, NameFetched);
    MoveKeeps(h, named, k, i);
    ProcessKeeps(named, k, i);
  }

  lemma AnswerKeeps(h: Host, k: nat, parser: Parser, i: nat)
    requires Alone(h, i) && k < MAX_DEVICES
    ensures Kept(h, OnVendorResult(h, k, parser), i, k == i)
  {
    var moved := SetState(Guess(h, k, parser), k, VendorFetched);
    MoveKeeps(h, moved, k, i);
    ProcessKeeps(moved, k, i);
  }

  lemma BleKeeps(h: Host, addr: nat, name: Name, i: nat)
    requires Alone(h, i)
    ensures Kept(h, OnBleAdvertised(h, addr, name), i, false)
  {
    CreateKeeps(h, addr, i);
    var (made, slot) := Create(h, addr);
    if Lookup(h, addr).None? && slot.Some? { MoveKeeps(made, OnBleAdvertised(h, addr, name), slot.value, i); }
  }

  lemma BleConnectedKeeps(h: Host, k: nat, parser: Parser, i: nat)
    requires Alone(h, i) && k < MAX_DEVICES
    ensures Kept(h, SetReady(Connect(Guess(h, k, parser), k), k), i, k == i)
  {
    var up := Connect(Guess(h, k, parser), k);
    MoveKeeps(h, up, k, i);
    SetReadyKeeps(up, k, i);
  }

  lemma EventKeeps(h: Host, i: nat, e: Event)
    requires Settled(h) && Alone(h, i) && Plausible(h, e)
    ensures Kept(h, Handle(h, e), i, Concerns(h, i, e))
  {
    match e
    case ConnectionRequest(addr) => IncomingKeeps(h, addr, i);
    case IncomingChannel(addr, psm) => IncomingChannelKeeps(h, addr, psm, i);
    case ChannelOpened(addr, psm, ok) =>
      if Lookup(h, addr).Some? { ChannelOpenedKeeps(h, Lookup(h, addr).value, psm, ok, i); }
    case InquiryResult(addr, name) => InquiryKeeps(h, addr, name, i);
    case NameComplete(addr, name) =>
      if Lookup(h, addr).Some? { NameKeeps(h, Lookup(h, addr).value, name, i); }
    case NameTimeout(k) => NameKeeps(h, k, Plain, i);
    case VendorResult(parser) => if h.sdp.Some? { AnswerKeeps(h, h.sdp.value, parser, i); }
    case HidResult => if h.sdp.Some? { EndKeeps(h, h.sdp.value, i); }
    case SdpTimeout => SwitchKeeps(h, h.(sdp := None), i);
    case SetupDone(k) => FinishKeeps(h, k, i);
    case ConnectionTimeout(k) => DropKeeps(h, k, i);
    case Gone(k) => DropKeeps(h, k, i);
    case BleAdvertised(addr, name) => BleKeeps(h, addr, name, i);
    case BleConnected(k, parser) => BleConnectedKeeps(h, k, parser, i);
    case VirtualSwitch(enabled) => SwitchKeeps(h, h.(virtualEnabled := enabled), i);
  }

  lemma SwitchKeeps(h: Host, r: Host, i: nat)
    requires Alone(h, i) && Sized(r) && r.devices == h.devices
    ensures Kept(h, r, i, false)
  {
    MoveKeeps(h, r, i, i);
  }

  // An event that is not about a device leaves its record as it was, if it is nobody's child; and nobody's
  // child it stays, whatever the event is about.
  lemma OthersAreLeftAlone(h: Host, i: nat, e: Event)
    requires Settled(h) && Alone(h, i) && Plausible(h, e)
    ensures !Concerns(h, i, e) ==> Handle(h, e).devices[i] == h.devices[i]
    ensures Unclaimed(Handle(h, e), i)
  {
    EventKeeps(h, i, e);
  }
}
