/** What the connection machine guarantees over whole runs: a device's parser is told to set it up only
    after its transport came up, once, and the device is then always given a seat. */
module BredrSafety {
  import opened HidTable
  import opened BredrFsm
  import opened Prelude

  // ---------------------------------------------------------------------------
  // Where a device may rest between events
  // ---------------------------------------------------------------------------

  // Connected, not yet told, no seat: the first and only setup of this life may begin.
  predicate FirstSetup(d: Device) {
    d.connected && d.wentUp && d.setups == 0 && d.seat == NO_SEAT
  }

  // The parser has not been told yet, and "connected" is what the history says.
  predicate Fresh(d: Device) {
    && d.addr != 0 && d.parent.None? && d.child.None? && d.setups == 0
    && (d.wentUp <==> d.connected) && (d.connected ==> d.seat == NO_SEAT)
  }

  // An SDP query runs after the channels are open, or before for an outgoing device that asked for it.
  predicate QueryOk(d: Device) {
    d.name != Unnamed && (d.incoming ==> d.wentUp) && (!d.incoming ==> (d.query == BeforeConnect <==> !d.wentUp))
  }

  predicate Resting(d: Device) {
    match d.state
    case Idle => d.incoming && d.name == Unnamed && !d.wentUp
    case NameInquired => d.name == Unnamed && (d.incoming <==> d.wentUp)
    case VendorRequested => QueryOk(d)
    case HidRequested => QueryOk(d)
    case ControlRequested => !d.incoming && d.name != Unnamed && !d.wentUp
    case InterruptRequested => !d.incoming && d.name != Unnamed && !d.wentUp
    case ControlConnected => d.incoming && d.name == Unnamed && !d.wentUp
    case _ => false
  }

  predicate SettingUp(d: Device) {
    && d.addr != 0 && d.parent.None? && d.connected && d.wentUp && d.setups == 1
    && d.state == PendingReady && d.seat == NO_SEAT && d.child.None?
  }

  predicate SetUp(d: Device) {
    d.addr != 0 && d.connected && d.setups == 1 && d.wentUp && d.state == Ready
  }

  predicate Stage(d: Device) {
    || d.addr == 0
    || (d.parent.Some? && d.state == Ready)
    || SettingUp(d)
    || SetUp(d)
    || (Fresh(d) && (if d.ble then d.state == Discovered && d.name != Unnamed && !d.wentUp else Resting(d)))
  }

  predicate StageAt(h: Host, i: nat)
    requires Sized(h) && i < MAX_DEVICES
  {
    Stage(h.devices[i])
  }

  // Every device that was ever told to set up was up, and told for the first time in its life.
  predicate ToldOk(told: seq<Device>) { forall k :: 0 <= k < |told| ==> FirstSetup(told[k]) }

  // No two devices share an address, unless one is the other's virtual child.
  predicate Unalike(h: Host, i: nat, k: nat)
    requires Sized(h) && i < MAX_DEVICES && k < MAX_DEVICES
  {
    var d, e := h.devices[i], h.devices[k];
    i != k && d.addr != 0 && d.parent.None? && e.parent.None? ==> d.addr != e.addr
  }

  ghost predicate Distinct(h: Host)
    requires Sized(h)
  {
    forall i: nat, k: nat :: i < MAX_DEVICES && k < MAX_DEVICES ==> Unalike(h, i, k)
  }

  ghost predicate SettledBut(h: Host, i: nat) {
    TableInv(h) && ToldOk(h.told) && Distinct(h) && forall k: nat :: k < MAX_DEVICES && k != i ==> StageAt(h, k)
  }

  ghost predicate Settled(h: Host) {
    TableInv(h) && ToldOk(h.told) && Distinct(h) && forall k: nat :: k < MAX_DEVICES ==> StageAt(h, k)
  }

  // A slot that keeps its address, is freed, or becomes a virtual device, makes no two devices alike.
  predicate NoNewAddress(h: Host, r: Host, k: nat)
    requires Sized(h) && Sized(r) && k < MAX_DEVICES
  {
    var d, e := h.devices[k], r.devices[k];
    (e.addr == d.addr && e.parent == d.parent) || e.addr == 0 || e.parent.Some?
  }

  lemma StaysDistinct(h: Host, r: Host)
    requires Sized(h) && Sized(r) && Distinct(h) && forall k: nat :: k < MAX_DEVICES ==> NoNewAddress(h, r, k)
    ensures Distinct(r)
  {
    forall i: nat, k: nat | i < MAX_DEVICES && k < MAX_DEVICES
      ensures Unalike(r, i, k)
    {
      assert Unalike(h, i, k) && NoNewAddress(h, r, i) && NoNewAddress(h, r, k);
    }
  }

  // ---------------------------------------------------------------------------
  // Dropping, telling and finishing
  // ---------------------------------------------------------------------------

  lemma DropSettles(h: Host, i: nat)
    requires SettledBut(h, i) && i < MAX_DEVICES
    ensures Settled(Drop(h, i))
  {
    DropKeepsTable(h, i);
    DropClears(h, i);
    var r := Drop(h, i);
    forall k: nat | k < MAX_DEVICES
      ensures StageAt(r, k)
    {
      if k != i { assert StageAt(h, k); }
    }
    forall k: nat | k < MAX_DEVICES
      ensures NoNewAddress(h, r, k)
    {
    }
    StaysDistinct(h, r);
  }

  // The child that may come with it: a virtual device, ready at once.
  lemma ChildShape(h: Host, c: nat, k: nat)
    requires TableInv(h) && c < MAX_DEVICES && k < MAX_DEVICES && Connectable(h.devices[c])
        && h.devices[c].state != Ready
    ensures var (r, kept) := SetReadyComplete(Connect(h, c), c);
            && kept && r.told == h.told && r.sdp == h.sdp && (k != c ==> r.devices[k] == h.devices[k])
            && r.devices[c].state == Ready && r.devices[c].parent == h.devices[c].parent
  {
    ConnectKeepsTable(h, c);
    SetReadyCompleteAnswers(Connect(h, c), c);
    TakeShape(Connect(h, c), c);
  }

  lemma TakenShape(h: Host, i: nat, k: nat)
    requires TableInv(h) && Owns(h, i, NO_SEAT) && h.devices[i].state != Ready && k < MAX_DEVICES
    ensures var (r, accepted) := SetReadyComplete(h, i);
            && accepted && r.told == h.told && r.sdp == h.sdp
            && r.devices[k] == if k == i then h.devices[i].(state := Ready, seat := r.devices[i].seat) else h.devices[k]
  {
    SetReadyCompleteAnswers(h, i);
    TakeShape(h, i);
  }

  lemma SpawnShape(h: Host, p: nat, k: nat)
    requires Sized(h) && p < MAX_DEVICES && k < MAX_DEVICES
    ensures var (r, slot) := CreateVirtual(h, p);
            && r.told == h.told && r.sdp == h.sdp
            && (slot.None? ==> r == h)
            && (slot.Some? && slot.value != p ==>
                  r.devices[slot.value].parent == Some(p) && r.devices[p] == h.devices[p].(child := slot))
            && (slot.Some? && k != slot.value && k != p ==> r.devices[k] == h.devices[k])
  {
  }

  lemma AddChildShape(h: Host, p: nat, k: nat)
    requires TableInv(h) && p < MAX_DEVICES && k < MAX_DEVICES && Seated(h.devices[p]) && h.devices[p].child.None?
    ensures var r := AddChild(h, p); var d := r.devices[k];
            && r.told == h.told && r.sdp == h.sdp
            && (if k == p then d == h.devices[p].(child := d.child)
                else d == h.devices[k] || (d.parent.Some? && d.state == Ready))
  {
    SpawnShape(h, p, k);
    SpawnKeepsTable(h, p);
    var (born, slot) := CreateVirtual(h, p);
    if slot.Some? { ChildShape(born, slot.value, k); }
  }

  // What finishing the setup of a connected device changes: the device gets a seat, and may get a child.
  lemma FinishSetupShape(h: Host, i: nat, k: nat)
    requires TableInv(h) && Owns(h, i, NO_SEAT) && h.devices[i].state != Ready && k < MAX_DEVICES
    ensures var r := FinishSetup(h, i); var d := r.devices[k];
            && r.told == h.told && r.sdp == h.sdp
            && (if k == i then d == h.devices[i].(state := Ready, seat := d.seat, child := d.child)
                else d == h.devices[k] || (d.parent.Some? && d.state == Ready))
  {
    TakenShape(h, i, k);
    DoneIsSeated(h, i);
    AddChildShape(SetReadyComplete(h, i).0, i, k);
  }

  lemma DoneIsSeated(h: Host, i: nat)
    requires TableInv(h) && Owns(h, i, NO_SEAT) && h.devices[i].state != Ready
    ensures var done := SetReadyComplete(h, i).0;
            TableInv(done) && Seated(done.devices[i]) && done.devices[i].child.None?
  {
    SetReadyCompleteAnswers(h, i);
    SeatTakenKeepsTable(h, i);
  }

  lemma FinishSettles(h: Host, i: nat)
    requires SettledBut(h, i) && i < MAX_DEVICES && SettingUp(h.devices[i])
    ensures Settled(FinishSetup(h, i))
  {
    var r := FinishSetup(h, i);
    FinishSetupKeepsTable(h, i);
    forall k: nat | k < MAX_DEVICES
      ensures StageAt(r, k) && NoNewAddress(h, r, k) && r.told == h.told
    {
      FinishSetupShape(h, i, k);
      if k != i { assert StageAt(h, k); }
    }
    assert StageAt(r, 0);
    StaysDistinct(h, r);
  }

  lemma SetReadySettles(h: Host, i: nat)
    requires SettledBut(h, i) && i < MAX_DEVICES
    requires Fresh(h.devices[i]) && h.devices[i].wentUp && h.devices[i].state != PendingReady
    ensures Settled(SetReady(h, i))
    ensures SetReady(h, i).told == h.told + [h.devices[i]]
  {
    var p := Pending(h, i);
    PendingKeepsTable(h, i);
    forall k: nat | k < MAX_DEVICES
      ensures StageAt(p, k) && NoNewAddress(h, p, k)
    {
      if k != i { assert StageAt(h, k); }
    }
    StaysDistinct(h, p);
    if !h.devices[i].parser.deferred {
      FinishSettles(p, i);
      FinishSetupShape(p, i, i);
    }
  }

  // ---------------------------------------------------------------------------
  // The machine settles a device that is on the move
  // ---------------------------------------------------------------------------

  // A state the machine is called in, and what must hold for it to be right to go on.
  predicate Moving(d: Device) {
    && Fresh(d) && !d.ble
    && match d.state
       case Discovered => d.name == Unnamed && !d.incoming && !d.wentUp
       case NameFetched => d.name != Unnamed && (d.incoming <==> d.wentUp)
       case VendorFetched => QueryOk(d)
       case HidFetched => QueryOk(d)
       case ControlConnected => if d.incoming then d.name == Unnamed && !d.wentUp else d.name != Unnamed && !d.wentUp
       case InterruptConnected => d.wentUp && (d.name == Unnamed <==> d.incoming)
       case _ => false
  }

  // One slot changed, in nothing the table cares about.
  lemma MoveSettles(h: Host, r: Host, i: nat, d: Device)
    requires SettledBut(h, i) && i < MAX_DEVICES && Sized(r)
    requires r.devices == h.devices[i := d] && r.seats == h.seats && r.used == h.used && r.told == h.told
    requires r.severed == h.severed
    requires SameStanding(h.devices[i], d) && Sound(d) && d.addr == h.devices[i].addr
    requires d.parent == h.devices[i].parent && d.child == h.devices[i].child
    ensures SettledBut(r, i)
    ensures Stage(d) ==> Settled(r)
  {
    WithKeepsTable(h, i, d);
    SameTable(With(h, i, d), r);
    forall k: nat | k < MAX_DEVICES && k != i
      ensures StageAt(r, k)
    {
      assert StageAt(h, k);
    }
    forall k: nat | k < MAX_DEVICES
      ensures NoNewAddress(h, r, k)
    {
    }
    StaysDistinct(h, r);
    if Stage(d) { assert StageAt(r, i); }
  }

  lemma SdpStartSettles(h: Host, i: nat)
    requires SettledBut(h, i) && i < MAX_DEVICES
    requires Fresh(h.devices[i]) && !h.devices[i].ble && QueryOk(h.devices[i])
    ensures Settled(SdpStart(h, i)) && SdpStart(h, i).told == h.told
  {
    assert SlotOk(h, i);
    if h.sdp.Some? {
      DropSettles(h, i);
      DropClears(h, i);
    } else {
      MoveSettles(h, SdpStart(h, i), i, h.devices[i].(state := VendorRequested));
    }
  }

  lemma HidFetchedSettles(h: Host, i: nat)
    requires SettledBut(h, i) && i < MAX_DEVICES && Moving(h.devices[i]) && h.devices[i].state == HidFetched
    ensures Settled(Process(h, i))
  {
    var d := h.devices[i];
    assert SlotOk(h, i);
    if !d.incoming && d.query == BeforeConnect {
      MoveSettles(h, Process(h, i), i, d.(state := ControlRequested));
    } else {
      SetReadySettles(h, i);
    }
  }

  lemma SdpEndSettles(h: Host, i: nat)
    requires SettledBut(h, i) && i < MAX_DEVICES
    requires Fresh(h.devices[i]) && !h.devices[i].ble && QueryOk(h.devices[i])
    ensures Settled(SdpEnd(h, i))
  {
    assert SlotOk(h, i);
    var ended := SetState(h, i, HidFetched).(sdp := None);
    MoveSettles(h, ended, i, h.devices[i].(state := HidFetched));
    HidFetchedSettles(ended, i);
  }

  lemma VendorFetchedSettles(h: Host, i: nat)
    requires SettledBut(h, i) && i < MAX_DEVICES && Moving(h.devices[i]) && h.devices[i].state == VendorFetched
    requires h.sdp.Some?
    ensures Settled(Process(h, i))
  {
    assert SlotOk(h, i);
    if h.devices[i].parser.needsDescriptor {
      assert Process(h, i) == SdpStartHid(h, i) == SetState(h, i, HidRequested);
      MoveSettles(h, SetState(h, i, HidRequested), i, h.devices[i].(state := HidRequested));
    } else {
      SdpEndSettles(h, i);
    }
  }

  // A name that asks for no query first: the channels of an outgoing device, the setup or the query of an
  // incoming one.
  lemma NamedGoesOn(h: Host, i: nat)
    requires SettledBut(h, i) && i < MAX_DEVICES
    requires var d := h.devices[i];
             && Fresh(d) && !d.ble && d.name != Unnamed && (d.incoming <==> d.wentUp)
             && (d.state == NameFetched || d.state == HidFetched)
    ensures var d := h.devices[i];
            Settled(if !d.incoming then SetState(h, i, ControlRequested)
                    else if d.query == NotNeeded then SetReady(h, i)
                    else SdpStart(h, i))
  {
    var d := h.devices[i];
    assert SlotOk(h, i);
    if !d.incoming {
      MoveSettles(h, SetState(h, i, ControlRequested), i, d.(state := ControlRequested));
    } else if d.query == NotNeeded {
      SetReadySettles(h, i);
    } else {
      SdpStartSettles(h, i);
    }
  }

  lemma NamedSettles(h: Host, i: nat)
    requires SettledBut(h, i) && i < MAX_DEVICES && Moving(h.devices[i]) && h.devices[i].state == NameFetched
    ensures Settled(ProcessNamed(h, i))
  {
    var d := h.devices[i];
    assert SlotOk(h, i);
    if d.name == WirelessController {
      MoveSettles(h, SetQuery(h, i, BeforeConnect), i, d.(query := BeforeConnect));
      SdpStartSettles(SetQuery(h, i, BeforeConnect), i);
    } else {
      var known := if d.name.Known?
        then SetState(SetQuery(Guess(h, i, d.name.parser), i, NotNeeded), i, HidFetched) else h;
      MoveSettles(h, known, i, known.devices[i]);
      NamedGoesOn(known, i);
    }
  }

  lemma InterruptSettles(h: Host, i: nat)
    requires SettledBut(h, i) && i < MAX_DEVICES && Moving(h.devices[i]) && h.devices[i].state == InterruptConnected
    ensures Settled(Process(h, i))
  {
    var d := h.devices[i];
    assert SlotOk(h, i);
    if d.name == Unnamed {
      MoveSettles(h, Process(h, i), i, d.(state := NameInquired));
    } else if d.query == AfterConnect {
      SdpStartSettles(h, i);
    } else {
      SetReadySettles(h, i);
    }
  }

  lemma ProcessSettles(h: Host, i: nat)
    requires SettledBut(h, i) && i < MAX_DEVICES && Moving(h.devices[i])
    requires h.devices[i].state == VendorFetched ==> h.sdp.Some?
    ensures Settled(Process(h, i))
  {
    var d := h.devices[i];
    assert SlotOk(h, i);
    match d.state
    case Discovered => MoveSettles(h, Process(h, i), i, d.(state := NameInquired));
    case NameFetched => NamedSettles(h, i);
    case VendorFetched => VendorFetchedSettles(h, i);
    case HidFetched => HidFetchedSettles(h, i);
    case ControlConnected =>
      MoveSettles(h, Process(h, i), i, if d.incoming then d else d.(state := InterruptRequested));
    case InterruptConnected => InterruptSettles(h, i);
  }

  // A device at rest stays where it is when the machine is called again.
  lemma ProcessRests(h: Host, i: nat)
    requires Settled(h) && i < MAX_DEVICES && h.devices[i].addr != 0 && h.devices[i].parent.None?
    ensures Process(h, i) == h
  {
    assert StageAt(h, i);
  }

  // ---------------------------------------------------------------------------
  // What is assumed of the events
  // ---------------------------------------------------------------------------

  // The device the machine knows at an address, if any, satisfies p.
  predicate IfKnown(h: Host, addr: nat, p: Device -> bool)
    requires Sized(h)
  {
    var slot := Lookup(h, addr);
    slot.Some? ==> p(h.devices[slot.value])
  }

  // Once a device is on its way, "incoming" does not change any more.
  predicate MayComeIn(d: Device) { d.incoming || d.ble || d.state == PendingReady || d.state == Ready }

  // A channel opens only on a device that waits for it.
  predicate AwaitsChannel(d: Device, psm: Psm) {
    match psm
    case Control => !d.ble && d.state == (if d.incoming then Idle else ControlRequested)
    case Interrupt => !d.ble && d.state == (if d.incoming then ControlConnected else InterruptRequested)
    case OtherPsm => true
  }

  predicate AwaitsName(d: Device) { d.state == NameInquired || d.state == PendingReady || d.state == Ready }

  predicate Querying(d: Device) { d.state == VendorRequested || d.state == HidRequested }

  // SDP answers belong to the query in progress: the slot that holds the lock is still the one that asked.
  predicate AnswerIsAwaited(h: Host)
    requires Sized(h)
  {
    h.sdp.Some? ==> Real(h, h.sdp.value) && Querying(h.devices[h.sdp.value])
  }

  predicate Real(h: Host, i: nat)
    requires Sized(h)
  {
    i < MAX_DEVICES && h.devices[i].addr != 0 && h.devices[i].parent.None?
  }

  predicate Plausible(h: Host, e: Event)
    requires Sized(h)
  {
    match e
    case ConnectionRequest(addr) => addr != 0 && IfKnown(h, addr, MayComeIn)
    case IncomingChannel(addr, psm) => addr != 0 && (psm == Control ==> IfKnown(h, addr, MayComeIn))
    case ChannelOpened(addr, psm, ok) => addr != 0 && (ok ==> IfKnown(h, addr, d => AwaitsChannel(d, psm)))
    case InquiryResult(addr, name) => addr != 0
    case NameComplete(addr, name) => addr != 0 && name != Unnamed && IfKnown(h, addr, AwaitsName)
    case NameTimeout(i) => Real(h, i) && h.devices[i].state == NameInquired
    case VendorResult(parser) => AnswerIsAwaited(h)
    case HidResult => AnswerIsAwaited(h)
    case SdpTimeout => true
    case SetupDone(i) => Real(h, i) && h.devices[i].state == PendingReady
    case ConnectionTimeout(i) => Real(h, i)
    case Gone(i) => i < MAX_DEVICES
    case BleAdvertised(addr, name) => addr != 0 && name != Unnamed
    case BleConnected(i, parser) => Real(h, i) && h.devices[i].ble && h.devices[i].state == Discovered
    case VirtualSwitch(enabled) => true
  }

  // ---------------------------------------------------------------------------
  // Every event settles
  // ---------------------------------------------------------------------------

  lemma CreateSettles(h: Host, addr: nat)
    requires Settled(h) && addr != 0 && Lookup(h, addr).None?
    ensures var (r, slot) := Create(h, addr);
            && r.told == h.told
            && (slot.Some? ==> SettledBut(r, slot.value) && r == With(h, slot.value, Cleared(addr)))
            && (slot.None? ==> r == h)
  {
    CreateKeepsTable(h, addr);
    var (r, slot) := Create(h, addr);
    if slot.Some? {
      forall k: nat | k < MAX_DEVICES && k != slot.value
        ensures StageAt(r, k)
      {
        assert StageAt(h, k);
      }
      forall i: nat, k: nat | i < MAX_DEVICES && k < MAX_DEVICES
        ensures Unalike(r, i, k)
      {
        assert Unalike(h, i, k);
      }
    }
  }

  lemma IncomingSettles(h: Host, addr: nat)
    requires Settled(h) && addr != 0 && IfKnown(h, addr, MayComeIn)
    ensures Settled(OnIncoming(h, addr))
  {
    var (made, slot) := LookupOrCreate(h, addr);
    if Lookup(h, addr).Some? {
      var i := slot.value;
      assert SlotOk(h, i) && StageAt(h, i);
      MoveSettles(h, SetIncoming(h, i), i, h.devices[i].(incoming := true));
    } else {
      CreateSettles(h, addr);
      if slot.Some? {
        MoveSettles(made, SetIncoming(made, slot.value), slot.value, made.devices[slot.value].(incoming := true));
      }
    }
  }

  lemma {:induction false} LookupFindsNone(ds: seq<Device>, addr: nat, i: nat)
    requires i <= |ds| && forall k :: i <= k < |ds| ==> !(ds[k].parent.None? && ds[k].addr == addr)
    ensures ByAddress(ds, addr, i) == None
    decreases |ds| - i
  {
    if i < |ds| { LookupFindsNone(ds, addr, i + 1); }
  }

  // After a drop nobody has the address any more.
  lemma DroppedIsUnknown(h: Host, i: nat)
    requires Settled(h) && Real(h, i)
    ensures Lookup(Drop(h, i), h.devices[i].addr) == None
  {
    DropClears(h, i);
    var r := Drop(h, i);
    forall k | 0 <= k < |r.devices|
      ensures !(r.devices[k].parent.None? && r.devices[k].addr == h.devices[i].addr)
    {
      assert Unalike(h, i, k);
    }
    LookupFindsNone(r.devices, h.devices[i].addr, 0);
  }

  lemma IncomingChannelSettles(h: Host, addr: nat, psm: Psm)
    requires Settled(h) && Plausible(h, IncomingChannel(addr, psm))
    ensures Settled(OnIncomingChannel(h, addr, psm))
  {
    var slot := Lookup(h, addr);
    if slot.Some? && h.devices[slot.value].state == Ready {
      DropSettles(h, slot.value);
      DroppedIsUnknown(h, slot.value);
      if psm == Control { IncomingSettles(Drop(h, slot.value), addr); }
    } else if psm == Control {
      IncomingSettles(h, addr);
    }
  }

  lemma ChannelOpenedSettles(h: Host, i: nat, psm: Psm, ok: bool)
    requires Settled(h) && Real(h, i) && (ok ==> AwaitsChannel(h.devices[i], psm))
    ensures Settled(OnChannelOpened(h, i, psm, ok))
  {
    var d := h.devices[i];
    assert StageAt(h, i) && SlotOk(h, i);
    if !ok {
      DropSettles(h, i);
    } else {
      match psm
      case Control =>
        MoveSettles(h, SetState(h, i, ControlConnected), i, d.(state := ControlConnected));
        ProcessSettles(SetState(h, i, ControlConnected), i);
      case Interrupt =>
        var moved := Connect(SetState(h, i, InterruptConnected), i);
        MoveSettles(h, moved, i, d.(state := InterruptConnected, connected := true, seat := NO_SEAT, wentUp := true));
        ProcessSettles(moved, i);
      case OtherPsm => ProcessRests(h, i);
    }
  }

  lemma InquirySettles(h: Host, addr: nat, name: Name)
    requires Settled(h) && addr != 0
    ensures Settled(OnInquiryResult(h, addr, name))
  {
    var known := Lookup(h, addr);
    if known.Some? {
      ProcessRests(h, known.value);
    } else {
      CreateSettles(h, addr);
      var (made, slot) := Create(h, addr);
      if slot.Some? {
        var i := slot.value;
        var found := With(made, i, Found(made.devices[i], name));
        MoveSettles(made, found, i, Found(made.devices[i], name));
        ProcessSettles(found, i);
      }
    }
  }

  lemma NameArrives(h: Host, i: nat, name: Name)
    requires Settled(h) && Real(h, i) && h.devices[i].state == NameInquired && name != Unnamed
    ensures Settled(Process(SetState(SetName(h, i, name), i, NameFetched), i))
  {
    var d := h.devices[i];
    assert StageAt(h, i) && SlotOk(h, i);
    var named := SetState(SetName(h, i, name), i, NameFetched);
    MoveSettles(h, named, i, d.(name := name, state := NameFetched));
    ProcessSettles(named, i);
  }

  lemma NameSettles(h: Host, i: nat, name: Name)
    requires Settled(h) && Real(h, i) && AwaitsName(h.devices[i]) && name != Unnamed
    ensures Settled(OnNameComplete(h, i, name))
  {
    if h.devices[i].state == NameInquired {
      NameArrives(h, i, name);
    } else {
      assert StageAt(h, i) && SlotOk(h, i);
      MoveSettles(h, SetName(h, i, name), i, h.devices[i].(name := name));
    }
  }

  lemma VendorSettles(h: Host, parser: Parser)
    requires Settled(h) && AnswerIsAwaited(h) && h.sdp.Some?
    ensures Settled(OnVendorResult(h, h.sdp.value, parser))
  {
    var i := h.sdp.value;
    assert StageAt(h, i) && SlotOk(h, i);
    var moved := SetState(Guess(h, i, parser), i, VendorFetched);
    MoveSettles(h, moved, i, moved.devices[i]);
    ProcessSettles(moved, i);
  }

  lemma BleAdvertisedSettles(h: Host, addr: nat, name: Name)
    requires Settled(h) && addr != 0 && name != Unnamed
    ensures Settled(OnBleAdvertised(h, addr, name))
  {
    if Lookup(h, addr).None? {
      CreateSettles(h, addr);
      var (made, slot) := Create(h, addr);
      if slot.Some? {
        var r := OnBleAdvertised(h, addr, name);
        MoveSettles(made, r, slot.value, r.devices[slot.value]);
      }
    }
  }

  lemma BleConnectedSettles(h: Host, i: nat, parser: Parser)
    requires Settled(h) && Plausible(h, BleConnected(i, parser))
    ensures Settled(Handle(h, BleConnected(i, parser)))
  {
    assert StageAt(h, i) && SlotOk(h, i);
    var up := Connect(Guess(h, i, parser), i);
    MoveSettles(h, up, i, up.devices[i]);
    SetReadySettles(up, i);
  }

  // The SDP lock and the switch for virtual devices matter to nobody who rests.
  lemma SwitchSettles(h: Host, r: Host)
    requires Settled(h)
    requires r.devices == h.devices && r.seats == h.seats && r.used == h.used && r.told == h.told
    requires r.severed == h.severed
    ensures Settled(r)
  {
    assert StageAt(h, 0) && SlotOk(h, 0);
    MoveSettles(h, r, 0, h.devices[0]);
  }

  lemma StepSettles(h: Host, e: Event)
    requires Settled(h) && Plausible(h, e)
    ensures Settled(Handle(h, e))
  {
    match e
    case ConnectionRequest(addr) => IncomingSettles(h, addr);
    case IncomingChannel(addr, psm) => IncomingChannelSettles(h, addr, psm);
    case ChannelOpened(addr, psm, ok) =>
      if Lookup(h, addr).Some? { ChannelOpenedSettles(h, Lookup(h, addr).value, psm, ok); }
    case InquiryResult(addr, name) => InquirySettles(h, addr, name);
    case NameComplete(addr, name) =>
      if Lookup(h, addr).Some? { NameSettles(h, Lookup(h, addr).value, name); }
    case NameTimeout(i) => NameSettles(h, i, Plain);
    case VendorResult(parser) => if h.sdp.Some? { VendorSettles(h, parser); }
    case HidResult => HidSettles(h);
    case SdpTimeout => SwitchSettles(h, h.(sdp := None));
    case SetupDone(i) => SetupDoneSettles(h, i);
    case ConnectionTimeout(i) => if h.devices[i].state != Ready { DropSettles(h, i); }
    case Gone(i) => DropSettles(h, i);
    case BleAdvertised(addr, name) => BleAdvertisedSettles(h, addr, name);
    case BleConnected(i, parser) => BleConnectedSettles(h, i, parser);
    case VirtualSwitch(enabled) => SwitchSettles(h, h.(virtualEnabled := enabled));
  }

  lemma HidSettles(h: Host)
    requires Settled(h) && AnswerIsAwaited(h)
    ensures Settled(Handle(h, HidResult))
  {
    if h.sdp.Some? {
      assert StageAt(h, h.sdp.value);
      SdpEndSettles(h, h.sdp.value);
    }
  }

  lemma SetupDoneSettles(h: Host, i: nat)
    requires Settled(h) && Plausible(h, SetupDone(i))
    ensures Settled(FinishSetup(h, i))
  {
    assert StageAt(h, i);
    FinishSettles(h, i);
  }

  // ---------------------------------------------------------------------------
  // Whole runs
  // ---------------------------------------------------------------------------

  predicate PlausibleRun(h: Host, es: seq<Event>)
    requires Sized(h)
    decreases |es|
  {
    es == [] || (Plausible(h, es[0]) && PlausibleRun(Handle(h, es[0]), es[1..]))
  }

  function RunEvents(h: Host, es: seq<Event>): (r: Host)
    requires Sized(h)
    ensures Sized(r)
    decreases |es|
  {
    if es == [] then h else RunEvents(Handle(h, es[0]), es[1..])
  }

  lemma {:induction false} RunSettles(h: Host, es: seq<Event>)
    requires Settled(h) && PlausibleRun(h, es)
    ensures Settled(RunEvents(h, es))
    decreases |es|
  {
    if es != [] {
      StepSettles(h, es[0]);
      RunSettles(Handle(h, es[0]), es[1..]);
    }
  }

  lemma InitialSettled()
    ensures Settled(Initial())
  {
    InitialTable();
    var h := Initial();
    forall i: nat | i < MAX_DEVICES
      ensures StageAt(h, i)
    {
      assert h.devices[i] == Cleared(0);
    }
    forall i: nat, k: nat | i < MAX_DEVICES && k < MAX_DEVICES
      ensures Unalike(h, i, k)
    {
      assert h.devices[i] == Cleared(0);
    }
  }

  // Over every run: whoever was told to set up was connected over its own channels and had not been told
  // before in that life; a device is being set up, or ready, exactly when it was told once; it is ready only
  // with a seat; and everything the table promises holds.
  lemma SetUpOnceAndOnlyWhenUp(es: seq<Event>, i: nat)
    requires PlausibleRun(Initial(), es) && i < MAX_DEVICES
    ensures var r := RunEvents(Initial(), es); var d := r.devices[i];
            && TableInv(r)
            && (forall k :: 0 <= k < |r.told| ==> FirstSetup(r.told[k]))
            && (Real(r, i) ==> d.setups <= 1 && (d.setups == 1 <==> d.state == PendingReady || d.state == Ready))
            && (Real(r, i) && d.setups == 1 ==> d.connected && d.wentUp)
            && (Real(r, i) && d.state == Ready ==> Seated(d))
  {
    InitialSettled();
    RunSettles(Initial(), es);
    var r := RunEvents(Initial(), es);
    assert StageAt(r, i) && SlotOk(r, i);
  }

  // Nobody who is told to set up is turned away: the device ends seated, now or when its parser is done.
  lemma NobodyIsRefused(h: Host, i: nat)
    requires Settled(h) && Plausible(h, SetupDone(i))
    ensures var d := Handle(h, SetupDone(i)).devices[i];
            d.addr == h.devices[i].addr && d.state == Ready && Seated(d)
  {
    assert StageAt(h, i);
    FinishSetupShape(h, i, i);
    FinishSetupKeepsTable(h, i);
    assert SlotOk(FinishSetup(h, i), i);
  }
}
