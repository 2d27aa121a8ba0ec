/** What every event does, device by device: the connection machine as a table of answers, and the events that
    come from outside it. */
module BredrEffects {
  import opened HidTable
  import opened BredrFsm
  import opened BredrSafety
  import opened BredrProgress
  import opened Prelude

  // ---------------------------------------------------------------------------
  // Coming and going
  // ---------------------------------------------------------------------------

  predicate NoneFree(h: Host)
    requires Sized(h)
  {
    forall k :: 0 <= k < MAX_DEVICES ==> h.devices[k].addr != 0
  }

  predicate FirstFree(h: Host, i: nat)
    requires Sized(h)
  {
    i < MAX_DEVICES && h.devices[i].addr == 0 && forall k :: 0 <= k < i ==> h.devices[k].addr != 0
  }

  predicate IsNew(h: Host, r: Host, i: nat, d: Device)
    requires Sized(h)
  {
    FirstFree(h, i) && r == h.(devices := h.devices[i := d])
  }

  lemma CreateTakesFirst(h: Host, addr: nat)
    requires Sized(h)
    ensures var (r, slot) := Create(h, addr);
            match slot case None => NoneFree(h) && r == h case Some(i) => IsNew(h, r, i, Cleared(addr))
  {
  }

  // The device is gone, and so is its seat.
  predicate IsGone(h: Host, r: Host, i: nat)
    requires Sized(h) && Sized(r) && i < MAX_DEVICES
  {
    && r.devices[i] == Cleared(0) && r.sdp == h.sdp && r.told == h.told
    && (Seated(h.devices[i]) ==> 0 <= h.devices[i].seat < MAX_DEVICES && r.seats[h.devices[i].seat] == NO_SEAT)
  }

  lemma DropIsGone(h: Host, i: nat)
    requires TableInv(h) && i < MAX_DEVICES
    ensures IsGone(h, Drop(h, i), i)
  {
    var r := Drop(h, i);
    DropClears(h, i);
    DropKeepsTable(h, i);
    if Seated(h.devices[i]) {
      assert Pointing(h, i);
      var j: nat := h.devices[i].seat;
      SeatsHaveOneOwner(h, j);
      SeatsHaveOneOwner(r, j);
      forall k: nat | k < MAX_DEVICES
        ensures !Owns(r, k, j)
      {
        if k != i { assert Apart(h, i, k); }
      }
    }
  }

  // A device whose channel closed, or that was asked to go, or that was not ready in time.
  lemma GoneDoes(h: Host, i: nat)
    requires Settled(h) && i < MAX_DEVICES
    ensures IsGone(h, Handle(h, Gone(i)), i)
    ensures if h.devices[i].state == Ready then Handle(h, ConnectionTimeout(i)) == h
            else IsGone(h, Handle(h, ConnectionTimeout(i)), i)
  {
    DropIsGone(h, i);
  }

  lemma FailedChannelDoes(h: Host, addr: nat, psm: Psm)
    requires Settled(h) && addr != 0
    ensures var r := Handle(h, ChannelOpened(addr, psm, false));
            match Lookup(h, addr)
            case None => r == h
            case Some(i) => IsGone(h, r, i) && Lookup(r, addr) == None
  {
    if Lookup(h, addr).Some? {
      DropIsGone(h, Lookup(h, addr).value);
      DroppedIsUnknown(h, Lookup(h, addr).value);
    }
  }

  // The lock is freed, the switch is set, and nothing else.
  lemma SwitchesDo(h: Host, enabled: bool)
    requires Sized(h)
    ensures Handle(h, SdpTimeout) == h.(sdp := None)
    ensures Handle(h, VirtualSwitch(enabled)) == h.(virtualEnabled := enabled)
  {
  }

  // ---------------------------------------------------------------------------
  // Devices that come in
  // ---------------------------------------------------------------------------

  // A stranger comes in.
  ghost predicate NewComesIn(h: Host, r: Host, addr: nat)
    requires Sized(h)
  {
    if NoneFree(h) then r == h
    else exists i: nat :: IsNew(h, r, i, Cleared(addr).(incoming := true))
  }

  lemma ConnectionRequestDoes(h: Host, addr: nat)
    requires Sized(h) && addr != 0
    ensures var r := Handle(h, ConnectionRequest(addr));
            match Lookup(h, addr)
            case Some(i) => r == h.(devices := h.devices[i := h.devices[i].(incoming := true)])
            case None => NewComesIn(h, r, addr)
  {
    CreateTakesFirst(h, addr);
    if Lookup(h, addr).None? && Create(h, addr).1.Some? {
      var i := Create(h, addr).1.value;
      var r := Handle(h, ConnectionRequest(addr));
      assert r.devices == h.devices[i := Cleared(addr).(incoming := true)];
      assert IsNew(h, r, i, Cleared(addr).(incoming := true));
    }
  }

  // A channel opened anew by a device that is ready: it lost its connection without telling. It is dropped, and
  // its seat is free; if the channel is the control channel, it starts over, and otherwise it is unknown.
  lemma ReadyReopens(h: Host, addr: nat, psm: Psm, i: nat)
    requires Settled(h) && addr != 0 && Lookup(h, addr) == Some(i) && h.devices[i].state == Ready
    ensures var r := Handle(h, IncomingChannel(addr, psm)); var s := h.devices[i].seat;
            && 0 <= s < MAX_DEVICES && r.seats[s] == NO_SEAT && r.told == h.told
            && match Lookup(r, addr)
               case None => psm != Control
               case Some(k) => psm == Control && r.devices[k] == Cleared(addr).(incoming := true)
  {
    var m := Drop(h, i);
    assert SlotOk(h, i);
    DropIsGone(h, i);
    DroppedIsUnknown(h, i);
    if psm == Control {
      ConnectionRequestDoes(m, addr);
      var k: nat :| IsNew(m, OnIncoming(m, addr), k, Cleared(addr).(incoming := true));
      FoundAt(m, OnIncoming(m, addr), k, addr);
    }
  }

  lemma FoundAt(m: Host, r: Host, k: nat, addr: nat)
    requires Sized(m) && Lookup(m, addr) == None && k < MAX_DEVICES
    requires r == m.(devices := m.devices[k := Cleared(addr).(incoming := true)])
    ensures Lookup(r, addr) == Some(k)
  {
    assert r.devices[k].parent.None? && r.devices[k].addr == addr;
  }

  // From any other device, a control channel means that it is the one coming in.
  lemma OthersComeIn(h: Host, addr: nat, psm: Psm)
    requires Settled(h) && addr != 0
    requires Lookup(h, addr).Some? ==> h.devices[Lookup(h, addr).value].state != Ready
    ensures var r := Handle(h, IncomingChannel(addr, psm));
            if psm != Control then r == h
            else match Lookup(h, addr)
                 case Some(i) => r == h.(devices := h.devices[i := h.devices[i].(incoming := true)])
                 case None => NewComesIn(h, r, addr)
  {
    ConnectionRequestDoes(h, addr);
  }

  // ---------------------------------------------------------------------------
  // The machine as a table
  // ---------------------------------------------------------------------------

  // What an answer leads to: a new record, at rest; the question for the device's ids, with the lock; or the
  // setup of the device.
  datatype Outcome = Rests(d: Device) | Asks(d: Device) | Told(d: Device)

  function AfterName(d: Device): Outcome {
    match d.name
    case WirelessController => Asks(d.(query := BeforeConnect))
    case Known(parser) =>
      var k := d.(query := NotNeeded, typed := true, parser := if d.typed then d.parser else parser);
      if d.incoming then Told(k.(state := HidFetched)) else Rests(k.(state := ControlRequested))
    case _ =>
      if !d.incoming then Rests(d.(state := ControlRequested))
      else if d.query == NotNeeded then Told(d)
      else Asks(d)
  }

  // Once its ids and its descriptor are known, a device that asked before it connected opens its channels; any
  // other is set up.
  function AfterQuery(d: Device): Outcome {
    if d.incoming || d.query != BeforeConnect then Told(d.(state := HidFetched))
    else Rests(d.(state := ControlRequested))
  }

  predicate IsAnAnswer(e: Event) {
    e.NameComplete? || e.VendorResult? || e.HidResult? || (e.ChannelOpened? && e.psm != OtherPsm)
  }

  function OutcomeOf(d: Device, e: Event): Outcome
    requires IsAnAnswer(e)
  {
    match e
    case NameComplete(addr, name) => AfterName(d.(name := name, state := NameFetched))
    case VendorResult(parser) =>
      var g := d.(typed := true, parser := if d.typed then d.parser else parser);
      if g.parser.needsDescriptor then Rests(g.(state := HidRequested)) else AfterQuery(g)
    case HidResult => AfterQuery(d)
    case ChannelOpened(addr, psm, ok) =>
      if psm == Control then Rests(d.(state := if d.incoming then ControlConnected else InterruptRequested))
      else
        var up := d.(connected := true, wentUp := true, seat := NO_SEAT, state := InterruptConnected);
        if d.incoming then Rests(up.(state := NameInquired))
        else if d.query == AfterConnect then Asks(up)
        else Told(up)
  }

  // A device that is told and completes at once has the first free seat, and a child if its parser brings one,
  // virtual devices are enabled, and there is a slot.
  predicate IsReady(h: Host, r: Host, i: nat, d: Device)
    requires Sized(h) && Sized(r) && i < MAX_DEVICES
  {
    var f := r.devices[i];
    && f == d.(state := Ready, setups := d.setups + 1, seat := f.seat, child := f.child)
    && 0 <= f.seat < MAX_DEVICES && h.seats[f.seat] == NO_SEAT && r.seats[f.seat] == f.seat
    && (forall j :: 0 <= j < f.seat ==> h.seats[j] != NO_SEAT)
    && (f.child.Some? <==> d.parser.spawnsChild && h.virtualEnabled && !NoneFree(h))
  }

  ghost predicate ComesTo(h: Host, r: Host, i: nat, o: Outcome)
    requires Sized(h) && Sized(r) && i < MAX_DEVICES
  {
    match o
    case Rests(d) => r == h.(devices := h.devices[i := d])
    case Asks(d) =>
      if h.sdp.Some? then IsGone(h, r, i)
      else r == h.(devices := h.devices[i := d.(state := VendorRequested)], sdp := Some(i))
    case Told(d) =>
      && r.told == h.told + [d] && r.sdp == h.sdp
      && if d.parser.deferred
         then r.devices == h.devices[i := d.(state := PendingReady, setups := d.setups + 1)]
         else IsReady(h, r, i, d)
  }

  lemma ChildComes(done: Host, i: nat)
    requires TableInv(done) && i < MAX_DEVICES && Seated(done.devices[i]) && done.devices[i].child.None?
    ensures var r := AddChild(done, i);
            && (r.devices[i].child.Some? <==> done.virtualEnabled && !NoneFree(done))
            && (forall j :: 0 <= j < MAX_DEVICES && done.seats[j] != NO_SEAT ==> r.seats[j] == done.seats[j])
  {
    SpawnKeepsTable(done, i);
    var (born, slot) := CreateVirtual(done, i);
    assert SlotOk(done, i);
    if slot.Some? {
      ConnectKeepsTable(born, slot.value);
      SetReadyCompleteAnswers(Connect(born, slot.value), slot.value);
      TakeShape(Connect(born, slot.value), slot.value);
    }
  }

  lemma DoneComes(p: Host, i: nat)
    requires TableInv(p) && Owns(p, i, NO_SEAT) && p.devices[i].state != Ready
    ensures var (done, ok) := SetReadyComplete(p, i);
            && ok && TableInv(done) && Seated(done.devices[i]) && done.devices[i].child.None?
            && done.virtualEnabled == p.virtualEnabled && (NoneFree(done) <==> NoneFree(p))
            && var f := done.devices[i];
               && f == p.devices[i].(state := Ready, seat := f.seat)
               && 0 <= f.seat < MAX_DEVICES && p.seats[f.seat] == NO_SEAT && done.seats == p.seats[f.seat := f.seat]
               && (forall j :: 0 <= j < f.seat ==> p.seats[j] != NO_SEAT)
  {
    SetReadyCompleteAnswers(p, i);
    SeatTakenKeepsTable(p, i);
    TakeShape(p, i);
    var done := SetReadyComplete(p, i).0;
    assert done.devices == p.devices[i := done.devices[i]];
    assert SlotOk(p, i);
    forall k | 0 <= k < MAX_DEVICES
      ensures done.devices[k].addr == p.devices[k].addr
    {
    }
  }

  lemma FinishComes(p: Host, i: nat)
    requires TableInv(p) && Owns(p, i, NO_SEAT) && p.devices[i].state != Ready
    ensures var (r, d) := (FinishSetup(p, i), p.devices[i]); var f := r.devices[i];
            && f == d.(state := Ready, seat := f.seat, child := f.child)
            && 0 <= f.seat < MAX_DEVICES && p.seats[f.seat] == NO_SEAT && r.seats[f.seat] == f.seat
            && (forall j :: 0 <= j < f.seat ==> p.seats[j] != NO_SEAT)
            && (f.child.Some? <==> d.parser.spawnsChild && p.virtualEnabled && !NoneFree(p))
  {
    DoneComes(p, i);
    var done := SetReadyComplete(p, i).0;
    AddChildShape(done, i, i);
    ChildComes(done, i);
  }

  lemma ToldComes(h: Host, i: nat)
    requires TableInv(h) && i < MAX_DEVICES && Fresh(h.devices[i]) && h.devices[i].wentUp
    requires h.devices[i].state != PendingReady
    ensures ComesTo(h, SetReady(h, i), i, Told(h.devices[i]))
  {
    var p := Pending(h, i);
    PendingKeepsTable(h, i);
    if !h.devices[i].parser.deferred {
      FinishComes(p, i);
      FinishSetupShape(p, i, i);
      SameSlots(h, p);
    }
  }

  lemma SameSlots(h: Host, p: Host)
    requires Sized(h) && Sized(p) && forall k :: 0 <= k < MAX_DEVICES ==> p.devices[k].addr == h.devices[k].addr
    ensures NoneFree(h) <==> NoneFree(p)
  {
  }

  // The relation looks at slot i of the first table only through the outcome.
  lemma FromMoved(h: Host, m: Host, r: Host, i: nat, o: Outcome)
    requires Sized(h) && Sized(m) && Sized(r) && i < MAX_DEVICES && m == h.(devices := h.devices[i := m.devices[i]])
    requires m.devices[i].addr == h.devices[i].addr && ComesTo(m, r, i, o)
    requires Seated(m.devices[i]) == Seated(h.devices[i]) == false
    ensures ComesTo(h, r, i, o)
  {
    SameSlots(h, m);
    match o
    case Rests(d) => assert m.devices[i := d] == h.devices[i := d];
    case Asks(d) => assert m.devices[i := d.(state := VendorRequested)] == h.devices[i := d.(state := VendorRequested)];
    case Told(d) =>
      var e := d.(state := PendingReady, setups := d.setups + 1);
      assert m.devices[i := e] == h.devices[i := e];
  }

  lemma AskComes(h: Host, i: nat, d: Device)
    requires TableInv(h) && i < MAX_DEVICES && !Seated(h.devices[i]) && d == h.devices[i]
    ensures ComesTo(h, SdpStart(h, i), i, Asks(d))
  {
    DropIsGone(h, i);
  }

  // The table in which slot i holds d.
  lemma MovedTable(h: Host, i: nat, d: Device)
    requires TableInv(h) && i < MAX_DEVICES && SameStanding(h.devices[i], d) && Sound(d)
    requires d.parent == h.devices[i].parent && d.child == h.devices[i].child
    ensures TableInv(h.(devices := h.devices[i := d]))
  {
    WithKeepsTable(h, i, d);
  }

  lemma NameComes(h: Host, i: nat)
    requires TableInv(h) && i < MAX_DEVICES && Moving(h.devices[i]) && h.devices[i].state == NameFetched
    ensures ComesTo(h, ProcessNamed(h, i), i, AfterName(h.devices[i]))
  {
    var d, o := h.devices[i], AfterName(h.devices[i]);
    assert SlotOk(h, i);
    if d.name == WirelessController {
      var m := SetQuery(h, i, BeforeConnect);
      MovedTable(h, i, m.devices[i]);
      AskComes(m, i, o.d);
      FromMoved(h, m, SdpStart(m, i), i, o);
    } else if d.name.Known? {
      KnownComes(h, i);
    } else if d.incoming && d.query == NotNeeded {
      ToldComes(h, i);
    } else if d.incoming {
      AskComes(h, i, d);
    }
  }

  lemma KnownComes(h: Host, i: nat)
    requires TableInv(h) && i < MAX_DEVICES && Moving(h.devices[i]) && h.devices[i].state == NameFetched
    requires h.devices[i].name.Known?
    ensures ComesTo(h, ProcessNamed(h, i), i, AfterName(h.devices[i]))
  {
    var d, o := h.devices[i], AfterName(h.devices[i]);
    assert SlotOk(h, i);
    var m := SetState(SetQuery(Guess(h, i, d.name.parser), i, NotNeeded), i, HidFetched);
    var e := m.devices[i];
    assert m == h.(devices := h.devices[i := e]);
    if d.incoming {
      MovedTable(h, i, e);
      ToldComes(m, i);
      FromMoved(h, m, SetReady(m, i), i, o);
    } else {
      assert m.devices[i := e.(state := ControlRequested)] == h.devices[i := o.d];
    }
  }

  lemma QueryComes(h: Host, i: nat, d: Device)
    requires TableInv(h) && i < MAX_DEVICES && d == h.devices[i] && Fresh(d) && !d.ble && QueryOk(d)
    ensures ComesTo(h.(sdp := None), SdpEnd(h, i), i, AfterQuery(d))
  {
    var f := d.(state := HidFetched);
    var m := SetState(h, i, HidFetched).(sdp := None);
    assert SlotOk(h, i);
    MovedTable(h, i, f);
    SameTable(h.(devices := h.devices[i := f]), m);
    assert SdpEnd(h, i) == Process(m, i);
    if d.incoming || d.query != BeforeConnect {
      assert Process(m, i) == SetReady(m, i);
      ToldComes(m, i);
      FromMoved(h.(sdp := None), m, SetReady(m, i), i, AfterQuery(d));
    } else {
      assert m.devices[i := f.(state := ControlRequested)] == h.devices[i := d.(state := ControlRequested)];
    }
  }

  // Whether the answer ends the query, which frees the lock.
  predicate EndsQuery(d: Device, e: Event) {
    e.HidResult? || (e.VendorResult? && !(if d.typed then d.parser else e.parser).needsDescriptor)
  }

  lemma NameAnswerComes(h: Host, i: nat, name: Name)
    requires Settled(h) && Real(h, i) && h.devices[i].state == NameInquired && name != Unnamed
    ensures ComesTo(h, OnNameComplete(h, i, name), i, AfterName(h.devices[i].(name := name, state := NameFetched)))
  {
    var d := h.devices[i];
    assert StageAt(h, i) && SlotOk(h, i);
    var m := SetState(SetName(h, i, name), i, NameFetched);
    var e := d.(name := name, state := NameFetched);
    assert m == h.(devices := h.devices[i := e]);
    MovedTable(h, i, e);
    NameComes(m, i);
    FromMoved(h, m, ProcessNamed(m, i), i, AfterName(e));
  }

  // The table in which the answer is acted on: without the lock, if it ends the query.
  function Unlocked(h: Host, i: nat, e: Event): (r: Host)
    requires Sized(h) && i < MAX_DEVICES
    ensures Sized(r)
  {
    if EndsQuery(h.devices[i], e) then h.(sdp := None) else h
  }

  // The record once the ids are known, as the machine has it.
  function WithIds(d: Device, parser: Parser): Device {
    d.(typed := true, parser := if d.typed then d.parser else parser, state := VendorFetched)
  }

  lemma IdsLead(d: Device, e: Event)
    requires e.VendorResult?
    ensures OutcomeOf(d, e) == if EndsQuery(d, e) then AfterQuery(WithIds(d, e.parser))
                               else Rests(WithIds(d, e.parser).(state := HidRequested))
  {
  }

  lemma VendorAnswerComes(h: Host, i: nat, e: Event)
    requires Settled(h) && Real(h, i) && h.devices[i].state == VendorRequested && h.sdp == Some(i) && e.VendorResult?
    ensures ComesTo(Unlocked(h, i, e), Handle(h, e), i, OutcomeOf(h.devices[i], e))
  {
    var g := WithIds(h.devices[i], e.parser);
    var m := SetState(Guess(h, i, e.parser), i, VendorFetched);
    IdsLead(h.devices[i], e);
    assert m.devices == h.devices[i := g];
    assert Handle(h, e) == Process(m, i) == SdpStartHid(m, i);
    if EndsQuery(h.devices[i], e) { VendorEnds(h, m, i, e.parser); } else { VendorAsksMore(h, m, i, g); }
  }

  lemma VendorAsksMore(h: Host, m: Host, i: nat, g: Device)
    requires Sized(h) && i < MAX_DEVICES && h.sdp.Some? && m == h.(devices := h.devices[i := g])
    requires g.parser.needsDescriptor
    ensures SdpStartHid(m, i) == h.(devices := h.devices[i := g.(state := HidRequested)])
  {
    assert SetState(m, i, HidRequested).devices == h.devices[i := g.(state := HidRequested)];
  }

  lemma VendorEnds(h: Host, m: Host, i: nat, parser: Parser)
    requires Settled(h) && Real(h, i) && h.devices[i].state == VendorRequested
    requires m == h.(devices := h.devices[i := WithIds(h.devices[i], parser)])
    ensures ComesTo(h.(sdp := None), SdpEnd(m, i), i, AfterQuery(WithIds(h.devices[i], parser)))
  {
    assert StageAt(h, i) && SlotOk(h, i);
    IdsKnown(h, m, i, WithIds(h.devices[i], parser));
  }

  lemma IdsKnown(h: Host, m: Host, i: nat, g: Device)
    requires TableInv(h) && i < MAX_DEVICES && m == h.(devices := h.devices[i := g])
    requires Fresh(h.devices[i]) && Fresh(g) && !g.ble && QueryOk(g) && Sound(g) && g.state != PendingReady
    requires SameStanding(h.devices[i], g) && g.parent == h.devices[i].parent && g.child == h.devices[i].child
    requires g.addr == h.devices[i].addr
    ensures ComesTo(h.(sdp := None), SdpEnd(m, i), i, AfterQuery(g))
  {
    MovedTable(h, i, g);
    QueryComes(m, i, g);
    FromMoved(h.(sdp := None), m.(sdp := None), SdpEnd(m, i), i, AfterQuery(g));
  }

  lemma ChannelAnswerComes(h: Host, i: nat, psm: Psm)
    requires Settled(h) && Real(h, i) && psm != OtherPsm && AwaitsChannel(h.devices[i], psm)
    ensures ComesTo(h, OnChannelOpened(h, i, psm, true), i,
                    OutcomeOf(h.devices[i], ChannelOpened(h.devices[i].addr, psm, true)))
  {
    assert StageAt(h, i) && SlotOk(h, i);
    if psm == Control { ControlComes(h, i); } else { InterruptOpens(h, i); }
  }

  lemma ControlComes(h: Host, i: nat)
    requires Sized(h) && i < MAX_DEVICES && AwaitsChannel(h.devices[i], Control)
    requires h.devices[i].incoming <==> h.devices[i].name == Unnamed
    ensures ComesTo(h, OnChannelOpened(h, i, Control, true), i,
                    OutcomeOf(h.devices[i], ChannelOpened(h.devices[i].addr, Control, true)))
  {
    var d := h.devices[i];
    var next := d.(state := if d.incoming then ControlConnected else InterruptRequested);
    assert OnChannelOpened(h, i, Control, true).devices == h.devices[i := next];
  }

  lemma InterruptOpens(h: Host, i: nat)
    requires TableInv(h) && i < MAX_DEVICES && AwaitsChannel(h.devices[i], Interrupt)
    requires Fresh(h.devices[i]) && !h.devices[i].connected && Resting(h.devices[i])
    ensures ComesTo(h, OnChannelOpened(h, i, Interrupt, true), i,
                    OutcomeOf(h.devices[i], ChannelOpened(h.devices[i].addr, Interrupt, true)))
  {
    var o := OutcomeOf(h.devices[i], ChannelOpened(h.devices[i].addr, Interrupt, true));
    var m := Connect(SetState(h, i, InterruptConnected), i);
    var up := m.devices[i];
    assert SlotOk(h, i);
    assert m == h.(devices := h.devices[i := up]);
    MovedTable(h, i, up);
    InterruptComes(m, i, o);
    FromMoved(h, m, Process(m, i), i, o);
  }

  lemma InterruptComes(m: Host, i: nat, o: Outcome)
    requires TableInv(m) && i < MAX_DEVICES && Moving(m.devices[i]) && m.devices[i].state == InterruptConnected
    requires var up := m.devices[i];
             o == if up.incoming then Rests(up.(state := NameInquired))
                  else if up.query == AfterConnect then Asks(up) else Told(up)
    ensures ComesTo(m, Process(m, i), i, o)
  {
    var up := m.devices[i];
    if !up.incoming {
      if up.query == AfterConnect { AskComes(m, i, up); } else { ToldComes(m, i); }
    }
  }

  // Every answer a device waits for does what the table says, and nothing more to that device: it moves on, asks
  // with the lock or is dropped because another has it, or is told and set up.
  lemma AnswerDoes(h: Host, i: nat, e: Event)
    requires Settled(h) && Real(h, i) && Awaited(h, i, e)
    ensures IsAnAnswer(e)
    ensures ComesTo(Unlocked(h, i, e), Handle(h, e), i, OutcomeOf(h.devices[i], e))
  {
    assert StageAt(h, i) && SlotOk(h, i);
    LookupIs(h, i);
    match e
    case ChannelOpened(addr, psm, ok) => ChannelAnswerComes(h, i, psm);
    case NameComplete(addr, name) => NameAnswerComes(h, i, name);
    case VendorResult(parser) => VendorAnswerComes(h, i, e);
    case HidResult => QueryComes(h, i, h.devices[i]);
  }

  // ---------------------------------------------------------------------------
  // The other events
  // ---------------------------------------------------------------------------

  // A device found by inquiry: a stranger takes the first free slot, and is asked for its name, or goes on from
  // the name it came with.
  lemma InquiryDoes(h: Host, addr: nat, name: Name)
    requires Settled(h) && addr != 0
    ensures var r := Handle(h, InquiryResult(addr, name));
            if Lookup(h, addr).Some? || NoneFree(h) then r == h
            else exists i: nat :: FirstFree(h, i) && FoundComes(h, r, i, Cleared(addr).(name := name))
  {
    CreateTakesFirst(h, addr);
    var known := Lookup(h, addr);
    if known.Some? {
      ProcessRests(h, known.value);
    } else if !NoneFree(h) {
      var (made, slot) := Create(h, addr);
      NewIsFound(h, made, slot.value, addr, name);
    }
  }

  // d: the record, but for its state.
  predicate FoundComes(h: Host, r: Host, i: nat, d: Device)
    requires Sized(h) && Sized(r) && i < MAX_DEVICES
  {
    match d.name
    case Unnamed => r == h.(devices := h.devices[i := d.(state := NameInquired)])
    case Plain => r == h.(devices := h.devices[i := d.(state := ControlRequested)])
    case Known(parser) =>
      r == h.(devices := h.devices[i := d.(query := NotNeeded, typed := true, parser := parser,
                                           state := ControlRequested)])
    case WirelessController =>
      if h.sdp.Some? then r.devices[i] == Cleared(0) && r.sdp == h.sdp && r.told == h.told
      else r == h.(devices := h.devices[i := d.(query := BeforeConnect, state := VendorRequested)], sdp := Some(i))
  }

  lemma NewIsFound(h: Host, made: Host, i: nat, addr: nat, name: Name)
    requires Sized(h) && addr != 0 && Lookup(h, addr) == None && Create(h, addr) == (made, Some(i))
    ensures FirstFree(h, i) && FoundComes(h, Handle(h, InquiryResult(addr, name)), i, Cleared(addr).(name := name))
  {
    var d := Cleared(addr).(name := name);
    var m := With(made, i, Found(made.devices[i], name));
    var r := Handle(h, InquiryResult(addr, name));
    assert r == Process(m, i);
    match name
    case Unnamed => assert r.devices == h.devices[i := d.(state := NameInquired)];
    case Plain => assert r.devices == h.devices[i := d.(state := ControlRequested)];
    case Known(parser) =>
      assert r.devices == h.devices[i := d.(query := NotNeeded, typed := true, parser := parser,
                                            state := ControlRequested)];
    case WirelessController =>
      var a := SetQuery(m, i, BeforeConnect);
      assert r == SdpStart(a, i);
      DropClears(a, i);
      if h.sdp.None? { assert r.devices == h.devices[i := d.(query := BeforeConnect, state := VendorRequested)]; }
  }

  // A name that does not come in time counts as a plain one.
  lemma NameTimeoutDoes(h: Host, i: nat)
    requires Settled(h) && Plausible(h, NameTimeout(i))
    ensures ComesTo(h, Handle(h, NameTimeout(i)), i, AfterName(h.devices[i].(name := Plain, state := NameFetched)))
  {
    NameAnswerComes(h, i, Plain);
  }

  // A name that comes for a device that is being set up, or ready, is noted; a channel that is neither control
  // nor interrupt changes nothing.
  lemma NotedDo(h: Host, i: nat, name: Name)
    requires Settled(h) && Real(h, i)
    requires h.devices[i].state == PendingReady || h.devices[i].state == Ready
    ensures var d := h.devices[i];
            && Handle(h, NameComplete(d.addr, name)) == h.(devices := h.devices[i := d.(name := name)])
            && Handle(h, ChannelOpened(d.addr, OtherPsm, true)) == h
  {
    LookupIs(h, i);
    ProcessRests(h, i);
  }

  // A parser that is done makes its device ready, with the first free seat, and brings the child it may bring.
  lemma SetupDoneDoes(h: Host, i: nat)
    requires Settled(h) && Plausible(h, SetupDone(i))
    ensures var (r, d) := (Handle(h, SetupDone(i)), h.devices[i]); var f := r.devices[i];
            && f == d.(state := Ready, seat := f.seat, child := f.child)
            && 0 <= f.seat < MAX_DEVICES && h.seats[f.seat] == NO_SEAT && r.seats[f.seat] == f.seat
            && (forall j :: 0 <= j < f.seat ==> h.seats[j] != NO_SEAT)
            && (f.child.Some? <==> d.parser.spawnsChild && h.virtualEnabled && !NoneFree(h))
  {
    assert StageAt(h, i);
    FinishComes(h, i);
  }

  // A BLE device: an unknown one takes the first free slot, and once its service is connected it is set up.
  lemma BleAdvertisedDoes(h: Host, addr: nat, name: Name)
    requires Sized(h) && addr != 0
    ensures var r := Handle(h, BleAdvertised(addr, name));
            if Lookup(h, addr).Some? || NoneFree(h) then r == h
            else exists i: nat :: IsNew(h, r, i, Cleared(addr).(name := name, ble := true, state := Discovered))
  {
    CreateTakesFirst(h, addr);
    var (made, slot) := Create(h, addr);
    if Lookup(h, addr).None? && slot.Some? {
      var r := Handle(h, BleAdvertised(addr, name));
      var d := Cleared(addr).(name := name, ble := true, state := Discovered);
      assert r.devices == h.devices[slot.value := d];
      assert IsNew(h, r, slot.value, d);
    }
  }

  lemma BleConnectedDoes(h: Host, i: nat, parser: Parser)
    requires Settled(h) && Plausible(h, BleConnected(i, parser))
    ensures var d := h.devices[i];
            ComesTo(h, Handle(h, BleConnected(i, parser)), i,
                    Told(d.(typed := true, parser := if d.typed then d.parser else parser,
                            connected := true, seat := NO_SEAT, wentUp := true)))
  {
    var d := h.devices[i];
    assert StageAt(h, i) && SlotOk(h, i);
    var m := Connect(Guess(h, i, parser), i);
    var up := m.devices[i];
    assert m == h.(devices := h.devices[i := up]);
    MovedTable(h, i, up);
    ToldComes(m, i);
    FromMoved(h, m, SetReady(m, i), i, Told(up));
  }
}
