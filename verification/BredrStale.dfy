/** What a late SDP answer does.

    Deleting a device leaves the SDP lock on its slot, and the stack reports a query as complete also when
    its channel closes. The answer then goes to whatever the slot holds by now. This module says exactly when
    that is wrong, for either answer and in any table, and gives runs in which it happens. */
module BredrStale {
  import opened HidTable
  import opened BredrFsm
  import opened BredrSafety
  import opened BredrTold
  import opened Prelude

  // ---------------------------------------------------------------------------
  // Who is told, exactly
  // ---------------------------------------------------------------------------

  predicate IsAnswer(e: Event) { e.VendorResult? || e.HidResult? }

  // The parser the device has once the answer is in.
  function ParserThen(d: Device, e: Event): Parser {
    if e.VendorResult? && !d.typed then e.parser else d.parser
  }

  // The end of a query tells its device to set up, unless the query came before an outgoing connection; the
  // vendor's answer ends the query if no HID descriptor is needed.
  predicate Tells(d: Device, e: Event) {
    && (d.incoming || d.query != BeforeConnect)
    && (e.VendorResult? ==> !ParserThen(d, e).needsDescriptor)
  }

  lemma DropKeepsLock(h: Host, i: nat)
    requires Sized(h) && i < MAX_DEVICES
    ensures Drop(h, i).sdp == h.sdp && Drop(h, i).told == h.told
  {
    DropClears(h, i);
  }

  // The table in which the machine goes on when a query ends.
  function Ended(h: Host, i: nat): (r: Host)
    requires Sized(h) && i < MAX_DEVICES
    ensures Sized(r)
  {
    SetState(h, i, HidFetched).(sdp := None)
  }

  // The table from which the query ends, if it does.
  function Answered(h: Host, i: nat, e: Event): (r: Host)
    requires Sized(h) && i < MAX_DEVICES && IsAnswer(e)
    ensures Sized(r)
  {
    match e
    case VendorResult(parser) => SetState(Guess(h, i, parser), i, VendorFetched)
    case HidResult => h
  }

  lemma AnswerEnds(h: Host, i: nat, e: Event)
    requires Sized(h) && i < MAX_DEVICES && h.sdp == Some(i) && IsAnswer(e)
    ensures var a := Answered(h, i, e);
            Handle(h, e) == if e.VendorResult? && ParserThen(h.devices[i], e).needsDescriptor
                            then SetState(a, i, HidRequested) else SdpEnd(a, i)
  {
    var a := Answered(h, i, e);
    if e.VendorResult? { assert Handle(h, e) == Process(a, i) == SdpStartHid(a, i); }
  }

  // The record with the news of the answer in it: nothing of its history differs.
  function Informed(d: Device, e: Event): (r: Device)
    ensures r.addr == d.addr && r.wentUp == d.wentUp && r.setups == d.setups
    ensures r.connected == d.connected && r.seat == d.seat && r.incoming == d.incoming
  {
    d.(state := HidFetched, typed := d.typed || e.VendorResult?, parser := ParserThen(d, e))
  }

  // In any table, and for either answer: the slot that holds the lock is told exactly if Tells says so.
  lemma AnswerTells(h: Host, i: nat, e: Event)
    requires Sized(h) && i < MAX_DEVICES && h.sdp == Some(i) && IsAnswer(e)
    ensures var d := h.devices[i];
            Handle(h, e).told == if Tells(d, e) then h.told + [Informed(d, e)] else h.told
  {
    EventTells(h, e);
    var d := h.devices[i];
    assert Subject(h, e).Some? && Speaks(Subject(h, e).value) == Tells(d, e);
    if Tells(d, e) { assert News(h, e) == [Informed(d, e)]; }
  }

  // Too soon: the transport of the slot that holds the lock never came up.
  lemma TellsTooSoon(h: Host, i: nat, e: Event)
    requires Sized(h) && i < MAX_DEVICES && h.sdp == Some(i) && IsAnswer(e)
    ensures var d, told := h.devices[i], Handle(h, e).told;
            (|told| > |h.told| && !told[|h.told|].wentUp) <==> Tells(d, e) && !d.wentUp
  {
    AnswerTells(h, i, e);
  }

  // Twice: the slot that holds the lock has been told in this life.
  lemma TellsTwice(h: Host, i: nat, e: Event)
    requires Sized(h) && i < MAX_DEVICES && h.sdp == Some(i) && IsAnswer(e)
    ensures var d, told := h.devices[i], Handle(h, e).told;
            (|told| > |h.told| && told[|h.told|].setups >= 1) <==> Tells(d, e) && d.setups >= 1
  {
    AnswerTells(h, i, e);
  }

  // So an answer leaves the history of setups right if and only if it tells nobody, or somebody who is
  // connected, up, without a seat, and not told before.
  lemma AnswerIsRight(h: Host, i: nat, e: Event)
    requires Sized(h) && i < MAX_DEVICES && h.sdp == Some(i) && IsAnswer(e) && ToldOk(h.told)
    ensures ToldOk(Handle(h, e).told) <==> (Tells(h.devices[i], e) ==> FirstSetup(h.devices[i]))
  {
    AnswerTells(h, i, e);
    if Tells(h.devices[i], e) { assert Handle(h, e).told[|h.told|] == Informed(h.devices[i], e); }
  }

  // The device that asked, still waiting, meets that condition.
  lemma WhoAskedIsToldRight(h: Host, i: nat, e: Event)
    requires Settled(h) && h.sdp == Some(i) && AnswerIsAwaited(h)
    ensures Tells(h.devices[i], e) ==> FirstSetup(h.devices[i])
  {
    assert StageAt(h, i);
  }

  lemma CompletionDrops(h: Host, i: nat)
    requires TableInv(h) && Real(h, i) && h.devices[i].state != Ready
    ensures FinishSetup(h, i).devices[i] == Cleared(0) <==> !Owns(h, i, NO_SEAT)
  {
    SetReadyCompleteAnswers(h, i);
    if Owns(h, i, NO_SEAT) { FinishSetupShape(h, i, i); } else { DropClears(h, i); }
  }

  lemma EndedTable(h: Host, i: nat, e: Event)
    requires TableInv(h) && Real(h, i) && IsAnswer(e)
    ensures var p := Ended(Answered(h, i, e), i);
            TableInv(p) && p.devices[i] == Informed(h.devices[i], e)
  {
    var d, p := Informed(h.devices[i], e), Ended(Answered(h, i, e), i);
    assert SlotOk(h, i);
    assert p.devices == h.devices[i := d];
    WithKeepsTable(h, i, d);
    SameTable(With(h, i, d), p);
  }

  lemma EndReadies(h: Host, i: nat)
    requires Sized(h) && i < MAX_DEVICES && (h.devices[i].incoming || h.devices[i].query != BeforeConnect)
    ensures SdpEnd(h, i) == SetReady(Ended(h, i), i)
  {
    assert SdpEnd(h, i) == Process(Ended(h, i), i);
  }

  lemma ReadyingDrops(p: Host, i: nat)
    requires TableInv(p) && Real(p, i) && p.devices[i].state == HidFetched
    ensures var r := SetReady(p, i);
            Done(r, i, p.devices[i].parser.deferred).devices[i] == Cleared(0) <==> !Owns(p, i, NO_SEAT)
  {
    var q := Pending(p, i);
    PendingKeepsTable(p, i);
    CompletionDrops(q, i);
    if p.devices[i].parser.deferred {
      assert SetReady(p, i) == q && Handle(q, SetupDone(i)) == FinishSetup(q, i);
    } else {
      assert SetReady(p, i) == FinishSetup(q, i);
    }
  }

  lemma AnswerReadies(h: Host, i: nat, e: Event)
    requires Sized(h) && i < MAX_DEVICES && h.sdp == Some(i) && IsAnswer(e) && Tells(h.devices[i], e)
    ensures Handle(h, e) == SetReady(Ended(Answered(h, i, e), i), i)
  {
    AnswerEnds(h, i, e);
    EndReadies(Answered(h, i, e), i);
  }

  // The table once a device that was told has been set up: at once, or by the event SetupDone.
  function Done(answered: Host, i: nat, deferred: bool): (r: Host)
    requires Sized(answered) && i < MAX_DEVICES
    ensures Sized(r)
  {
    if deferred then Handle(answered, SetupDone(i)) else answered
  }

  // What becomes of a device that is told: it is dropped, now or when its parser is done, unless it is
  // connected without a seat. A device that is ready has one, so a late answer drops it.
  lemma AnswerDrops(h: Host, i: nat, e: Event)
    requires TableInv(h) && Real(h, i) && h.sdp == Some(i) && IsAnswer(e) && Tells(h.devices[i], e)
    ensures Done(Handle(h, e), i, ParserThen(h.devices[i], e).deferred).devices[i] == Cleared(0)
            <==> !Owns(h, i, NO_SEAT)
  {
    var p := Ended(Answered(h, i, e), i);
    AnswerReadies(h, i, e);
    EndedTable(h, i, e);
    ReadyingDrops(p, i);
  }

  // ---------------------------------------------------------------------------
  // Runs in which it happens
  // ---------------------------------------------------------------------------

  const LATE := Parser(true, false, false)

  // A table with at most the first slot taken.
  function Lone(d: Device, sdp: Option<nat>): (r: Host)
    ensures Sized(r) && r.devices[0] == d
  {
    Host([d, Cleared(0), Cleared(0), Cleared(0)], Initial().seats, 0, sdp, false, [], false)
  }

  lemma LoneLookup(d: Device, sdp: Option<nat>, addr: nat)
    requires addr != 0 && d.parent.None?
    ensures Lookup(Lone(d, sdp), addr) == if d.addr == addr then Some(0) else None
  {
    if d.addr != addr { LookupFindsNone(Lone(d, sdp).devices, addr, 0); }
  }

  // A device at an address: coming in, with its control channel open, and up.
  function Incoming(addr: nat): Device { Cleared(addr).(incoming := true) }

  function Up(addr: nat): Device {
    Incoming(addr).(state := NameInquired, connected := true, seat := NO_SEAT, wentUp := true)
  }

  lemma LoneComesIn(sdp: Option<nat>, addr: nat)
    requires addr != 0
    ensures Handle(Lone(Cleared(0), sdp), ConnectionRequest(addr)) == Lone(Incoming(addr), sdp)
    ensures Plausible(Lone(Cleared(0), sdp), ConnectionRequest(addr))
  {
    LoneLookup(Cleared(0), sdp, addr);
  }

  lemma LoneControlOpens(sdp: Option<nat>, addr: nat)
    requires addr != 0
    ensures var e, c := ChannelOpened(addr, Control, true), Incoming(addr).(state := ControlConnected);
            Plausible(Lone(Incoming(addr), sdp), e) && Handle(Lone(Incoming(addr), sdp), e) == Lone(c, sdp)
  {
    LoneLookup(Incoming(addr), sdp, addr);
  }

  lemma LoneInterruptOpens(sdp: Option<nat>, addr: nat)
    requires addr != 0
    ensures var e, c := ChannelOpened(addr, Interrupt, true), Incoming(addr).(state := ControlConnected);
            Plausible(Lone(c, sdp), e) && Handle(Lone(c, sdp), e) == Lone(Up(addr), sdp)
  {
    LoneLookup(Incoming(addr).(state := ControlConnected), sdp, addr);
  }

  lemma LoneAsks()
    ensures var e, q := NameComplete(1, Plain), Up(1).(name := Plain, state := VendorRequested);
            Plausible(Lone(Up(1), None), e) && Handle(Lone(Up(1), None), e) == Lone(q, Some(0))
  {
    LoneLookup(Up(1), None, 1);
    var named := SetState(SetName(Lone(Up(1), None), 0, Plain), 0, NameFetched);
    assert Handle(Lone(Up(1), None), NameComplete(1, Plain)) == Process(named, 0) == SdpStart(named, 0);
  }

  lemma LoneGoes()
    ensures var q := Lone(Up(1).(name := Plain, state := VendorRequested), Some(0));
            Plausible(q, Gone(0)) && Handle(q, Gone(0)) == Lone(Cleared(0), Some(0))
  {
  }

  ghost predicate Leads(h: Host, es: seq<Event>, r: Host)
    requires Sized(h)
  {
    PlausibleRun(h, es) && RunEvents(h, es) == r
  }

  lemma LeadsFirst(h: Host, e: Event, es: seq<Event>, next: Host, r: Host)
    requires Sized(h) && Sized(next) && Plausible(h, e) && Handle(h, e) == next && Leads(next, es, r)
    ensures Leads(h, [e] + es, r)
  {
    assert ([e] + es)[1..] == es;
  }

  // A device connects,
  function Connects(addr: nat, rest: seq<Event>): (r: seq<Event>) {
    [ConnectionRequest(addr)] + ([ChannelOpened(addr, Control, true)] + ([ChannelOpened(addr, Interrupt, true)] + rest))
  }

  // starts its query, and is dropped, with the lock still on its slot.
  function AsksAndGoes(rest: seq<Event>): (r: seq<Event>) { [NameComplete(1, Plain)] + ([Gone(0)] + rest) }

  lemma ConnectsLeads(addr: nat, sdp: Option<nat>, rest: seq<Event>, r: Host)
    requires addr != 0 && Leads(Lone(Up(addr), sdp), rest, r)
    ensures Leads(Lone(Cleared(0), sdp), Connects(addr, rest), r)
  {
    var c := Lone(Incoming(addr).(state := ControlConnected), sdp);
    LoneComesIn(sdp, addr);
    LoneControlOpens(sdp, addr);
    LoneInterruptOpens(sdp, addr);
    var one := [ChannelOpened(addr, Interrupt, true)] + rest;
    LeadsFirst(c, ChannelOpened(addr, Interrupt, true), rest, Lone(Up(addr), sdp), r);
    LeadsFirst(Lone(Incoming(addr), sdp), ChannelOpened(addr, Control, true), one, c, r);
    LeadsFirst(Lone(Cleared(0), sdp), ConnectionRequest(addr), [ChannelOpened(addr, Control, true)] + one,
               Lone(Incoming(addr), sdp), r);
  }

  lemma AsksAndGoesLeads(rest: seq<Event>, r: Host)
    requires Leads(Lone(Cleared(0), Some(0)), rest, r)
    ensures Leads(Lone(Up(1), None), AsksAndGoes(rest), r)
  {
    LoneAsks();
    LoneGoes();
    var q := Lone(Up(1).(name := Plain, state := VendorRequested), Some(0));
    LeadsFirst(q, Gone(0), rest, Lone(Cleared(0), Some(0)), r);
    LeadsFirst(Lone(Up(1), None), NameComplete(1, Plain), [Gone(0)] + rest, q, r);
  }

  // From power-on to a free first slot that holds the lock.
  lemma LockStays(rest: seq<Event>, r: Host)
    requires Leads(Lone(Cleared(0), Some(0)), rest, r)
    ensures Leads(Initial(), Connects(1, AsksAndGoes(rest)), r)
  {
    assert Initial() == Lone(Cleared(0), None);
    AsksAndGoesLeads(rest, r);
    ConnectsLeads(1, None, AsksAndGoes(rest), r);
  }

  // Too soon: a device is dropped in mid-query, another takes its slot, and the late answer tells the newcomer,
  // none of whose channels has opened. Every event but that answer is plausible.
  lemma StaleAnswerReadiesAStranger()
    ensures var es := Connects(1, AsksAndGoes([ConnectionRequest(2)] + []));
            var h := RunEvents(Initial(), es);
            var told := Handle(h, VendorResult(LATE)).told;
            && PlausibleRun(Initial(), es)
            && !Plausible(h, VendorResult(LATE))
            && |told| == 1 && !told[0].wentUp
  {
    var h := Lone(Incoming(2), Some(0));
    LoneComesIn(Some(0), 2);
    LeadsFirst(Lone(Cleared(0), Some(0)), ConnectionRequest(2), [], h, h);
    LockStays([ConnectionRequest(2)] + [], h);
    AnswerTells(h, 0, VendorResult(LATE));
  }

  // The newcomer, told as it should be: its parser is known by its name and defers its setup.
  function SettingUpLate(): Device {
    Up(2).(name := Known(LATE), typed := true, parser := LATE, query := NotNeeded, state := PendingReady, setups := 1)
  }

  lemma LoneIsTold()
    ensures var h, e := Lone(Up(2), Some(0)), NameComplete(2, Known(LATE));
            var r := Handle(h, e);
            && Plausible(h, e) && r.devices[0] == SettingUpLate() && r.sdp == Some(0)
            && |r.told| == 1 && r.told[0].addr == 2 && r.told[0].setups == 0
  {
    LoneLookup(Up(2), Some(0), 2);
    var h := Lone(Up(2), Some(0));
    var named := SetState(SetName(h, 0, Known(LATE)), 0, NameFetched);
    assert Handle(h, NameComplete(2, Known(LATE))) == Process(named, 0) == ProcessNamed(named, 0);
    var known := SetState(SetQuery(Guess(named, 0, LATE), 0, NotNeeded), 0, HidFetched);
    assert ProcessNamed(named, 0) == SetReady(known, 0) == Pending(known, 0);
  }

  // Twice: the newcomer connects and is told by its name; either answer, late, tells it again.
  lemma StaleAnswerTellsTwice(e: Event)
    requires IsAnswer(e)
    ensures var es := Connects(1, AsksAndGoes(Connects(2, [NameComplete(2, Known(LATE))] + [])));
            var h := RunEvents(Initial(), es);
            var told := Handle(h, e).told;
            && PlausibleRun(Initial(), es)
            && !Plausible(h, e)
            && |told| == 2 && told[0].addr == told[1].addr && told[0].setups == 0 && told[1].setups == 1
  {
    var n := NameComplete(2, Known(LATE));
    var h := Handle(Lone(Up(2), Some(0)), n);
    LoneIsTold();
    LeadsFirst(Lone(Up(2), Some(0)), n, [], h, h);
    ConnectsLeads(2, Some(0), [n] + [], h);
    LockStays(Connects(2, [n] + []), h);
    AnswerTells(h, 0, e);
  }

  // The newcomer, told as it should be, by a name whose parser completes at once: ready, with the first seat.
  const PROMPT := Parser(false, false, false)

  function ReadyAtOnce(): Device {
    Up(2).(name := Known(PROMPT), typed := true, parser := PROMPT, query := NotNeeded, state := Ready, seat := 0,
           setups := 1)
  }

  lemma LoneIsReady()
    ensures var h, e := Lone(Up(2), Some(0)), NameComplete(2, Known(PROMPT));
            Plausible(h, e) && Handle(h, e).devices[0] == ReadyAtOnce() && Handle(h, e).sdp == Some(0)
  {
    LoneLookup(Up(2), Some(0), 2);
    var h := Lone(Up(2), Some(0));
    var named := SetState(SetName(h, 0, Known(PROMPT)), 0, NameFetched);
    assert Handle(h, NameComplete(2, Known(PROMPT))) == Process(named, 0) == ProcessNamed(named, 0);
    var known := SetState(SetQuery(Guess(named, 0, PROMPT), 0, NotNeeded), 0, HidFetched);
    assert ProcessNamed(named, 0) == SetReady(known, 0) == FinishSetup(Pending(known, 0), 0);
    assert FreeSeat(Pending(known, 0).seats, 0) == Some(0);
  }

  // Dropped: the newcomer connects, is told by its name and gets its seat; either answer, late, drops it.
  lemma StaleAnswerDropsAReadyDevice(e: Event)
    requires IsAnswer(e)
    ensures var es := Connects(1, AsksAndGoes(Connects(2, [NameComplete(2, Known(PROMPT))] + [])));
            var h := RunEvents(Initial(), es);
            && PlausibleRun(Initial(), es)
            && !Plausible(h, e)
            && h.devices[0].addr == 2 && h.devices[0].state == Ready && Seated(h.devices[0])
            && Handle(h, e).devices[0] == Cleared(0)
  {
    var n := NameComplete(2, Known(PROMPT));
    var h := Handle(Lone(Up(2), Some(0)), n);
    LoneIsReady();
    LeadsFirst(Lone(Up(2), Some(0)), n, [], h, h);
    ConnectsLeads(2, Some(0), [n] + [], h);
    LockStays(Connects(2, [n] + []), h);
    ReadyIsDropped(Connects(1, AsksAndGoes(Connects(2, [n] + []))), h, e);
  }

  lemma ReadyIsDropped(es: seq<Event>, h: Host, e: Event)
    requires Leads(Initial(), es, h) && h.devices[0] == ReadyAtOnce() && h.sdp == Some(0) && IsAnswer(e)
    ensures Handle(h, e).devices[0] == Cleared(0)
  {
    InitialSettled();
    RunSettles(Initial(), es);
    AnswerDrops(h, 0, e);
  }
}
