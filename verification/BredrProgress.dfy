/** A device gets there: every event it waits for brings it closer to being set up. */
module BredrProgress {
  import opened HidTable
  import opened BredrFsm
  import opened BredrSafety
  import opened BredrFrame
  import opened Prelude

  // How many events a device at rest may still wait for. An SDP query runs at most once, before the channels
  // open or after.
  function Steps(d: Device): (n: nat)
    ensures n <= 7
  {
    match d.state
    case Idle => 5
    case NameInquired => if d.wentUp then 3 else 7
    case VendorRequested => if d.wentUp then 2 else 6
    case HidRequested => if d.wentUp then 1 else 5
    case ControlRequested => 4
    case ControlConnected => 4
    case InterruptRequested => 3
    case _ => 0
  }

  // The answer a device at rest waits for.
  predicate Awaited(h: Host, i: nat, e: Event)
    requires Sized(h) && i < MAX_DEVICES
  {
    var d := h.devices[i];
    match d.state
    case Idle => e == ChannelOpened(d.addr, Control, true)
    case NameInquired => e.NameComplete? && e.addr == d.addr && e.name != Unnamed
    case VendorRequested => e.VendorResult? && h.sdp == Some(i)
    case HidRequested => e.HidResult? && h.sdp == Some(i)
    case ControlRequested => e == ChannelOpened(d.addr, Control, true)
    case ControlConnected => e == ChannelOpened(d.addr, Interrupt, true)
    case InterruptRequested => e == ChannelOpened(d.addr, Interrupt, true)
    case _ => false
  }

  // It is the same device still, with at most n events to go.
  predicate Within(h: Host, i: nat, addr: nat, n: int)
    requires Sized(h) && i < MAX_DEVICES
  {
    var d := h.devices[i];
    d.addr == addr && d.parent.None? && !d.ble && Steps(d) <= n
  }

  // A query was needed while another was in progress.
  predicate TurnedAway(h: Host, r: Host, i: nat)
    requires Sized(h) && Sized(r) && i < MAX_DEVICES
  {
    h.sdp.Some? && r.devices[i] == Cleared(0)
  }

  lemma LookupIs(h: Host, i: nat)
    requires Settled(h) && Real(h, i)
    ensures Lookup(h, h.devices[i].addr) == Some(i)
  {
    var k := Lookup(h, h.devices[i].addr);
    if k.Some? { assert Unalike(h, i, k.value); }
  }

  lemma ReadyArrives(h: Host, i: nat)
    requires TableInv(h) && i < MAX_DEVICES
    requires Fresh(h.devices[i]) && !h.devices[i].ble && h.devices[i].wentUp && h.devices[i].state != PendingReady
    ensures Within(SetReady(h, i), i, h.devices[i].addr, 0)
  {
    var p := Pending(h, i);
    PendingKeepsTable(h, i);
    if !h.devices[i].parser.deferred { FinishSetupShape(p, i, i); }
  }

  lemma QueryStarts(h: Host, i: nat)
    requires Sized(h) && i < MAX_DEVICES && h.devices[i].parent.None? && !h.devices[i].ble
    ensures var r := SdpStart(h, i);
            if h.sdp.Some? then r.devices[i] == Cleared(0)
            else Within(r, i, h.devices[i].addr, if h.devices[i].wentUp then 2 else 6)
  {
    DropClears(h, i);
  }

  lemma HidFetchedAdvances(h: Host, i: nat)
    requires TableInv(h) && i < MAX_DEVICES && Moving(h.devices[i]) && h.devices[i].state == HidFetched
    ensures Within(Process(h, i), i, h.devices[i].addr, if h.devices[i].wentUp then 0 else 4)
  {
    var d := h.devices[i];
    if d.incoming || d.query != BeforeConnect {
      assert Process(h, i) == SetReady(h, i);
      ReadyArrives(h, i);
    }
  }

  lemma EndAdvances(h: Host, i: nat)
    requires TableInv(h) && i < MAX_DEVICES
    requires Fresh(h.devices[i]) && !h.devices[i].ble && QueryOk(h.devices[i])
    ensures Within(SdpEnd(h, i), i, h.devices[i].addr, if h.devices[i].wentUp then 0 else 4)
  {
    var fetched := SetState(h, i, HidFetched);
    assert SlotOk(h, i);
    WithKeepsTable(h, i, fetched.devices[i]);
    SameTable(fetched, fetched.(sdp := None));
    HidFetchedAdvances(fetched.(sdp := None), i);
  }

  lemma NamedAdvances(h: Host, i: nat)
    requires TableInv(h) && i < MAX_DEVICES && Moving(h.devices[i]) && h.devices[i].state == NameFetched
    ensures var d := h.devices[i]; var r := ProcessNamed(h, i);
            Within(r, i, d.addr, if d.wentUp then 2 else 6) || TurnedAway(h, r, i)
  {
    var d := h.devices[i];
    assert SlotOk(h, i);
    if d.name == WirelessController {
      QueryStarts(SetQuery(h, i, BeforeConnect), i);
    } else {
      var known := if d.name.Known?
        then SetState(SetQuery(Guess(h, i, d.name.parser), i, NotNeeded), i, HidFetched) else h;
      var e := known.devices[i];
      if d.incoming && e.query == NotNeeded {
        assert known.devices == h.devices[i := e];
        WithKeepsTable(h, i, e);
        SameTable(With(h, i, e), known);
        ReadyArrives(known, i);
      } else if d.incoming {
        QueryStarts(known, i);
      }
    }
  }

  lemma InterruptAdvances(h: Host, i: nat)
    requires TableInv(h) && i < MAX_DEVICES && Moving(h.devices[i]) && h.devices[i].state == InterruptConnected
    ensures var d := h.devices[i]; var r := Process(h, i);
            Within(r, i, d.addr, if d.incoming then 3 else 2) || (!d.incoming && TurnedAway(h, r, i))
  {
    var d := h.devices[i];
    if d.name != Unnamed {
      if d.query == AfterConnect { QueryStarts(h, i); } else { ReadyArrives(h, i); }
    }
  }

  // The vendor's answer: one more query at most, and never a new lock.
  lemma VendorAdvances(h: Host, i: nat)
    requires TableInv(h) && i < MAX_DEVICES && Moving(h.devices[i]) && h.devices[i].state == VendorFetched
        && h.sdp.Some?
    ensures Within(Process(h, i), i, h.devices[i].addr, if h.devices[i].wentUp then 1 else 5)
  {
    assert Process(h, i) == SdpStartHid(h, i);
    if !h.devices[i].parser.needsDescriptor { EndAdvances(h, i); }
  }

  lemma ChannelAdvances(h: Host, i: nat, psm: Psm)
    requires Settled(h) && Real(h, i) && psm != OtherPsm && AwaitsChannel(h.devices[i], psm)
    ensures var d := h.devices[i]; var r := OnChannelOpened(h, i, psm, true);
            Within(r, i, d.addr, Steps(d) - 1) || (d.state == InterruptRequested && TurnedAway(h, r, i))
  {
    assert StageAt(h, i) && SlotOk(h, i);
    if psm == Interrupt { InterruptOpensAdvances(h, i); }
  }

  lemma InterruptOpensAdvances(h: Host, i: nat)
    requires Settled(h) && Real(h, i) && AwaitsChannel(h.devices[i], Interrupt)
    ensures var d := h.devices[i]; var r := OnChannelOpened(h, i, Interrupt, true);
            Within(r, i, d.addr, if d.incoming then 3 else 2) || (!d.incoming && TurnedAway(h, r, i))
  {
    var d := h.devices[i];
    assert StageAt(h, i) && SlotOk(h, i);
    var moved := Connect(SetState(h, i, InterruptConnected), i);
    MoveSettles(h, moved, i, d.(state := InterruptConnected, connected := true, seat := NO_SEAT, wentUp := true));
    InterruptAdvances(moved, i);
  }

  lemma NameAdvances(h: Host, i: nat, name: Name)
    requires Settled(h) && Real(h, i) && h.devices[i].state == NameInquired && name != Unnamed
    ensures var d := h.devices[i]; var r := OnNameComplete(h, i, name);
            Within(r, i, d.addr, Steps(d) - 1) || TurnedAway(h, r, i)
  {
    var d := h.devices[i];
    assert StageAt(h, i) && SlotOk(h, i);
    var named := SetState(SetName(h, i, name), i, NameFetched);
    MoveSettles(h, named, i, d.(name := name, state := NameFetched));
    NamedAdvances(named, i);
  }

  lemma VendorResultAdvances(h: Host, i: nat, parser: Parser)
    requires Settled(h) && Real(h, i) && h.devices[i].state == VendorRequested && h.sdp == Some(i)
    ensures Within(OnVendorResult(h, i, parser), i, h.devices[i].addr, Steps(h.devices[i]) - 1)
  {
    assert StageAt(h, i) && SlotOk(h, i);
    var moved := SetState(Guess(h, i, parser), i, VendorFetched);
    MoveSettles(h, moved, i, moved.devices[i]);
    VendorAdvances(moved, i);
  }

  // Every event a device waits for leaves it with fewer to go, at most seven in all; the one exception is a
  // device that then needs a query while another is in progress, and is dropped.
  lemma EveryAnswerAdvances(h: Host, i: nat, e: Event)
    requires Settled(h) && Real(h, i) && Awaited(h, i, e)
    ensures var d := h.devices[i]; var r := Handle(h, e);
            || Within(r, i, d.addr, Steps(d) - 1)
            || ((d.state == NameInquired || d.state == InterruptRequested) && TurnedAway(h, r, i))
  {
    var d := h.devices[i];
    assert StageAt(h, i);
    LookupIs(h, i);
    match e
    case ChannelOpened(addr, psm, ok) => ChannelAdvances(h, i, psm);
    case NameComplete(addr, name) => NameAdvances(h, i, name);
    case VendorResult(parser) => VendorResultAdvances(h, i, parser);
    case HidResult => EndAdvances(h, i);
  }

  // With nothing left to wait for, it has been told to set up.
  lemma NothingLeftMeansTold(h: Host, i: nat)
    requires Settled(h) && Real(h, i) && !h.devices[i].ble
    ensures Steps(h.devices[i]) == 0 <==> h.devices[i].setups == 1
  {
    assert StageAt(h, i);
  }

  // ---------------------------------------------------------------------------
  // Whole runs
  // ---------------------------------------------------------------------------

  lemma OneEvent(h: Host, i: nat, e: Event)
    requires Settled(h) && Real(h, i) && Alone(h, i) && !h.devices[i].ble
    requires Plausible(h, e) && (Awaited(h, i, e) || !Concerns(h, i, e))
    ensures var d, r := h.devices[i], Handle(h, e);
            TurnedAway(h, r, i) || Within(r, i, d.addr, Steps(d) - if Awaited(h, i, e) then 1 else 0)
  {
    if Awaited(h, i, e) { EveryAnswerAdvances(h, i, e); } else { OthersAreLeftAlone(h, i, e); }
  }

  // What an event takes off what a device waits for.
  function Cost(h: Host, i: nat, e: Event): nat
    requires Sized(h) && i < MAX_DEVICES
  {
    if Awaited(h, i, e) then 1 else 0
  }

  // It is on its way still, in a settled table, and nobody's child.
  ghost predicate OnItsWay(r: Host, i: nat, addr: nat, n: int) {
    Settled(r) && Real(r, i) && Alone(r, i) && Within(r, i, addr, n)
  }

  lemma FirstEvent(h: Host, i: nat, e: Event, addr: nat, n: int, r: Host)
    requires OnItsWay(h, i, addr, n) && r == Handle(h, e)
    requires Plausible(h, e) && (Awaited(h, i, e) || !Concerns(h, i, e))
    ensures TurnedAway(h, r, i) || OnItsWay(r, i, addr, n - Cost(h, i, e))
  {
    OneEvent(h, i, e);
    OthersAreLeftAlone(h, i, e);
    StepSettles(h, e);
  }

  // One event of a run, of which hs are the tables in between: it is one the device waits for, or is not about
  // it.
  ghost predicate StepAt(i: nat, hs: seq<Host>, es: seq<Event>, k: nat) {
    && i < MAX_DEVICES && k < |es| && k + 1 < |hs| && Sized(hs[k])
    && hs[k + 1] == Handle(hs[k], es[k])
    && Plausible(hs[k], es[k]) && (Awaited(hs[k], i, es[k]) || !Concerns(hs[k], i, es[k]))
  }

  ghost predicate Undisturbed(i: nat, hs: seq<Host>, es: seq<Event>) {
    |hs| == |es| + 1 && forall k: nat :: k < |es| ==> StepAt(i, hs, es, k)
  }

  ghost predicate TurnedAwayAt(i: nat, hs: seq<Host>, k: nat) {
    i < MAX_DEVICES && k + 1 < |hs| && Sized(hs[k]) && Sized(hs[k + 1]) && TurnedAway(hs[k], hs[k + 1], i)
  }

  // The answers among the first n events.
  ghost function Answers(i: nat, hs: seq<Host>, es: seq<Event>, n: nat): nat
    requires Undisturbed(i, hs, es) && n <= |es|
  {
    if n == 0 then 0
    else
      var m := n - 1;
      assert StepAt(i, hs, es, m);
      Answers(i, hs, es, m) + Cost(hs[m], i, es[m])
  }

  // Every run in which a device gets the answers it waits for, mixed with any events of others: as long as it
  // is not turned away, each answer counts.
  lemma {:induction false} EveryRunAdvances(i: nat, hs: seq<Host>, es: seq<Event>, n: nat, addr: nat, left: int)
    requires Undisturbed(i, hs, es) && n <= |es| && OnItsWay(hs[0], i, addr, left)
    requires forall k: nat :: k < n ==> !TurnedAwayAt(i, hs, k)
    ensures OnItsWay(hs[n], i, addr, left - Answers(i, hs, es, n))
    decreases n
  {
    if n > 0 {
      var m := n - 1;
      EveryRunAdvances(i, hs, es, m, addr, left);
      assert StepAt(i, hs, es, m) && !TurnedAwayAt(i, hs, m);
      FirstEvent(hs[m], i, es[m], addr, left - Answers(i, hs, es, m), hs[n]);
    }
  }

  lemma StepsAreNeverNegative(h: Host, i: nat, addr: nat, n: int)
    requires OnItsWay(h, i, addr, n)
    ensures n >= 0
  {
  }

  // So it waits for no more answers than it had to, and after the last it has been told to set up.
  lemma ItGetsThere(i: nat, hs: seq<Host>, es: seq<Event>)
    requires Undisturbed(i, hs, es) && Settled(hs[0]) && Real(hs[0], i) && Alone(hs[0], i) && !hs[0].devices[i].ble
    requires forall k: nat :: k < |es| ==> !TurnedAwayAt(i, hs, k)
    ensures Answers(i, hs, es, |es|) <= Steps(hs[0].devices[i]) <= 7
    ensures Answers(i, hs, es, |es|) == Steps(hs[0].devices[i]) ==> Sized(hs[|es|]) && hs[|es|].devices[i].setups == 1
  {
    var d, r, n := hs[0].devices[i], hs[|es|], |es|;
    var left := Steps(d) - Answers(i, hs, es, n);
    EveryRunAdvances(i, hs, es, n, d.addr, Steps(d));
    StepsAreNeverNegative(r, i, d.addr, left);
    if left == 0 { NothingLeftMeansTold(r, i); }
  }
}
