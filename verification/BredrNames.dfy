/** What a late name does.

    A device whose name does not come in time gets a plain one, and the machine goes on; the request for the
    name is still out, and whatever it brings is acted on in every state but the last two. This module says
    exactly what that does, in any table, and gives runs in which it goes wrong. */
module BredrNames {
  import opened HidTable
  import opened BredrFsm
  import opened BredrSafety
  import opened BredrTold
  import opened BredrStale
  import opened Prelude

  // ---------------------------------------------------------------------------
  // What a name does, exactly
  // ---------------------------------------------------------------------------

  predicate IsMoved(d: Device) { d.state != PendingReady && d.state != Ready }

  // The name tells the device to set up.
  predicate NameSays(d: Device, name: Name) {
    IsMoved(d) && d.incoming && name != WirelessController && (name.Known? || d.query == NotNeeded)
  }

  // The name makes the device ask for its ids.
  predicate NameAsks(d: Device, name: Name) {
    IsMoved(d) && (name == WirelessController || (d.incoming && !name.Known? && d.query != NotNeeded))
  }

  // In any table: the device at the address is told exactly if NameSays says so, with the history it has.
  lemma NameTells(h: Host, i: nat, addr: nat, name: Name)
    requires Sized(h) && Lookup(h, addr) == Some(i)
    ensures var d, told := h.devices[i], Handle(h, NameComplete(addr, name)).told;
            && told == h.told + News(h, NameComplete(addr, name))
            && (if NameSays(d, name)
                then |told| == |h.told| + 1 && told[|h.told|].addr == d.addr && told[|h.told|].wentUp == d.wentUp
                     && told[|h.told|].setups == d.setups
                else told == h.told)
  {
    EventTells(h, NameComplete(addr, name));
  }

  // Too soon: its transport never came up.
  lemma NameTellsTooSoon(h: Host, i: nat, addr: nat, name: Name)
    requires Sized(h) && Lookup(h, addr) == Some(i)
    ensures var d, told := h.devices[i], Handle(h, NameComplete(addr, name)).told;
            (|told| > |h.told| && !told[|h.told|].wentUp) <==> NameSays(d, name) && !d.wentUp
  {
    NameTells(h, i, addr, name);
  }

  lemma StartDrops(h: Host, i: nat)
    requires Sized(h) && i < MAX_DEVICES && h.devices[i].addr != 0
    ensures var r := SdpStart(h, i);
            && (r.devices[i] == Cleared(0) <==> h.sdp.Some?) && (h.sdp.Some? ==> r.sdp == h.sdp)
  {
    DropClears(h, i);
  }

  // A device that is not told is dropped exactly if it has to ask while a query is in progress, be it its own;
  // the lock stays where it was.
  lemma NameDrops(h: Host, i: nat, addr: nat, name: Name)
    requires Sized(h) && Lookup(h, addr) == Some(i) && addr != 0 && !NameSays(h.devices[i], name)
    ensures var r := Handle(h, NameComplete(addr, name));
            && (r.devices[i] == Cleared(0) <==> NameAsks(h.devices[i], name) && h.sdp.Some?)
            && (r.devices[i] == Cleared(0) ==> r.sdp == h.sdp)
  {
    var d := h.devices[i];
    var named := SetState(SetName(h, i, name), i, NameFetched);
    if IsMoved(d) {
      assert Handle(h, NameComplete(addr, name)) == Process(named, i) == ProcessNamed(named, i);
      StartDrops(SetQuery(named, i, BeforeConnect), i);
      StartDrops(named, i);
    }
  }

  // ---------------------------------------------------------------------------
  // Runs in which it goes wrong
  // ---------------------------------------------------------------------------

  // A device connects, its name does not come in time, and its query starts.
  function NamelessRun(): seq<Event> { Connects(1, [NameTimeout(0)] + []) }

  function Asking(): Host { Lone(Up(1).(name := Plain, state := VendorRequested), Some(0)) }

  lemma NamelessAsks()
    ensures Leads(Initial(), NamelessRun(), Asking())
  {
    var h := Lone(Up(1), None);
    var named := SetState(SetName(h, 0, Plain), 0, NameFetched);
    assert Handle(h, NameTimeout(0)) == Process(named, 0) == SdpStart(named, 0) == Asking();
    LeadsFirst(h, NameTimeout(0), [], Asking(), Asking());
    assert Initial() == Lone(Cleared(0), None);
    ConnectsLeads(1, None, [NameTimeout(0)] + [], Asking());
  }

  lemma AskingIsTold()
    ensures var h := Asking();
            var named := Handle(h, NameComplete(1, Known(LATE)));
            && named.sdp == Some(0) && Tells(named.devices[0], HidResult) && named.devices[0].setups == 1
            && named.devices[0].addr == 1 && named.devices[0].parser == LATE && named.devices[0].typed
            && |named.told| == 1 && named.told[0].addr == 1 && named.told[0].setups == 0
  {
    var h := Asking();
    LoneLookup(h.devices[0], Some(0), 1);
    var named := SetState(SetName(h, 0, Known(LATE)), 0, NameFetched);
    assert Handle(h, NameComplete(1, Known(LATE))) == Process(named, 0) == ProcessNamed(named, 0);
  }

  lemma AskingIsToldTwice(e: Event)
    requires IsAnswer(e)
    ensures var named := Handle(Asking(), NameComplete(1, Known(LATE)));
            var told := Handle(named, e).told;
            && named.sdp == Some(0) && !Plausible(Asking(), NameComplete(1, Known(LATE)))
            && |told| == 2 && told[0].addr == told[1].addr == 1 && told[0].setups == 0 && told[1].setups == 1
  {
    AskingIsTold();
    LoneLookup(Asking().devices[0], Some(0), 1);
    AnswerTells(Handle(Asking(), NameComplete(1, Known(LATE))), 0, e);
  }

  // Twice: the name comes now, and tells the device; the answer to its own query, in time, tells it again.
  lemma LateNameTellsTwice(e: Event)
    requires IsAnswer(e)
    ensures var h := RunEvents(Initial(), NamelessRun());
            var named := Handle(h, NameComplete(1, Known(LATE)));
            var told := Handle(named, e).told;
            && PlausibleRun(Initial(), NamelessRun())
            && h.sdp == named.sdp == Some(0) && h.devices[0].state == VendorRequested
            && !Plausible(h, NameComplete(1, Known(LATE)))
            && |told| == 2 && told[0].addr == told[1].addr == 1 && told[0].setups == 0 && told[1].setups == 1
  {
    NamelessAsks();
    AskingIsToldTwice(e);
  }

  lemma AskingIsDropped()
    ensures var r := Handle(Asking(), NameComplete(1, Plain)); r.devices[0] == Cleared(0) && r.sdp == Some(0)
    ensures !Plausible(Asking(), NameComplete(1, Plain))
  {
    LoneLookup(Asking().devices[0], Some(0), 1);
    NameDrops(Asking(), 0, 1, Plain);
  }

  // Dropped: a plain name that comes now drops the device in its own query, and leaves the lock on its slot.
  lemma LateNameDrops()
    ensures var h := RunEvents(Initial(), NamelessRun());
            var r := Handle(h, NameComplete(1, Plain));
            && PlausibleRun(Initial(), NamelessRun())
            && !Plausible(h, NameComplete(1, Plain))
            && h.devices[0].addr == 1 && r.devices[0] == Cleared(0) && r.sdp == Some(0)
  {
    NamelessAsks();
    AskingIsDropped();
  }

  // Too soon: the device goes before its name comes, and comes back; the name tells it before it is up.
  lemma LateNameReadiesTooSoon()
    ensures var es := Connects(1, [Gone(0)] + ([ConnectionRequest(1)] + []));
            var h := RunEvents(Initial(), es);
            var told := Handle(h, NameComplete(1, Known(LATE))).told;
            && PlausibleRun(Initial(), es)
            && !Plausible(h, NameComplete(1, Known(LATE)))
            && |told| == 1 && !told[0].wentUp
  {
    var h := Lone(Incoming(1), None);
    assert Handle(Lone(Up(1), None), Gone(0)) == Lone(Cleared(0), None);
    LoneComesIn(None, 1);
    LeadsFirst(Lone(Cleared(0), None), ConnectionRequest(1), [], h, h);
    LeadsFirst(Lone(Up(1), None), Gone(0), [ConnectionRequest(1)] + [], Lone(Cleared(0), None), h);
    assert Initial() == Lone(Cleared(0), None);
    ConnectsLeads(1, None, [Gone(0)] + ([ConnectionRequest(1)] + []), h);
    LoneLookup(h.devices[0], None, 1);
    NameTells(h, 0, 1, Known(LATE));
  }

  // Found by inquiry, with its name asked for.
  function Asked(): Device { Cleared(1).(state := NameInquired) }

  lemma LoneIsFound()
    ensures var e := InquiryResult(1, Unnamed);
            && Plausible(Lone(Cleared(0), None), e) && Handle(Lone(Cleared(0), None), e) == Lone(Asked(), None)
  {
    LoneLookup(Cleared(0), None, 1);
    var found := Lone(Cleared(1).(state := Discovered), None);
    assert Handle(Lone(Cleared(0), None), InquiryResult(1, Unnamed)) == Process(found, 0);
  }

  // Too soon, without anything late: a device found by inquiry connects by itself before its name comes, and
  // counts as incoming from then on; the name, in time, tells it before it is up.
  lemma CrossedRequestReadiesTooSoon()
    ensures var found := RunEvents(Initial(), [InquiryResult(1, Unnamed)] + []);
            var h := Handle(found, ConnectionRequest(1));
            var told := Handle(h, NameComplete(1, Known(LATE))).told;
            && PlausibleRun(Initial(), [InquiryResult(1, Unnamed)] + [])
            && !Plausible(found, ConnectionRequest(1)) && Plausible(h, NameComplete(1, Known(LATE)))
            && |told| == 1 && !told[0].wentUp
  {
    var found, h := Lone(Asked(), None), Lone(Asked().(incoming := true), None);
    LoneIsFound();
    assert Initial() == Lone(Cleared(0), None);
    LeadsFirst(Initial(), InquiryResult(1, Unnamed), [], found, found);
    LoneLookup(found.devices[0], None, 1);
    assert Handle(found, ConnectionRequest(1)) == h;
    LoneLookup(h.devices[0], None, 1);
    NameTells(h, 0, 1, Known(LATE));
  }
}
