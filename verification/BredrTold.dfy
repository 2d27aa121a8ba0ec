/** Who is told to set up, exactly: by any event, in any table, with nothing assumed of either. */
module BredrTold {
  import opened HidTable
  import opened BredrFsm
  import opened BredrSafety
  import opened Prelude

  // ---------------------------------------------------------------------------
  // Whom an event tells
  // ---------------------------------------------------------------------------

  // The record on which an event calls the machine, as it stands then. A BLE device is told directly.
  function Subject(h: Host, e: Event): Option<Device>
    requires Sized(h)
  {
    match e
    case ChannelOpened(addr, psm, ok) =>
      (match Lookup(h, addr)
       case Some(i) => if ok then Some(Opened(h.devices[i], psm)) else None
       case None => None)
    case InquiryResult(addr, name) =>
      (match Lookup(h, addr)
       case Some(i) => if h.devices[i].state == Ready then None else Some(h.devices[i])
       case None => if FreeSlot(h.devices, 0).Some? then Some(Found(Cleared(addr), name)) else None)
    case NameComplete(addr, name) =>
      (match Lookup(h, addr)
       case Some(i) =>
         var d := h.devices[i];
         if d.state == PendingReady || d.state == Ready then None else Some(d.(name := name, state := NameFetched))
       case None => None)
    case NameTimeout(i) =>
      if i < MAX_DEVICES then Some(h.devices[i].(name := Plain, state := NameFetched)) else None
    case VendorResult(parser) =>
      (match h.sdp
       case Some(i) => if i < MAX_DEVICES then Some(Guessed(h.devices[i], parser).(state := VendorFetched)) else None
       case None => None)
    case HidResult =>
      (match h.sdp
       case Some(i) => if i < MAX_DEVICES then Some(h.devices[i].(state := HidFetched)) else None
       case None => None)
    case BleConnected(i, parser) =>
      if i < MAX_DEVICES
      then Some(Guessed(h.devices[i], parser).(connected := true, seat := NO_SEAT, wentUp := true))
      else None
    case _ => None
  }

  function Opened(d: Device, psm: Psm): Device {
    match psm
    case Control => d.(state := ControlConnected)
    case Interrupt => d.(state := InterruptConnected, connected := true, seat := NO_SEAT, wentUp := true)
    case OtherPsm => d
  }

  function Guessed(d: Device, parser: Parser): Device {
    if d.typed then d else d.(typed := true, parser := parser)
  }

  // Called on this record, the machine tells it to set up.
  predicate Speaks(d: Device) {
    match d.state
    case NameFetched => d.incoming && d.name != WirelessController && (d.name.Known? || d.query == NotNeeded)
    case VendorFetched => !d.parser.needsDescriptor && (d.incoming || d.query != BeforeConnect)
    case HidFetched => d.incoming || d.query != BeforeConnect
    case InterruptConnected => !d.incoming && d.name != Unnamed && d.query != AfterConnect
    case _ => false
  }

  // The record as it is told: with what its name says, or its query answered. Its history is the same.
  function Briefed(d: Device): (r: Device)
    ensures r.addr == d.addr && r.wentUp == d.wentUp && r.setups == d.setups
    ensures r.connected == d.connected && r.seat == d.seat && r.incoming == d.incoming
  {
    if d.state == NameFetched && d.name.Known? then
      Guessed(d.(query := NotNeeded, state := HidFetched), d.name.parser)
    else if d.state == VendorFetched then d.(state := HidFetched)
    else d
  }

  // Whoever an event tells: nobody, or one.
  function News(h: Host, e: Event): seq<Device>
    requires Sized(h)
  {
    match Subject(h, e)
    case None => []
    case Some(d) =>
      if e.BleConnected? then (if d.state == PendingReady then [] else [d])
      else if Speaks(d) then [Briefed(d)]
      else []
  }

  // ---------------------------------------------------------------------------
  // Dropping and finishing tell nobody
  // ---------------------------------------------------------------------------

  lemma CompleteTellsNobody(h: Host, i: nat)
    requires Sized(h) && i < MAX_DEVICES
    ensures SetReadyComplete(h, i).0.told == h.told
  {
    DropClears(OnDeviceReady(h, i).0, i);
  }

  lemma FinishTellsNobody(h: Host, i: nat)
    requires Sized(h) && i < MAX_DEVICES
    ensures FinishSetup(h, i).told == h.told
  {
    CompleteTellsNobody(h, i);
    var done := SetReadyComplete(h, i).0;
    var (born, slot) := CreateVirtual(done, i);
    if slot.Some? { CompleteTellsNobody(Connect(born, slot.value), slot.value); }
  }

  lemma SetReadyTells(h: Host, i: nat)
    requires Sized(h) && i < MAX_DEVICES
    ensures SetReady(h, i).told == if h.devices[i].state == PendingReady then h.told else h.told + [h.devices[i]]
  {
    if h.devices[i].state != PendingReady { FinishTellsNobody(Pending(h, i), i); }
  }

  // ---------------------------------------------------------------------------
  // The machine
  // ---------------------------------------------------------------------------

  lemma SdpStartTellsNobody(h: Host, i: nat)
    requires Sized(h) && i < MAX_DEVICES
    ensures SdpStart(h, i).told == h.told
  {
    DropClears(h, i);
  }

  lemma NamedTells(h: Host, i: nat)
    requires Sized(h) && i < MAX_DEVICES && h.devices[i].state == NameFetched
    ensures var d := h.devices[i]; ProcessNamed(h, i).told == if Speaks(d) then h.told + [Briefed(d)] else h.told
  {
    var d := h.devices[i];
    if d.name == WirelessController {
      SdpStartTellsNobody(SetQuery(h, i, BeforeConnect), i);
    } else {
      var known := if d.name.Known?
        then SetState(SetQuery(Guess(h, i, d.name.parser), i, NotNeeded), i, HidFetched) else h;
      assert known.devices[i] == Briefed(d);
      SdpStartTellsNobody(known, i);
      SetReadyTells(known, i);
    }
  }

  lemma EndTells(h: Host, i: nat)
    requires Sized(h) && i < MAX_DEVICES
    ensures var d := h.devices[i].(state := HidFetched);
            SdpEnd(h, i).told == if Speaks(d) then h.told + [d] else h.told
  {
    var ended := SetState(h, i, HidFetched).(sdp := None);
    assert SdpEnd(h, i) == Process(ended, i);
    SetReadyTells(ended, i);
  }

  lemma ProcessTells(h: Host, i: nat)
    requires Sized(h) && i < MAX_DEVICES
    ensures var d := h.devices[i]; Process(h, i).told == if Speaks(d) then h.told + [Briefed(d)] else h.told
  {
    match h.devices[i].state
    case NameFetched => NamedTells(h, i);
    case VendorFetched =>
      assert Process(h, i) == SdpStartHid(h, i);
      EndTells(h, i);
    case HidFetched => SetReadyTells(h, i);
    case InterruptConnected =>
      SdpStartTellsNobody(h, i);
      SetReadyTells(h, i);
    case _ =>
  }

  // ---------------------------------------------------------------------------
  // Every event, and every run
  // ---------------------------------------------------------------------------

  lemma CallTells(h: Host, moved: Host, i: nat, e: Event)
    requires Sized(h) && Sized(moved) && i < MAX_DEVICES && moved.told == h.told
    requires Handle(h, e) == Process(moved, i) && Subject(h, e) == Some(moved.devices[i]) && !e.BleConnected?
    ensures Handle(h, e).told == h.told + News(h, e)
  {
    ProcessTells(moved, i);
  }

  lemma ChannelTells(h: Host, e: Event)
    requires Sized(h) && e.ChannelOpened?
    ensures Handle(h, e).told == h.told + News(h, e)
  {
    var slot := Lookup(h, e.addr);
    if slot.Some? {
      var i := slot.value;
      DropClears(h, i);
      if e.ok {
        var moved := match e.psm
          case Control => SetState(h, i, ControlConnected)
          case Interrupt => Connect(SetState(h, i, InterruptConnected), i)
          case OtherPsm => h;
        CallTells(h, moved, i, e);
      }
    }
  }

  lemma InquiryTells(h: Host, e: Event)
    requires Sized(h) && e.InquiryResult?
    ensures Handle(h, e).told == h.told + News(h, e)
  {
    var known := Lookup(h, e.addr);
    if known.Some? {
      if h.devices[known.value].state != Ready { CallTells(h, h, known.value, e); }
    } else {
      var (made, slot) := Create(h, e.addr);
      if slot.Some? { CallTells(h, With(made, slot.value, Found(made.devices[slot.value], e.name)), slot.value, e); }
    }
  }

  lemma NameTellsNews(h: Host, e: Event)
    requires Sized(h) && (e.NameComplete? || e.NameTimeout?)
    ensures Handle(h, e).told == h.told + News(h, e)
  {
    match e
    case NameComplete(addr, name) =>
      var slot := Lookup(h, addr);
      if slot.Some? && Subject(h, e).Some? {
        CallTells(h, SetState(SetName(h, slot.value, name), slot.value, NameFetched), slot.value, e);
      }
    case NameTimeout(i) =>
      if i < MAX_DEVICES { CallTells(h, SetState(SetName(h, i, Plain), i, NameFetched), i, e); }
  }

  lemma AnswerTellsNews(h: Host, e: Event)
    requires Sized(h) && (e.VendorResult? || e.HidResult?)
    ensures Handle(h, e).told == h.told + News(h, e)
  {
    if h.sdp.Some? && h.sdp.value < MAX_DEVICES {
      var i := h.sdp.value;
      match e
      case VendorResult(parser) => CallTells(h, SetState(Guess(h, i, parser), i, VendorFetched), i, e);
      case HidResult => EndTells(h, i);
    }
  }

  lemma DropTellsNobody(h: Host, i: nat)
    requires Sized(h) && i < MAX_DEVICES
    ensures Drop(h, i).told == h.told
  {
    DropClears(h, i);
  }

  lemma BleTells(h: Host, e: Event)
    requires Sized(h) && e.BleConnected?
    ensures Handle(h, e).told == h.told + News(h, e)
  {
    if e.slot < MAX_DEVICES { SetReadyTells(Connect(Guess(h, e.slot, e.parser), e.slot), e.slot); }
  }

  lemma IncomingTellsNobody(h: Host, addr: nat, psm: Psm)
    requires Sized(h)
    ensures OnIncomingChannel(h, addr, psm).told == h.told
  {
    var slot := Lookup(h, addr);
    if slot.Some? { DropTellsNobody(h, slot.value); }
  }

  lemma OthersTellNobody(h: Host, e: Event)
    requires Sized(h) && (e.IncomingChannel? || e.SetupDone? || e.ConnectionTimeout? || e.Gone?)
    ensures Handle(h, e).told == h.told && News(h, e) == []
  {
    match e
    case IncomingChannel(addr, psm) => IncomingTellsNobody(h, addr, psm);
    case SetupDone(i) => if i < MAX_DEVICES { FinishTellsNobody(h, i); }
    case ConnectionTimeout(i) => if i < MAX_DEVICES { DropTellsNobody(h, i); }
    case Gone(i) => if i < MAX_DEVICES { DropTellsNobody(h, i); }
  }

  // An event tells exactly whom News says.
  lemma EventTells(h: Host, e: Event)
    requires Sized(h)
    ensures Handle(h, e).told == h.told + News(h, e)
  {
    match e
    case ChannelOpened(addr, psm, ok) => ChannelTells(h, e);
    case InquiryResult(addr, name) => InquiryTells(h, e);
    case NameComplete(addr, name) => NameTellsNews(h, e);
    case NameTimeout(i) => NameTellsNews(h, e);
    case VendorResult(parser) => AnswerTellsNews(h, e);
    case HidResult => AnswerTellsNews(h, e);
    case BleConnected(i, parser) => BleTells(h, e);
    case IncomingChannel(addr, psm) => OthersTellNobody(h, e);
    case SetupDone(i) => OthersTellNobody(h, e);
    case ConnectionTimeout(i) => OthersTellNobody(h, e);
    case Gone(i) => OthersTellNobody(h, e);
    case _ =>
  }

  // An event is harmless if whom it tells is connected, up, without a seat, and not told before.
  predicate Harmless(h: Host, e: Event)
    requires Sized(h)
  {
    forall d <- News(h, e) :: FirstSetup(d)
  }

  ghost predicate AllHarmless(h: Host, es: seq<Event>)
    requires Sized(h)
    decreases |es|
  {
    es == [] || (Harmless(h, es[0]) && AllHarmless(Handle(h, es[0]), es[1..]))
  }

  lemma StepIsRight(h: Host, e: Event)
    requires Sized(h)
    ensures ToldOk(Handle(h, e).told) <==> ToldOk(h.told) && Harmless(h, e)
  {
    EventTells(h, e);
    var told, news := h.told, News(h, e);
    if ToldOk(told + news) {
      assert forall k :: 0 <= k < |told| ==> (told + news)[k] == told[k];
      assert forall k :: 0 <= k < |news| ==> (told + news)[|told| + k] == news[k];
    }
  }

  // From any table, over any run whatever: everybody who was ever told was up, and told for the first time in
  // its life, if and only if every single event was harmless.
  lemma {:induction false} RunIsRight(h: Host, es: seq<Event>)
    requires Sized(h)
    ensures ToldOk(RunEvents(h, es).told) <==> ToldOk(h.told) && AllHarmless(h, es)
    decreases |es|
  {
    if es != [] {
      StepIsRight(h, es[0]);
      RunIsRight(Handle(h, es[0]), es[1..]);
    }
  }

  // In a settled table, what is plausible is harmless.
  lemma PlausibleIsHarmless(h: Host, e: Event)
    requires Settled(h) && Plausible(h, e)
    ensures Harmless(h, e)
  {
    StepSettles(h, e);
    StepIsRight(h, e);
  }
}
