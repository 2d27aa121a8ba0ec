/** The table of HID devices and the seats the Arduino platform hands out.

    Devices live in a fixed array of slots; a slot is free while its address is zero. A device that
    completes its setup gets a seat, the number the application knows it by. Deleting a device clears its
    slot, which leaves seat number 0 in it, so a seat is owned only by a CONNECTED device. */
module HidTable {
  import opened Prelude

  const MAX_DEVICES: nat := 4
  const NO_SEAT := -1

  datatype ConnState =
    | Idle | Discovered | NameRequest | NameInquired | NameFetched
    | VendorRequested | VendorFetched | HidRequested | HidFetched
    | ControlRequested | ControlConnected | InterruptRequested | InterruptConnected
    | PendingReady | Ready

  // What the name says about the device: nothing special, the one name that needs its SDP query first,
  // or a name the parsers recognise.
  datatype Name = Unnamed | Plain | WirelessController | Known(parser: Parser)

  // A parser completes its setup at once, or later; some then add a virtual mouse.
  datatype Parser = Parser(deferred: bool, needsDescriptor: bool, spawnsChild: bool)

  // The parser fields of a cleared record.
  const NO_PARSER := Parser(false, false, false)

  datatype SdpQuery = AfterConnect | BeforeConnect | NotNeeded

  // `wentUp` and `setups` are history, kept to state properties: whether the transport came up in this life
  // of the slot, and how often its parser was told to set the device up.
  datatype Device = Device(
    addr: nat, state: ConnState, connected: bool, incoming: bool, ble: bool,
    name: Name, query: SdpQuery, typed: bool, parser: Parser,
    parent: Option<nat>, child: Option<nat>, seat: int,
    wentUp: bool, setups: nat)

  // A record of zero bytes, but for its address.
  function Cleared(addr: nat): Device {
    Device(addr, Idle, false, false, false, Unnamed, AfterConnect, false, NO_PARSER, None, None, 0, false, 0)
  }

  // seats[j] is j while seat j is taken; sdp is the slot whose SDP query is in progress. The last two are
  // history: every record as it was when its parser was told to set the device up, and whether a virtual
  // child was ever dropped by itself.
  datatype Host = Host(
    devices: seq<Device>, seats: seq<int>, used: int, sdp: Option<nat>, virtualEnabled: bool,
    told: seq<Device>, severed: bool)

  predicate Sized(h: Host) { |h.devices| == MAX_DEVICES && |h.seats| == MAX_DEVICES }

  function Initial(): (h: Host)
    ensures Sized(h)
  {
    Host(seq(MAX_DEVICES, i => Cleared(0)), seq(MAX_DEVICES, j => NO_SEAT), 0, None, false, [], false)
  }

  function With(h: Host, i: nat, d: Device): (r: Host)
    requires Sized(h) && i < MAX_DEVICES
    ensures Sized(r)
  {
    h.(devices := h.devices[i := d])
  }

  // ---------------------------------------------------------------------------
  // Searches: first match from slot i on
  // ---------------------------------------------------------------------------

  function FreeSlot(ds: seq<Device>, i: nat): (r: Option<nat>)
    requires i <= |ds|
    ensures r.Some? ==> i <= r.value < |ds| && ds[r.value].addr == 0 && forall k :: i <= k < r.value ==> ds[k].addr != 0
    ensures r.None? ==> forall k :: i <= k < |ds| ==> ds[k].addr != 0
    decreases |ds| - i
  {
    if i == |ds| then None else if ds[i].addr == 0 then Some(i) else FreeSlot(ds, i + 1)
  }

  // Virtual devices share their parent's address and are passed over.
  function ByAddress(ds: seq<Device>, addr: nat, i: nat): (r: Option<nat>)
    requires i <= |ds|
    ensures r.Some? ==> i <= r.value < |ds| && ds[r.value].addr == addr && ds[r.value].parent.None?
    ensures r.Some? ==> forall k :: i <= k < r.value ==> !(ds[k].parent.None? && ds[k].addr == addr)
    ensures r.None? ==> forall k :: i <= k < |ds| ==> !(ds[k].parent.None? && ds[k].addr == addr)
    decreases |ds| - i
  {
    if i == |ds| then None
    else if ds[i].parent.None? && ds[i].addr == addr then Some(i)
    else ByAddress(ds, addr, i + 1)
  }

  // The device a request queued for a seat goes to: only "ready" devices are looked at.
  function RequestTarget(ds: seq<Device>, seat: int, i: nat): (r: Option<nat>)
    requires i <= |ds|
    ensures r.Some? ==> i <= r.value < |ds| && ds[r.value].state == Ready && ds[r.value].seat == seat
    ensures r.Some? ==> forall k :: i <= k < r.value ==> !(ds[k].state == Ready && ds[k].seat == seat)
    ensures r.None? ==> forall k :: i <= k < |ds| ==> !(ds[k].state == Ready && ds[k].seat == seat)
    decreases |ds| - i
  {
    if i == |ds| then None
    else if ds[i].state == Ready && ds[i].seat == seat then Some(i)
    else RequestTarget(ds, seat, i + 1)
  }

  function FreeSeat(seats: seq<int>, j: nat): (r: Option<nat>)
    requires j <= |seats|
    ensures r.Some? ==> j <= r.value < |seats| && seats[r.value] == NO_SEAT
    ensures r.Some? ==> forall k :: j <= k < r.value ==> seats[k] != NO_SEAT
    ensures r.None? ==> forall k :: j <= k < |seats| ==> seats[k] != NO_SEAT
    decreases |seats| - j
  {
    if j == |seats| then None else if seats[j] == NO_SEAT then Some(j) else FreeSeat(seats, j + 1)
  }

  // ---------------------------------------------------------------------------
  // Operations
  // ---------------------------------------------------------------------------

  function Create(h: Host, addr: nat): (r: (Host, Option<nat>))
    requires Sized(h)
    ensures Sized(r.0) && (r.1.Some? ==> r.1.value < MAX_DEVICES)
  {
    match FreeSlot(h.devices, 0)
    case None => (h, None)
    case Some(i) => (With(h, i, Cleared(addr)), Some(i))
  }

  // A virtual child: the free slot is taken over as it is, not cleared.
  function CreateVirtual(h: Host, p: nat): (r: (Host, Option<nat>))
    requires Sized(h) && p < MAX_DEVICES
    ensures Sized(r.0) && (r.1.Some? ==> r.1.value < MAX_DEVICES)
  {
    if !h.virtualEnabled then (h, None)
    else
      match FreeSlot(h.devices, 0)
      case None => (h, None)
      case Some(i) =>
        var born := With(h, i, h.devices[i].(addr := h.devices[p].addr, parent := Some(p),
                                             typed := true, name := Plain));
        (With(born, p, born.devices[p].(child := Some(i))), Some(i))
  }

  // Marks the connection up and tells the platform, which forgets any seat.
  function Connect(h: Host, i: nat): (r: Host)
    requires Sized(h) && i < MAX_DEVICES
    ensures Sized(r)
  {
    With(h, i, h.devices[i].(connected := true, seat := NO_SEAT, wentUp := true))
  }

  // The platform's part of a disconnection: the seat, if there is one, becomes free.
  function ReleaseSeat(h: Host, i: nat): (r: Host)
    requires Sized(h) && i < MAX_DEVICES
    ensures Sized(r)
  {
    var s := h.devices[i].seat;
    if s == NO_SEAT || s < 0 || s >= MAX_DEVICES then h
    else With(h.(used := h.used - 1, seats := h.seats[s := NO_SEAT]), i, h.devices[i].(seat := NO_SEAT))
  }

  function DisconnectOne(h: Host, i: nat): (r: Host)
    requires Sized(h) && i < MAX_DEVICES
    ensures Sized(r)
  {
    var down := With(h, i, h.devices[i].(connected := false));
    if h.devices[i].connected then ReleaseSeat(down, i) else down
  }

  function ChildOf(h: Host, i: nat): (r: Option<nat>)
    requires Sized(h) && i < MAX_DEVICES
    ensures r.Some? ==> r.value < MAX_DEVICES
  {
    match h.devices[i].child
    case Some(c) => if c < MAX_DEVICES then Some(c) else None
    case None => None
  }

  // The child goes first, and its own child before it. The recursion goes n levels down; DepthIsEnough shows
  // that DEPTH levels are always all of them.
  const DEPTH := MAX_DEVICES

  function Disconnect(h: Host, i: nat, n: nat): (r: Host)
    requires Sized(h) && i < MAX_DEVICES
    ensures Sized(r)
    decreases n
  {
    var child := ChildOf(h, i);
    DisconnectOne(if child.Some? && n > 0 then Disconnect(h, child.value, n - 1) else h, i)
  }

  function Delete(h: Host, i: nat, n: nat): (r: Host)
    requires Sized(h) && i < MAX_DEVICES
    ensures Sized(r)
    decreases n
  {
    var child := ChildOf(h, i);
    With(if child.Some? && n > 0 then Delete(h, child.value, n - 1) else h, i, Cleared(0))
  }

  // Every caller that disconnects a device deletes it next.
  function Drop(h: Host, i: nat): (r: Host)
    requires Sized(h) && i < MAX_DEVICES
    ensures Sized(r)
  {
    Delete(Disconnect(h, i, DEPTH), i, DEPTH).(severed := h.severed || h.devices[i].parent.Some?)
  }

  datatype ReadyResult = Accepted | NoSlots | InvalidController | NoneFound

  // The platform's answer to a device that is ready, and the seat it takes.
  function OnDeviceReady(h: Host, i: nat): (r: (Host, ReadyResult))
    requires Sized(h) && i < MAX_DEVICES
    ensures Sized(r.0)
  {
    if h.used == MAX_DEVICES then (h, NoSlots)
    else if h.devices[i].seat != NO_SEAT then (h, InvalidController)
    else
      match FreeSeat(h.seats, 0)
      case None => (h, NoneFound)  // the search loop falls through, and the device is accepted without a seat
      case Some(j) =>
        (With(h.(used := h.used + 1, seats := h.seats[j := j]), i, h.devices[i].(seat := j)), Accepted)
  }

  function SetState(h: Host, i: nat, s: ConnState): (r: Host)
    requires Sized(h) && i < MAX_DEVICES
    ensures Sized(r)
  {
    With(h, i, h.devices[i].(state := s))
  }

  // The result says whether the platform took the device.
  function SetReadyComplete(h: Host, i: nat): (r: (Host, bool))
    requires Sized(h) && i < MAX_DEVICES
    ensures Sized(r.0)
  {
    if h.devices[i].state == Ready then (h, false)
    else
      var (asked, answer) := OnDeviceReady(h, i);
      if answer == NoSlots || answer == InvalidController then (Drop(asked, i), false)
      else (SetState(asked, i, Ready), true)
  }

  // The virtual child of a device that has just become ready connects and completes at once.
  function AddChild(h: Host, i: nat): (r: Host)
    requires Sized(h) && i < MAX_DEVICES
    ensures Sized(r)
  {
    var (born, slot) := CreateVirtual(h, i);
    match slot
    case None => born
    case Some(c) =>
      var (finished, kept) := SetReadyComplete(Connect(born, c), c);
      if kept then finished else With(finished, i, finished.devices[i].(child := None))
  }

  // A parser's last step: complete, then add the virtual child if it has one.
  function FinishSetup(h: Host, i: nat): (r: Host)
    requires Sized(h) && i < MAX_DEVICES
    ensures Sized(r)
  {
    var (done, accepted) := SetReadyComplete(h, i);
    if accepted && h.devices[i].parser.spawnsChild then AddChild(done, i) else done
  }

  function Pending(h: Host, i: nat): (r: Host)
    requires Sized(h) && i < MAX_DEVICES
    ensures Sized(r)
  {
    With(h.(told := h.told + [h.devices[i]]), i,
         h.devices[i].(state := PendingReady, setups := h.devices[i].setups + 1))
  }

  function SetReady(h: Host, i: nat): (r: Host)
    requires Sized(h) && i < MAX_DEVICES
    ensures Sized(r)
  {
    if h.devices[i].state == PendingReady then h
    else
      if h.devices[i].parser.deferred then Pending(h, i) else FinishSetup(Pending(h, i), i)
  }

  // ---------------------------------------------------------------------------
  // Invariant
  // ---------------------------------------------------------------------------

  predicate Seated(d: Device) { d.connected && d.seat != NO_SEAT }

  function CountSeated(ds: seq<Device>): nat {
    if ds == [] then 0 else (if Seated(ds[0]) then 1 else 0) + CountSeated(ds[1..])
  }

  function CountOccupied(seats: seq<int>): nat {
    if seats == [] then 0 else (if seats[0] != NO_SEAT then 1 else 0) + CountOccupied(seats[1..])
  }

  ghost predicate Owns(h: Host, i: nat, j: int)
    requires Sized(h)
  {
    i < MAX_DEVICES && h.devices[i].connected && h.devices[i].seat == j
  }

  ghost predicate HasOwner(h: Host, j: int)
    requires Sized(h)
  {
    exists i: nat :: Owns(h, i, j)
  }

  // A seat is free, or holds its own number and has an owner.
  ghost predicate SeatOk(h: Host, j: nat)
    requires Sized(h) && j < MAX_DEVICES
  {
    h.seats[j] == NO_SEAT || (h.seats[j] == j && HasOwner(h, j))
  }

  // A connected device has no seat, or one that is marked taken.
  predicate Pointing(h: Host, i: nat)
    requires Sized(h) && i < MAX_DEVICES
  {
    var d := h.devices[i];
    d.connected ==> d.seat == NO_SEAT || (0 <= d.seat < MAX_DEVICES && h.seats[d.seat] == d.seat)
  }

  predicate Apart(h: Host, i: nat, k: nat)
    requires Sized(h) && i < MAX_DEVICES && k < MAX_DEVICES
  {
    i != k && Seated(h.devices[i]) && Seated(h.devices[k]) ==> h.devices[i].seat != h.devices[k].seat
  }

  // Seats and their owners.
  ghost predicate SeatInv(h: Host) {
    && Sized(h)
    && h.used == CountOccupied(h.seats) == CountSeated(h.devices)
    && (forall j: nat :: j < MAX_DEVICES ==> SeatOk(h, j))
    && (forall i: nat :: i < MAX_DEVICES ==> Pointing(h, i))
    && (forall i: nat, k: nat :: i < MAX_DEVICES && k < MAX_DEVICES ==> Apart(h, i, k))
  }

  // A record by itself: what is not connected holds the zero of a cleared record; what is ready is seated.
  predicate Sound(d: Device) {
    && (!d.connected ==> d.seat == 0 && d.child.None?)
    && (d.state == Ready ==> Seated(d))
    && (d.child.Some? ==> Seated(d) && d.child.value < MAX_DEVICES)
    && (d.parent.Some? ==> d.parent.value < MAX_DEVICES)
    && (d.addr == 0 ==> !d.connected && d.parent.None?)
  }

  predicate SlotOk(h: Host, i: nat)
    requires Sized(h) && i < MAX_DEVICES
  {
    Sound(h.devices[i])
  }

  // Parents and children point at each other.
  predicate Kin(h: Host, i: nat, k: nat)
    requires Sized(h) && i < MAX_DEVICES && k < MAX_DEVICES
  {
    h.devices[i].child == Some(k) <==> h.devices[k].parent == Some(i)
  }

  ghost predicate Linked(h: Host)
    requires Sized(h)
  {
    forall i: nat, k: nat :: i < MAX_DEVICES && k < MAX_DEVICES ==> Kin(h, i, k)
  }

  // A child ranks higher than its parent, so no line of children comes back to where it began.
  predicate Ranks(ds: seq<Device>, rank: seq<nat>, i: nat)
    requires |ds| == |rank| == MAX_DEVICES && i < MAX_DEVICES
  {
    match ds[i].child
    case Some(c) => c < MAX_DEVICES ==> rank[i] < rank[c]
    case None => true
  }

  ghost predicate Ranked(ds: seq<Device>, rank: seq<nat>) {
    |ds| == |rank| == MAX_DEVICES && forall i: nat :: i < MAX_DEVICES ==> Ranks(ds, rank, i)
  }

  // The families: whole, unless a virtual child was dropped by itself.
  ghost predicate FamilyInv(h: Host)
    requires Sized(h)
  {
    && (forall i: nat :: i < MAX_DEVICES ==> SlotOk(h, i))
    && (exists rank :: Ranked(h.devices, rank))
    && (h.severed || Linked(h))
  }

  ghost predicate TableInv(h: Host) { SeatInv(h) && FamilyInv(h) }

  // ---------------------------------------------------------------------------
  // Pigeonhole: a connected device without a seat always finds one free
  // ---------------------------------------------------------------------------

  lemma {:induction false} SomeUnseated(ds: seq<Device>, i: nat)
    requires i < |ds| && !Seated(ds[i])
    ensures CountSeated(ds) < |ds|
    decreases |ds|
  {
    if i > 0 { SomeUnseated(ds[1..], i - 1); } else { AtMostAll(ds[1..]); }
  }

  lemma {:induction false} AtMostAll(ds: seq<Device>)
    ensures CountSeated(ds) <= |ds|
  {
    if ds != [] { AtMostAll(ds[1..]); }
  }

  lemma {:induction false} FullHouse(seats: seq<int>)
    requires forall j :: 0 <= j < |seats| ==> seats[j] != NO_SEAT
    ensures CountOccupied(seats) == |seats|
  {
    if seats != [] { FullHouse(seats[1..]); }
  }

  lemma Pigeonhole(h: Host, i: nat)
    requires SeatInv(h) && Owns(h, i, NO_SEAT)
    ensures h.used < MAX_DEVICES
    ensures FreeSeat(h.seats, 0).Some?
  {
    SomeUnseated(h.devices, i);
    if FreeSeat(h.seats, 0).None? {
      FullHouse(h.seats);
    }
  }

  // ---------------------------------------------------------------------------
  // Every operation keeps the seats right
  // ---------------------------------------------------------------------------

  lemma {:induction false} CountSeatedUpdate(ds: seq<Device>, i: nat, d: Device)
    requires i < |ds|
    ensures CountSeated(ds[i := d]) == CountSeated(ds) - (if Seated(ds[i]) then 1 else 0) + (if Seated(d) then 1 else 0)
    decreases |ds|
  {
    if i > 0 {
      assert ds[i := d][1..] == ds[1..][i - 1 := d];
      CountSeatedUpdate(ds[1..], i - 1, d);
    } else {
      assert ds[i := d][1..] == ds[1..];
    }
  }

  lemma {:induction false} CountOccupiedUpdate(seats: seq<int>, j: nat, s: int)
    requires j < |seats|
    ensures CountOccupied(seats[j := s])
         == CountOccupied(seats) - (if seats[j] != NO_SEAT then 1 else 0) + (if s != NO_SEAT then 1 else 0)
    decreases |seats|
  {
    if j > 0 {
      assert seats[j := s][1..] == seats[1..][j - 1 := s];
      CountOccupiedUpdate(seats[1..], j - 1, s);
    } else {
      assert seats[j := s][1..] == seats[1..];
    }
  }

  // A change of a slot that leaves "connected with seat s" as it was, or replaces one unseated record by
  // another.
  predicate SameStanding(d: Device, e: Device) {
    (Seated(d) || Seated(e)) ==> d.connected == e.connected && d.seat == e.seat
  }

  lemma WithKeepsSeats(h: Host, i: nat, d: Device)
    requires SeatInv(h) && i < MAX_DEVICES && SameStanding(h.devices[i], d)
    ensures SeatInv(With(h, i, d))
  {
    var r := With(h, i, d);
    CountSeatedUpdate(h.devices, i, d);
    forall j: nat | j < MAX_DEVICES
      ensures SeatOk(r, j)
    {
      assert SeatOk(h, j);
      if h.seats[j] != NO_SEAT {
        var k: nat :| Owns(h, k, j);
        assert Owns(r, k, j);
      }
    }
    forall k: nat | k < MAX_DEVICES
      ensures Pointing(r, k)
    {
      assert Pointing(h, k);
    }
    forall k: nat, l: nat | k < MAX_DEVICES && l < MAX_DEVICES
      ensures Apart(r, k, l)
    {
      assert Apart(h, k, l);
    }
  }

  // A seated device going down: its seat is marked free and nothing else changes.
  lemma ReleaseShape(h: Host, i: nat)
    requires SeatInv(h) && i < MAX_DEVICES && Seated(h.devices[i])
    ensures var d := h.devices[i];
            && 0 <= d.seat < MAX_DEVICES
            && DisconnectOne(h, i) == h.(devices := h.devices[i := d.(connected := false, seat := NO_SEAT)],
                                         seats := h.seats[d.seat := NO_SEAT], used := h.used - 1)
  {
    assert Pointing(h, i);
    var d := h.devices[i];
    var down := With(h, i, d.(connected := false));
    assert down.devices[i := d.(connected := false, seat := NO_SEAT)]
        == h.devices[i := d.(connected := false, seat := NO_SEAT)];
  }

  lemma ReleasedCounts(h: Host, i: nat)
    requires SeatInv(h) && i < MAX_DEVICES && Seated(h.devices[i])
    ensures var r := DisconnectOne(h, i); r.used == CountOccupied(r.seats) == CountSeated(r.devices)
  {
    var d := h.devices[i];
    ReleaseShape(h, i);
    assert Pointing(h, i);
    CountSeatedUpdate(h.devices, i, d.(connected := false, seat := NO_SEAT));
    CountOccupiedUpdate(h.seats, d.seat, NO_SEAT);
  }

  lemma ReleasedSeatOk(h: Host, i: nat, j: nat)
    requires SeatInv(h) && i < MAX_DEVICES && Seated(h.devices[i]) && j < MAX_DEVICES
    ensures SeatOk(DisconnectOne(h, i), j)
  {
    var r := DisconnectOne(h, i);
    ReleaseShape(h, i);
    assert SeatOk(h, j);
    if r.seats[j] != NO_SEAT {
      var k: nat :| Owns(h, k, j);
      assert Owns(r, k, j);
    }
  }

  lemma ReleaseKeepsSeats(h: Host, i: nat)
    requires SeatInv(h) && i < MAX_DEVICES
    ensures SeatInv(DisconnectOne(h, i))
    ensures var d, r := h.devices[i], DisconnectOne(h, i);
            if Seated(d)
            then 0 <= d.seat < MAX_DEVICES && r.seats == h.seats[d.seat := NO_SEAT] && r.used == h.used - 1
            else r.seats == h.seats && r.used == h.used
  {
    var d := h.devices[i];
    if Seated(d) {
      var r := DisconnectOne(h, i);
      ReleaseShape(h, i);
      ReleasedCounts(h, i);
      forall j: nat | j < MAX_DEVICES
        ensures SeatOk(r, j)
      {
        ReleasedSeatOk(h, i, j);
      }
      forall k: nat | k < MAX_DEVICES
        ensures Pointing(r, k)
      {
        assert Pointing(h, k) && Apart(h, i, k);
      }
      forall k: nat, l: nat | k < MAX_DEVICES && l < MAX_DEVICES
        ensures Apart(r, k, l)
      {
        assert Apart(h, k, l);
      }
    } else {
      WithKeepsSeats(h, i, d.(connected := false));
    }
  }

  // The device that is taken gets the first free seat.
  lemma TakeShape(h: Host, i: nat)
    requires SeatInv(h) && Owns(h, i, NO_SEAT)
    ensures FreeSeat(h.seats, 0).Some?
    ensures var j := FreeSeat(h.seats, 0).value;
            OnDeviceReady(h, i) ==
            (h.(devices := h.devices[i := h.devices[i].(seat := j)], seats := h.seats[j := j], used := h.used + 1),
                Accepted)
  {
    Pigeonhole(h, i);
  }

  lemma TakeKeepsSeats(h: Host, i: nat)
    requires SeatInv(h) && Owns(h, i, NO_SEAT)
    ensures OnDeviceReady(h, i).1 == Accepted && SeatInv(OnDeviceReady(h, i).0)
  {
    TakeShape(h, i);
    var d := h.devices[i];
    var j := FreeSeat(h.seats, 0).value;
    var r := OnDeviceReady(h, i).0;
    CountSeatedUpdate(h.devices, i, d.(seat := j));
    CountOccupiedUpdate(h.seats, j, j);
    forall k: nat | k < MAX_DEVICES
      ensures Pointing(r, k)
    {
      assert Pointing(h, k);
    }
    forall k: nat, l: nat | k < MAX_DEVICES && l < MAX_DEVICES
      ensures Apart(r, k, l)
    {
      assert Pointing(h, k) && Pointing(h, l) && Apart(h, k, l);
    }
    forall s: nat | s < MAX_DEVICES
      ensures SeatOk(r, s)
    {
      assert SeatOk(h, s);
      if s == j {
        assert Owns(r, i, j);
      } else if h.seats[s] != NO_SEAT {
        var k: nat :| Owns(h, k, s);
        assert Owns(r, k, s);
      }
    }
  }

  // ---------------------------------------------------------------------------
  // Every operation keeps the whole table right
  // ---------------------------------------------------------------------------

  // No child pointer that was not there before.
  predicate NoNewChild(h: Host, r: Host, i: nat)
    requires Sized(h) && Sized(r) && i < MAX_DEVICES
  {
    r.devices[i].child == h.devices[i].child || r.devices[i].child.None?
  }

  lemma StaysRanked(h: Host, r: Host)
    requires Sized(h) && Sized(r) && FamilyInv(h) && forall i: nat :: i < MAX_DEVICES ==> NoNewChild(h, r, i)
    ensures exists rank :: Ranked(r.devices, rank)
  {
    var rank :| Ranked(h.devices, rank);
    forall i: nat | i < MAX_DEVICES
      ensures Ranks(r.devices, rank, i)
    {
      assert Ranks(h.devices, rank, i) && NoNewChild(h, r, i);
    }
    assert Ranked(r.devices, rank);
  }

  // One slot changed, and its family ties did not.
  lemma OneSlotKeepsFamily(h: Host, r: Host, i: nat, d: Device)
    requires Sized(h) && Sized(r) && FamilyInv(h) && i < MAX_DEVICES && r.devices == h.devices[i := d]
    requires Sound(d) && d.parent == h.devices[i].parent && d.child == h.devices[i].child && r.severed == h.severed
    ensures FamilyInv(r)
  {
    forall k: nat | k < MAX_DEVICES
      ensures SlotOk(r, k) && NoNewChild(h, r, k)
    {
      assert SlotOk(h, k);
    }
    StaysRanked(h, r);
    if !r.severed {
      forall k: nat, l: nat | k < MAX_DEVICES && l < MAX_DEVICES
        ensures Kin(r, k, l)
      {
        assert Kin(h, k, l);
      }
    }
  }

  lemma WithKeepsTable(h: Host, i: nat, d: Device)
    requires TableInv(h) && i < MAX_DEVICES && SameStanding(h.devices[i], d) && Sound(d)
    requires d.parent == h.devices[i].parent && d.child == h.devices[i].child
    ensures TableInv(With(h, i, d))
  {
    WithKeepsSeats(h, i, d);
    OneSlotKeepsFamily(h, With(h, i, d), i, d);
  }

  // The seats speak of slots, marks and the count only.
  lemma SameSeats(h: Host, r: Host)
    requires SeatInv(h) && r.devices == h.devices && r.seats == h.seats && r.used == h.used
    ensures SeatInv(r)
  {
    forall j: nat | j < MAX_DEVICES
      ensures SeatOk(r, j)
    {
      assert SeatOk(h, j);
      if h.seats[j] != NO_SEAT {
        var k: nat :| Owns(h, k, j);
        assert Owns(r, k, j);
      }
    }
    forall k: nat | k < MAX_DEVICES
      ensures Pointing(r, k)
    {
      assert Pointing(h, k);
    }
    forall k: nat, l: nat | k < MAX_DEVICES && l < MAX_DEVICES
      ensures Apart(r, k, l)
    {
      assert Apart(h, k, l);
    }
  }

  lemma SameTable(h: Host, r: Host)
    requires TableInv(h) && r.devices == h.devices && r.seats == h.seats && r.used == h.used
    requires r.severed == h.severed
    ensures TableInv(r)
  {
    SameSeats(h, r);
    assert SlotOk(h, 0);
    OneSlotKeepsFamily(h, r, 0, h.devices[0]);
  }

  lemma CreateKeepsTable(h: Host, addr: nat)
    requires TableInv(h) && addr != 0
    ensures TableInv(Create(h, addr).0)
    ensures var (r, slot) := Create(h, addr); slot.Some? ==> r == With(h, slot.value, Cleared(addr))
  {
    var slot := FreeSlot(h.devices, 0);
    if slot.Some? {
      assert SlotOk(h, slot.value);
      WithKeepsTable(h, slot.value, Cleared(addr));
    }
  }

  predicate Connectable(d: Device) { d.addr != 0 && !d.connected }

  lemma ConnectKeepsTable(h: Host, i: nat)
    requires TableInv(h) && i < MAX_DEVICES && Connectable(h.devices[i])
    ensures TableInv(Connect(h, i)) && Owns(Connect(h, i), i, NO_SEAT)
  {
    assert SlotOk(h, i);
    WithKeepsTable(h, i, Connect(h, i).devices[i]);
  }

  lemma DisconnectOneShape(h: Host, i: nat)
    requires Sized(h) && i < MAX_DEVICES
    ensures var r := DisconnectOne(h, i);
            && r.devices == h.devices[i := r.devices[i]]
            && !r.devices[i].connected && r.devices[i].child == h.devices[i].child
            && r.sdp == h.sdp && r.told == h.told
  {
  }

  // The device, its child, its child's child: what n levels of the recursion reach.
  function Household(ds: seq<Device>, i: nat, n: nat): (r: set<nat>)
    requires |ds| == MAX_DEVICES && i < MAX_DEVICES
    ensures i in r && forall k <- r :: k < MAX_DEVICES
    decreases n
  {
    match ds[i].child
    case Some(c) => {i} + (if c < MAX_DEVICES && n > 0 then Household(ds, c, n - 1) else {})
    case None => {i}
  }

  // Whoever is in it, but for its head, is the child of one who is.
  lemma {:induction false} HasElder(ds: seq<Device>, i: nat, n: nat, k: nat)
    requires |ds| == MAX_DEVICES && i < MAX_DEVICES && k in Household(ds, i, n) && k != i
    ensures exists j: nat :: j in Household(ds, i, n) && ds[j].child == Some(k)
    decreases n
  {
    var c := ds[i].child.value;
    if k != c {
      HasElder(ds, c, n - 1, k);
      var j: nat :| j in Household(ds, c, n - 1) && ds[j].child == Some(k);
      assert j in Household(ds, i, n);
    }
  }

  // The line of children is at most n long.
  predicate Ends(ds: seq<Device>, i: nat, n: nat)
    requires |ds| == MAX_DEVICES && i < MAX_DEVICES
    decreases n
  {
    ds[i].child.None? || ds[i].child.value >= MAX_DEVICES || (n > 0 && Ends(ds, ds[i].child.value, n - 1))
  }

  // Nobody is met twice: it is at most as long as there are slots that rank higher.
  lemma {:induction false} LineEnds(ds: seq<Device>, rank: seq<nat>, i: nat, later: set<nat>)
    requires Ranked(ds, rank) && i < MAX_DEVICES
    requires forall k: nat :: k < MAX_DEVICES && rank[k] > rank[i] ==> k in later
    ensures Ends(ds, i, |later|)
    decreases |later|
  {
    if ds[i].child.Some? && ds[i].child.value < MAX_DEVICES {
      var c := ds[i].child.value;
      assert Ranks(ds, rank, i);
      assert |later - {c}| == |later| - 1;
      LineEnds(ds, rank, c, later - {c});
    }
  }

  lemma {:induction false} EndsSooner(ds: seq<Device>, i: nat, m: nat, n: nat)
    requires |ds| == MAX_DEVICES && i < MAX_DEVICES && Ends(ds, i, m) && m <= n
    ensures Ends(ds, i, n)
    decreases m
  {
    if ds[i].child.Some? && ds[i].child.value < MAX_DEVICES { EndsSooner(ds, ds[i].child.value, m - 1, n - 1); }
  }

  lemma TableEnds(h: Host, i: nat)
    requires TableInv(h) && i < MAX_DEVICES
    ensures Ends(h.devices, i, DEPTH)
  {
    var rank :| Ranked(h.devices, rank);
    LineEnds(h.devices, rank, i, {0, 1, 2, 3});
  }

  lemma {:induction false} DeeperIsTheSame(h: Host, i: nat, m: nat, n: nat)
    requires Sized(h) && i < MAX_DEVICES && Ends(h.devices, i, m) && m <= n
    ensures Disconnect(h, i, n) == Disconnect(h, i, m) && Delete(h, i, n) == Delete(h, i, m)
    decreases m
  {
    if ChildOf(h, i).Some? { DeeperIsTheSame(h, ChildOf(h, i).value, m - 1, n - 1); }
  }

  // However deep the recursion may go, it does what DEPTH levels do.
  lemma DepthIsEnough(h: Host, i: nat, n: nat)
    requires TableInv(h) && i < MAX_DEVICES && n >= DEPTH
    ensures var down := Disconnect(h, i, n);
            Delete(down, i, n).(severed := h.severed || h.devices[i].parent.Some?) == Drop(h, i)
  {
    TableEnds(h, i);
    DeeperIsTheSame(h, i, DEPTH, n);
    var down := Disconnect(h, i, DEPTH);
    DisconnectShape(h, i, DEPTH);
    SameLine(h.devices, down.devices, i, DEPTH);
    DeeperIsTheSame(down, i, DEPTH, n);
  }

  lemma {:induction false} SameLine(ds: seq<Device>, es: seq<Device>, i: nat, n: nat)
    requires |ds| == |es| == MAX_DEVICES && i < MAX_DEVICES
    requires forall k :: 0 <= k < MAX_DEVICES ==> es[k].child == ds[k].child
    ensures Household(es, i, n) == Household(ds, i, n) && (Ends(es, i, n) <==> Ends(ds, i, n))
    decreases n
  {
    if n > 0 && ds[i].child.Some? && ds[i].child.value < MAX_DEVICES { SameLine(ds, es, ds[i].child.value, n - 1); }
  }

  lemma {:induction false} DisconnectShape(h: Host, i: nat, n: nat)
    requires Sized(h) && i < MAX_DEVICES
    ensures var r := Disconnect(h, i, n);
            && r.sdp == h.sdp && r.told == h.told && r.severed == h.severed
            && (forall k :: 0 <= k < MAX_DEVICES ==> r.devices[k].child == h.devices[k].child)
            && (forall k :: 0 <= k < MAX_DEVICES && k !in Household(h.devices, i, n) ==> r.devices[k] == h.devices[k])
            && (forall k :: 0 <= k < MAX_DEVICES && k in Household(h.devices, i, n) ==> !r.devices[k].connected)
    decreases n
  {
    if ChildOf(h, i).Some? && n > 0 {
      DisconnectShape(h, ChildOf(h, i).value, n - 1);
      DisconnectOneShape(Disconnect(h, ChildOf(h, i).value, n - 1), i);
    } else {
      DisconnectOneShape(h, i);
    }
  }

  lemma {:induction false} DeleteShape(h: Host, i: nat, n: nat)
    requires Sized(h) && i < MAX_DEVICES
    ensures var r := Delete(h, i, n);
            && r.sdp == h.sdp && r.told == h.told
            && forall k :: 0 <= k < MAX_DEVICES ==>
                 r.devices[k] == if k in Household(h.devices, i, n) then Cleared(0) else h.devices[k]
    decreases n
  {
    if ChildOf(h, i).Some? && n > 0 { DeleteShape(h, ChildOf(h, i).value, n - 1); }
  }

  // A drop clears the device and everybody down its line of children, and nobody else.
  lemma DropClears(h: Host, i: nat)
    requires Sized(h) && i < MAX_DEVICES
    ensures var r := Drop(h, i);
            && r.sdp == h.sdp && r.told == h.told && (r.severed <==> h.severed || h.devices[i].parent.Some?)
            && forall k :: 0 <= k < MAX_DEVICES ==>
                 r.devices[k] == if k in Household(h.devices, i, DEPTH) then Cleared(0) else h.devices[k]
  {
    var down := Disconnect(h, i, DEPTH);
    DisconnectShape(h, i, DEPTH);
    SameLine(h.devices, down.devices, i, DEPTH);
    DeleteShape(down, i, DEPTH);
  }

  lemma {:induction false} DisconnectKeepsSeats(h: Host, i: nat, n: nat)
    requires SeatInv(h) && i < MAX_DEVICES
    ensures SeatInv(Disconnect(h, i, n))
    decreases n
  {
    if ChildOf(h, i).Some? && n > 0 {
      DisconnectKeepsSeats(h, ChildOf(h, i).value, n - 1);
      ReleaseKeepsSeats(Disconnect(h, ChildOf(h, i).value, n - 1), i);
    } else {
      ReleaseKeepsSeats(h, i);
    }
  }

  lemma {:induction false} DeleteKeepsSeats(h: Host, i: nat, n: nat)
    requires SeatInv(h) && i < MAX_DEVICES && forall k <- Household(h.devices, i, n) :: !h.devices[k].connected
    ensures SeatInv(Delete(h, i, n))
    decreases n
  {
    if ChildOf(h, i).Some? && n > 0 {
      DeleteKeepsSeats(h, ChildOf(h, i).value, n - 1);
      DeleteShape(h, ChildOf(h, i).value, n - 1);
      WithKeepsSeats(Delete(h, ChildOf(h, i).value, n - 1), i, Cleared(0));
    } else {
      WithKeepsSeats(h, i, Cleared(0));
    }
  }

  lemma DropKeepsSeats(h: Host, i: nat)
    requires SeatInv(h) && i < MAX_DEVICES
    ensures SeatInv(Drop(h, i))
  {
    var down := Disconnect(h, i, DEPTH);
    DisconnectKeepsSeats(h, i, DEPTH);
    DisconnectShape(h, i, DEPTH);
    SameLine(h.devices, down.devices, i, DEPTH);
    DeleteKeepsSeats(down, i, DEPTH);
    SameSeats(Delete(down, i, DEPTH), Drop(h, i));
  }

  lemma DropKeepsTable(h: Host, i: nat)
    requires TableInv(h) && i < MAX_DEVICES
    ensures TableInv(Drop(h, i))
  {
    var r := Drop(h, i);
    DropClears(h, i);
    DropKeepsSeats(h, i);
    forall k: nat | k < MAX_DEVICES
      ensures SlotOk(r, k) && NoNewChild(h, r, k)
    {
      assert SlotOk(h, k);
    }
    StaysRanked(h, r);
    if !r.severed { WholeFamilyGoes(h, i); }
  }

  lemma {:induction false} HouseholdIsClosed(ds: seq<Device>, i: nat, n: nat, j: nat, k: nat)
    requires |ds| == MAX_DEVICES && i < MAX_DEVICES && Ends(ds, i, n) && k < MAX_DEVICES
    requires j in Household(ds, i, n) && ds[j].child == Some(k)
    ensures k in Household(ds, i, n)
    decreases n
  {
    if j != i { HouseholdIsClosed(ds, ds[i].child.value, n - 1, j, k); }
  }

  // Dropping the head of a family leaves no pointer to, or from, one who is gone.
  lemma WholeFamilyGoes(h: Host, i: nat)
    requires TableInv(h) && Linked(h) && i < MAX_DEVICES && h.devices[i].parent.None?
    ensures Linked(Drop(h, i))
  {
    var r := Drop(h, i);
    DropClears(h, i);
    TableEnds(h, i);
    forall k: nat, l: nat | k < MAX_DEVICES && l < MAX_DEVICES
      ensures Kin(r, k, l)
    {
      assert Kin(h, k, l);
      var gone := Household(h.devices, i, DEPTH);
      if k in gone && h.devices[k].child == Some(l) { HouseholdIsClosed(h.devices, i, DEPTH, k, l); }
      if l in gone && l != i {
        HasElder(h.devices, i, DEPTH, l);
        var j: nat :| j in gone && h.devices[j].child == Some(l);
        assert Kin(h, j, l);
      }
    }
  }

  lemma {:induction false} LaterInLine(ds: seq<Device>, rank: seq<nat>, i: nat, n: nat, k: nat)
    requires Ranked(ds, rank) && i < MAX_DEVICES && k in Household(ds, i, n)
    ensures rank[k] >= rank[i]
    decreases n
  {
    if k != i {
      assert Ranks(ds, rank, i);
      LaterInLine(ds, rank, ds[i].child.value, n - 1, k);
    }
  }

  lemma ParentIsNoDescendant(h: Host, p: nat, i: nat)
    requires TableInv(h) && p < MAX_DEVICES && i < MAX_DEVICES && h.devices[p].child == Some(i)
    ensures p !in Household(h.devices, i, DEPTH)
  {
    var rank :| Ranked(h.devices, rank);
    assert Ranks(h.devices, rank, p);
    if p in Household(h.devices, i, DEPTH) { LaterInLine(h.devices, rank, i, DEPTH, p); }
  }

  // A virtual child dropped by itself leaves its parent pointing at a free slot: dropping keeps families whole
  // exactly when the device is not virtual.
  lemma DropKeepsKinUnlessVirtual(h: Host, i: nat)
    requires TableInv(h) && Linked(h) && i < MAX_DEVICES
    ensures Linked(Drop(h, i)) <==> h.devices[i].parent.None?
  {
    if h.devices[i].parent.None? {
      WholeFamilyGoes(h, i);
    } else {
      var p := h.devices[i].parent.value;
      assert SlotOk(h, i) && Kin(h, p, i);
      ParentIsNoDescendant(h, p, i);
      DropClears(h, i);
      assert !Kin(Drop(h, i), p, i);
    }
  }

  // A connected device without a seat is always taken; anything else is refused and dropped.
  lemma SetReadyCompleteAnswers(h: Host, i: nat)
    requires TableInv(h) && i < MAX_DEVICES && h.devices[i].state != Ready
    ensures var (r, accepted) := SetReadyComplete(h, i);
            if Owns(h, i, NO_SEAT)
            then accepted && OnDeviceReady(h, i).1 == Accepted && r == SetState(OnDeviceReady(h, i).0, i, Ready)
            else !accepted && OnDeviceReady(h, i).1 != Accepted && r == Drop(h, i)
  {
    assert SlotOk(h, i) && Pointing(h, i);
    if Owns(h, i, NO_SEAT) { TakeShape(h, i); }
  }

  lemma SeatTakenKeepsTable(h: Host, i: nat)
    requires TableInv(h) && Owns(h, i, NO_SEAT)
    ensures var r := SetState(OnDeviceReady(h, i).0, i, Ready);
            && TableInv(r)
            && Seated(r.devices[i]) && r.devices[i].addr != 0 && r.devices[i].child.None?
  {
    TakeKeepsSeats(h, i);
    TakeShape(h, i);
    assert SlotOk(h, i);
    var asked := OnDeviceReady(h, i).0;
    var d := asked.devices[i].(state := Ready);
    WithKeepsSeats(asked, i, d);
    OneSlotKeepsFamily(h, With(asked, i, d), i, d);
  }

  lemma SetReadyCompleteKeepsTable(h: Host, i: nat)
    requires TableInv(h) && i < MAX_DEVICES
    ensures TableInv(SetReadyComplete(h, i).0)
  {
    if h.devices[i].state != Ready {
      SetReadyCompleteAnswers(h, i);
      if Owns(h, i, NO_SEAT) {
        SeatTakenKeepsTable(h, i);
      } else {
        DropKeepsTable(h, i);
      }
    }
  }

  // A virtual child of a seated device that has none.
  lemma SpawnKeepsTable(h: Host, p: nat)
    requires TableInv(h) && p < MAX_DEVICES && Seated(h.devices[p]) && h.devices[p].child.None?
    ensures TableInv(CreateVirtual(h, p).0)
    ensures var (r, slot) := CreateVirtual(h, p);
            slot.Some? ==> slot.value != p && Connectable(r.devices[slot.value]) && r.devices[slot.value].state != Ready
    ensures var (r, slot) := CreateVirtual(h, p);
            slot.Some? ==> r.devices[p].child == slot && r.devices[slot.value].parent == Some(p)
  {
    var (r, slot) := CreateVirtual(h, p);
    assert SlotOk(h, p);
    if slot.Some? {
      var i := slot.value;
      assert SlotOk(h, i);
      var born := h.devices[i].(addr := h.devices[p].addr, parent := Some(p), typed := true, name := Plain);
      WithKeepsSeats(h, i, born);
      WithKeepsSeats(With(h, i, born), p, h.devices[p].(child := Some(i)));
      BirthKeepsFamily(h, r, p, i, born);
    }
  }

  lemma BirthKeepsFamily(h: Host, r: Host, p: nat, i: nat, born: Device)
    requires Sized(h) && Sized(r) && FamilyInv(h) && p < MAX_DEVICES && i < MAX_DEVICES && i != p
    requires h.devices[p].child.None? && h.devices[i].parent.None? && h.devices[i].child.None?
    requires Sound(born) && born.parent == Some(p) && born.child.None?
    requires Sound(h.devices[p].(child := Some(i))) && r.severed == h.severed
    requires r.devices == h.devices[i := born][p := h.devices[p].(child := Some(i))]
    ensures FamilyInv(r)
  {
    forall k: nat | k < MAX_DEVICES
      ensures SlotOk(r, k)
    {
      assert SlotOk(h, k);
    }
    BirthIsRanked(h.devices, r.devices, p, i);
    if !r.severed {
      forall k: nat, l: nat | k < MAX_DEVICES && l < MAX_DEVICES
        ensures Kin(r, k, l)
      {
        assert Kin(h, k, l);
      }
    }
  }

  function Most(rank: seq<nat>): (r: nat)
    ensures forall k :: 0 <= k < |rank| ==> rank[k] <= r
  {
    if rank == [] then 0
    else
      var rest := Most(rank[1..]);
      assert forall k :: 0 < k < |rank| ==> rank[k] == rank[1..][k - 1];
      if rest > rank[0] then rest else rank[0]
  }

  // The newborn ranks above all.
  lemma BirthIsRanked(ds: seq<Device>, es: seq<Device>, p: nat, i: nat)
    requires |ds| == |es| == MAX_DEVICES && (exists rank :: Ranked(ds, rank))
    requires p < MAX_DEVICES && i < MAX_DEVICES && i != p && ds[i].child.None? && es[p].child == Some(i)
    requires forall k :: 0 <= k < MAX_DEVICES && k != p ==> es[k].child == ds[k].child
    ensures exists rank :: Ranked(es, rank)
  {
    var rank :| Ranked(ds, rank);
    var above := rank[i := Most(rank) + 1];
    forall k: nat | k < MAX_DEVICES
      ensures Ranks(es, above, k)
    {
      assert Ranks(ds, rank, k);
    }
    assert Ranked(es, above);
  }

  // The child connects and completes its setup at once, and is never refused.
  lemma ChildIsTaken(h: Host, c: nat)
    requires TableInv(h) && c < MAX_DEVICES && Connectable(h.devices[c]) && h.devices[c].state != Ready
    ensures TableInv(SetReadyComplete(Connect(h, c), c).0) && SetReadyComplete(Connect(h, c), c).1
  {
    ConnectKeepsTable(h, c);
    SetReadyCompleteAnswers(Connect(h, c), c);
    SeatTakenKeepsTable(Connect(h, c), c);
  }

  lemma AddChildKeepsTable(h: Host, p: nat)
    requires TableInv(h) && p < MAX_DEVICES && Seated(h.devices[p]) && h.devices[p].child.None?
    ensures TableInv(AddChild(h, p))
  {
    SpawnKeepsTable(h, p);
    var (born, slot) := CreateVirtual(h, p);
    if slot.Some? { ChildIsTaken(born, slot.value); }
  }

  lemma FinishSetupKeepsTable(h: Host, i: nat)
    requires TableInv(h) && i < MAX_DEVICES
    ensures TableInv(FinishSetup(h, i))
  {
    SetReadyCompleteKeepsTable(h, i);
    if h.devices[i].state != Ready { SetReadyCompleteAnswers(h, i); }
    var (done, accepted) := SetReadyComplete(h, i);
    if accepted {
      SeatTakenKeepsTable(h, i);
      AddChildKeepsTable(done, i);
    }
  }

  lemma PendingKeepsTable(h: Host, i: nat)
    requires TableInv(h) && i < MAX_DEVICES
    ensures TableInv(Pending(h, i))
  {
    assert SlotOk(h, i);
    WithKeepsTable(h, i, Pending(h, i).devices[i]);
    SameTable(With(h, i, Pending(h, i).devices[i]), Pending(h, i));
  }

  lemma SetReadyKeepsTable(h: Host, i: nat)
    requires TableInv(h) && i < MAX_DEVICES
    ensures TableInv(SetReady(h, i))
  {
    PendingKeepsTable(h, i);
    FinishSetupKeepsTable(Pending(h, i), i);
  }

  // ---------------------------------------------------------------------------
  // Any interleaving of the operations
  // ---------------------------------------------------------------------------

  datatype Op =
    | OpCreate(addr: nat)
    | OpParser(slot: nat, parser: Parser)      // the type of the device becomes known, or another
    | OpConnect(slot: nat)
    | OpReady(slot: nat)                       // set_ready: the parser is told, and may complete at once
    | OpComplete(slot: nat)                    // set_ready_complete, with the child it may bring
    | OpState(slot: nat, state: ConnState)     // any other change of connection state
    | OpDrop(slot: nat)                        // disconnect, then delete
    | OpVirtual(enabled: bool)

  // Connect comes once per connection. Every other operation may come at any time, to any slot: also to a
  // virtual child by itself, and to a slot that is free.
  predicate Allowed(h: Host, op: Op)
    requires Sized(h)
  {
    match op
    case OpCreate(addr) => addr != 0
    case OpParser(i, parser) => i < MAX_DEVICES
    case OpConnect(i) => i < MAX_DEVICES && Connectable(h.devices[i])
    case OpReady(i) => i < MAX_DEVICES
    case OpComplete(i) => i < MAX_DEVICES
    case OpState(i, s) => i < MAX_DEVICES && s != Ready
    case OpDrop(i) => i < MAX_DEVICES
    case OpVirtual(enabled) => true
  }

  function Apply(h: Host, op: Op): (r: Host)
    requires Sized(h) && Allowed(h, op)
    ensures Sized(r)
  {
    match op
    case OpCreate(addr) => Create(h, addr).0
    case OpParser(i, parser) => With(h, i, h.devices[i].(typed := true, parser := parser))
    case OpConnect(i) => Connect(h, i)
    case OpReady(i) => SetReady(h, i)
    case OpComplete(i) => FinishSetup(h, i)
    case OpState(i, s) => SetState(h, i, s)
    case OpDrop(i) => Drop(h, i)
    case OpVirtual(enabled) => h.(virtualEnabled := enabled)
  }

  lemma ApplyKeepsTable(h: Host, op: Op)
    requires TableInv(h) && Allowed(h, op)
    ensures TableInv(Apply(h, op))
  {
    match op
    case OpCreate(addr) => CreateKeepsTable(h, addr);
    case OpParser(i, parser) =>
      assert SlotOk(h, i);
      WithKeepsTable(h, i, h.devices[i].(typed := true, parser := parser));
    case OpConnect(i) => ConnectKeepsTable(h, i);
    case OpReady(i) => SetReadyKeepsTable(h, i);
    case OpComplete(i) => FinishSetupKeepsTable(h, i);
    case OpState(i, s) =>
      assert SlotOk(h, i);
      WithKeepsTable(h, i, h.devices[i].(state := s));
    case OpDrop(i) => DropKeepsTable(h, i);
    case OpVirtual(enabled) => SameTable(h, h.(virtualEnabled := enabled));
  }

  ghost predicate Legal(h: Host, ops: seq<Op>)
    requires Sized(h)
    decreases |ops|
  {
    ops == [] || (Allowed(h, ops[0]) && Legal(Apply(h, ops[0]), ops[1..]))
  }

  ghost function RunOps(h: Host, ops: seq<Op>): (r: Host)
    requires Sized(h) && Legal(h, ops)
    ensures Sized(r)
    decreases |ops|
  {
    if ops == [] then h else RunOps(Apply(h, ops[0]), ops[1..])
  }

  lemma InitialTable()
    ensures TableInv(Initial())
  {
    var h := Initial();
    AllFree(h.devices, h.seats);
    assert Ranked(h.devices, [0, 0, 0, 0]);
  }

  lemma {:induction false} AllFree(ds: seq<Device>, seats: seq<int>)
    requires forall i :: 0 <= i < |ds| ==> !Seated(ds[i])
    requires forall j :: 0 <= j < |seats| ==> seats[j] == NO_SEAT
    ensures CountSeated(ds) == 0 && CountOccupied(seats) == 0
    decreases |ds| + |seats|
  {
    if ds != [] { AllFree(ds[1..], seats); }
    else if seats != [] { AllFree(ds, seats[1..]); }
  }

  lemma {:induction false} RunKeepsTable(h: Host, ops: seq<Op>)
    requires TableInv(h) && Legal(h, ops)
    ensures TableInv(RunOps(h, ops))
    decreases |ops|
  {
    if ops != [] {
      ApplyKeepsTable(h, ops[0]);
      RunKeepsTable(Apply(h, ops[0]), ops[1..]);
    }
  }

  // What severs a family: a virtual child that is dropped by itself, on request or because its setup is
  // completed a second time.
  ghost predicate DropsChild(h: Host, op: Op)
    requires Sized(h) && Allowed(h, op)
  {
    match op
    case OpDrop(i) => h.devices[i].parent.Some?
    case OpComplete(i) => h.devices[i].parent.Some? && h.devices[i].state != Ready && !Owns(h, i, NO_SEAT)
    case OpReady(i) =>
      var d := h.devices[i];
      d.parent.Some? && d.state != PendingReady && !d.parser.deferred && !Owns(h, i, NO_SEAT)
    case _ => false
  }

  lemma SeveredExactly(h: Host, op: Op)
    requires TableInv(h) && Allowed(h, op)
    ensures Apply(h, op).severed <==> h.severed || DropsChild(h, op)
  {
    match op
    case OpReady(i) =>
      if h.devices[i].state != PendingReady && !h.devices[i].parser.deferred {
        PendingKeepsTable(h, i);
        FinishingSevers(Pending(h, i), i);
      }
    case OpComplete(i) => FinishingSevers(h, i);
    case OpDrop(i) => DropClears(h, i);
    case _ =>
  }

  lemma FinishingSevers(h: Host, i: nat)
    requires TableInv(h) && i < MAX_DEVICES
    ensures FinishSetup(h, i).severed <==>
            h.severed || (h.devices[i].parent.Some? && h.devices[i].state != Ready && !Owns(h, i, NO_SEAT))
  {
    if h.devices[i].state != Ready {
      SetReadyCompleteAnswers(h, i);
      if Owns(h, i, NO_SEAT) {
        SeatTakenKeepsTable(h, i);
        TakeShape(h, i);
        AddingSeversNobody(SetReadyComplete(h, i).0, i);
      } else {
        DropClears(h, i);
      }
    }
  }

  lemma AddingSeversNobody(h: Host, p: nat)
    requires TableInv(h) && p < MAX_DEVICES && Seated(h.devices[p]) && h.devices[p].child.None?
    ensures AddChild(h, p).severed == h.severed
  {
    SpawnKeepsTable(h, p);
    var (born, slot) := CreateVirtual(h, p);
    if slot.Some? {
      var c := slot.value;
      ConnectKeepsTable(born, c);
      SetReadyCompleteAnswers(Connect(born, c), c);
      TakeShape(Connect(born, c), c);
    }
  }

  // Over any run in which no virtual child is dropped by itself, parents and children point at each other.
  lemma FamiliesOverAnyRun(ops: seq<Op>)
    requires Legal(Initial(), ops)
    ensures var h := RunOps(Initial(), ops); h.severed || Linked(h)
  {
    InitialTable();
    RunKeepsTable(Initial(), ops);
  }

  // In every reachable table: the count is the number of taken seats; seat j, when taken, holds j and has
  // exactly one connected owner; and a request queued for it goes to that owner, or to nobody while the
  // owner is not ready.
  lemma SeatsHaveOneOwner(h: Host, j: nat)
    requires TableInv(h) && j < MAX_DEVICES
    ensures h.used == CountOccupied(h.seats)
    ensures h.seats[j] == NO_SEAT || h.seats[j] == j
    ensures h.seats[j] != NO_SEAT <==> HasOwner(h, j)
    ensures forall i: nat, k: nat :: Owns(h, i, j) && Owns(h, k, j) ==> i == k
    ensures forall i: nat :: Owns(h, i, j) ==>
              RequestTarget(h.devices, j, 0) == if h.devices[i].state == Ready then Some(i) else None
    ensures !HasOwner(h, j) ==> RequestTarget(h.devices, j, 0) == None
  {
    assert SeatOk(h, j);
    forall i: nat | Owns(h, i, j)
      ensures h.seats[j] == j
    {
      assert Pointing(h, i);
    }
    forall i: nat, k: nat | Owns(h, i, j) && Owns(h, k, j)
      ensures i == k
    {
      assert Apart(h, i, k);
    }
    var t := RequestTarget(h.devices, j, 0);
    if t.Some? {
      assert SlotOk(h, t.value);
      assert Owns(h, t.value, j);
    }
  }

  lemma SeatsOverAnyRun(ops: seq<Op>, j: nat)
    requires Legal(Initial(), ops) && j < MAX_DEVICES
    ensures var h := RunOps(Initial(), ops);
            && h.used == CountOccupied(h.seats)
            && (h.seats[j] == NO_SEAT || h.seats[j] == j)
            && (h.seats[j] != NO_SEAT <==> HasOwner(h, j))
            && (forall i: nat, k: nat :: Owns(h, i, j) && Owns(h, k, j) ==> i == k)
            && (forall i: nat :: Owns(h, i, j) ==>
                  RequestTarget(h.devices, j, 0) == if h.devices[i].state == Ready then Some(i) else None)
            && (!HasOwner(h, j) ==> RequestTarget(h.devices, j, 0) == None)
  {
    InitialTable();
    RunKeepsTable(Initial(), ops);
    SeatsHaveOneOwner(RunOps(Initial(), ops), j);
  }

  // ---------------------------------------------------------------------------
  // What a severed family can do
  // ---------------------------------------------------------------------------

  ghost predicate Reaches(h: Host, ops: seq<Op>, r: Host)
    requires Sized(h)
  {
    Legal(h, ops) && RunOps(h, ops) == r
  }

  lemma ReachesFirst(h: Host, op: Op, ops: seq<Op>, r: Host)
    requires Sized(h) && Allowed(h, op) && Reaches(Apply(h, op), ops, r)
    ensures Reaches(h, [op] + ops, r)
  {
    assert ([op] + ops)[1..] == ops;
  }

  // A device that brings a virtual child.
  const WITH_MOUSE := Parser(false, false, true)

  // It connects,
  function ParentConnects(rest: seq<Op>): seq<Op> {
    [OpVirtual(true)] + ([OpCreate(1)] + ([OpParser(0, WITH_MOUSE)] + ([OpConnect(0)] + rest)))
  }

  // and completes its setup; its child is dropped by itself; another device takes that slot.
  function ChildGoes(): seq<Op> { [OpComplete(0)] + ([OpDrop(1)] + ([OpCreate(2)] + [])) }

  function Parent(): Device {
    Cleared(1).(typed := true, parser := WITH_MOUSE, connected := true, seat := NO_SEAT, wentUp := true)
  }

  function ParentUp(): (r: Host)
    ensures Sized(r)
  {
    With(Initial(), 0, Parent()).(virtualEnabled := true)
  }

  lemma ParentConnectsReaches(rest: seq<Op>, r: Host)
    requires Reaches(ParentUp(), rest, r)
    ensures Reaches(Initial(), ParentConnects(rest), r)
  {
    var h1 := Apply(Initial(), OpVirtual(true));
    var h2 := Apply(h1, OpCreate(1));
    var h3 := Apply(h2, OpParser(0, WITH_MOUSE));
    assert Apply(h3, OpConnect(0)).devices == ParentUp().devices;
    ReachesFirst(h3, OpConnect(0), rest, r);
    ReachesFirst(h2, OpParser(0, WITH_MOUSE), [OpConnect(0)] + rest, r);
    ReachesFirst(h1, OpCreate(1), [OpParser(0, WITH_MOUSE)] + ([OpConnect(0)] + rest), r);
    ReachesFirst(Initial(), OpVirtual(true), [OpCreate(1)] + ([OpParser(0, WITH_MOUSE)] + ([OpConnect(0)] + rest)), r);
  }

  // Setup completes with the child in the second slot.
  lemma ParentCompletes()
    ensures var r := FinishSetup(ParentUp(), 0);
            && r.devices[0].addr == 1 && r.devices[0].child == Some(1) && r.devices[1].child.None?
  {
    var h := ParentUp();
    var done := SetReadyComplete(h, 0).0;
    assert FreeSeat(h.seats, 0) == Some(0);
    assert done.devices == h.devices[0 := Parent().(seat := 0, state := Ready)];
    var born := CreateVirtual(done, 0).0;
    assert FreeSlot(done.devices, 0) == FreeSlot(done.devices, 1) == Some(1);
    assert born.devices[1] == Cleared(1).(parent := Some(0), typed := true, name := Plain);
    var up := Connect(born, 1);
    assert FreeSeat(up.seats, 0) == FreeSeat(up.seats, 1) == Some(1);
    assert SetReadyComplete(up, 1).1;
  }

  // Then the first device is dropped, and the other one, which has nothing to do with it, goes with it.
  lemma SeveredDropsAStranger()
    ensures var ops := ParentConnects(ChildGoes());
            && Legal(Initial(), ops)
            && var h := RunOps(Initial(), ops);
               && h.devices[0].addr == 1 && h.devices[1] == Cleared(2)
               && Drop(h, 0).devices[1] == Cleared(0)
  {
    var whole := Apply(ParentUp(), OpComplete(0));
    ParentCompletes();
    var alone := Apply(whole, OpDrop(1));
    DropClears(whole, 1);
    assert Household(whole.devices, 1, DEPTH) == {1};
    var h := Apply(alone, OpCreate(2));
    assert FreeSlot(alone.devices, 0) == FreeSlot(alone.devices, 1) == Some(1);
    ReachesFirst(alone, OpCreate(2), [], h);
    ReachesFirst(whole, OpDrop(1), [OpCreate(2)] + [], h);
    ReachesFirst(ParentUp(), OpComplete(0), [OpDrop(1)] + ([OpCreate(2)] + []), h);
    ParentConnectsReaches(ChildGoes(), h);
    DropClears(h, 0);
    assert 1 in Household(h.devices, 0, DEPTH);
  }
}
