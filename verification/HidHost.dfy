/** The device table, the seats and the connection machine in the form the firmware has them: static
    arrays and flags that every operation changes in place. Each method is proved to do to the whole state
    what the function of the same name says. */
module HidHost {
  import opened HidTable
  import opened BredrFsm
  import opened BredrSafety
  import opened Prelude

  class Bluepad {
    const devices: array<Device>
    const seats: array<int>
    var used: int
    var sdp: Option<nat>
    var virtualEnabled: bool
    ghost var told: seq<Device>
    ghost var severed: bool

    ghost predicate Valid()
      reads this
    {
      devices.Length == MAX_DEVICES && seats.Length == MAX_DEVICES && (sdp.Some? ==> sdp.value < MAX_DEVICES)
    }

    ghost function View(): (h: Host)
      requires Valid()
      reads this, devices, seats
      ensures Sized(h)
    {
      Host(devices[..], seats[..], used, sdp, virtualEnabled, told, severed)
    }

    constructor ()
      ensures Valid() && fresh(devices) && fresh(seats) && View() == Initial() && Settled(View())
    {
      devices := new Device[MAX_DEVICES](i => Cleared(0));
      seats := new int[MAX_DEVICES](j => NO_SEAT);
      used, sdp, virtualEnabled, told, severed := 0, None, false, [], false;
      new;
      assert View().devices == Initial().devices && View().seats == Initial().seats;
      InitialSettled();
    }

    method Put(i: nat, d: Device)
      requires Valid() && i < MAX_DEVICES
      modifies devices
      ensures Valid() && View() == With(old(View()), i, d)
    {
      devices[i] := d;
      assert devices[..] == old(devices[..])[i := d];
    }

    // -------------------------------------------------------------------------
    // Searches
    // -------------------------------------------------------------------------

    method FindFree() returns (slot: Option<nat>)
      requires Valid()
      ensures slot == FreeSlot(View().devices, 0)
    {
      ghost var ds := devices[..];
      var i := 0;
      while i < MAX_DEVICES
        invariant 0 <= i <= MAX_DEVICES && FreeSlot(ds, 0) == FreeSlot(ds, i)
      {
        if devices[i].addr == 0 { return Some(i); }
        i := i + 1;
      }
      return None;
    }

    method InstanceForAddress(addr: nat) returns (slot: Option<nat>)
      requires Valid()
      ensures slot == Lookup(View(), addr)
    {
      ghost var ds := devices[..];
      var i := 0;
      while i < MAX_DEVICES
        invariant 0 <= i <= MAX_DEVICES && ByAddress(ds, addr, 0) == ByAddress(ds, addr, i)
      {
        if devices[i].parent.None? && devices[i].addr == addr { return Some(i); }
        i := i + 1;
      }
      return None;
    }

    // The device a queued request for a seat is handed to.
    method InstanceForSeat(seat: int) returns (slot: Option<nat>)
      requires Valid()
      ensures slot == RequestTarget(View().devices, seat, 0)
    {
      ghost var ds := devices[..];
      var i := 0;
      while i < MAX_DEVICES
        invariant 0 <= i <= MAX_DEVICES && RequestTarget(ds, seat, 0) == RequestTarget(ds, seat, i)
      {
        if devices[i].state == Ready {
          if devices[i].seat == seat { return Some(i); }
        }
        i := i + 1;
      }
      return None;
    }

    method FindFreeSeat() returns (seat: Option<nat>)
      requires Valid()
      ensures seat == FreeSeat(View().seats, 0)
    {
      ghost var ss := seats[..];
      var j := 0;
      while j < MAX_DEVICES
        invariant 0 <= j <= MAX_DEVICES && FreeSeat(ss, 0) == FreeSeat(ss, j)
      {
        if seats[j] == NO_SEAT { return Some(j); }
        j := j + 1;
      }
      return None;
    }

    // -------------------------------------------------------------------------
    // The table
    // -------------------------------------------------------------------------

    method NewDevice(addr: nat) returns (slot: Option<nat>)
      requires Valid()
      modifies devices
      ensures Valid() && (View(), slot) == Create(old(View()), addr)
    {
      slot := FindFree();
      if slot.Some? { Put(slot.value, Cleared(addr)); }
    }

    method NewVirtual(p: nat) returns (slot: Option<nat>)
      requires Valid() && p < MAX_DEVICES
      modifies devices
      ensures Valid() && (View(), slot) == CreateVirtual(old(View()), p)
    {
      if !virtualEnabled { return None; }
      slot := FindFree();
      if slot.Some? {
        var i := slot.value;
        Put(i, devices[i].(addr := devices[p].addr, parent := Some(p), typed := true, name := Plain));
        Put(p, devices[p].(child := Some(i)));
      }
    }

    method SetConnected(i: nat)
      requires Valid() && i < MAX_DEVICES
      modifies devices
      ensures Valid() && View() == Connect(old(View()), i)
    {
      Put(i, devices[i].(connected := true, wentUp := true));
      Put(i, devices[i].(seat := NO_SEAT));
      assert View().devices == Connect(old(View()), i).devices;
    }

    method OnDeviceDisconnected(i: nat)
      requires Valid() && i < MAX_DEVICES
      modifies this`used, devices, seats
      ensures Valid() && View() == ReleaseSeat(old(View()), i)
    {
      var s := devices[i].seat;
      if s != NO_SEAT {
        if s < 0 || s >= MAX_DEVICES { return; }
        used := used - 1;
        seats[s] := NO_SEAT;
        devices[i] := devices[i].(seat := NO_SEAT);
        assert seats[..] == old(seats[..])[s := NO_SEAT];
        assert devices[..] == old(devices[..])[i := devices[i]];
      }
    }

    method TakeDown(i: nat)
      requires Valid() && i < MAX_DEVICES
      modifies this`used, devices, seats
      ensures Valid() && View() == DisconnectOne(old(View()), i)
    {
      var connected := devices[i].connected;
      Put(i, devices[i].(connected := false));
      if connected { OnDeviceDisconnected(i); }
    }

    method Child(i: nat) returns (c: Option<nat>)
      requires Valid() && i < MAX_DEVICES
      ensures c == ChildOf(View(), i)
    {
      c := devices[i].child;
      if c.Some? && c.value >= MAX_DEVICES { c := None; }
    }

    // The child first; `n` bounds the depth as in the specification, which shows that it is never reached.
    method TakeDownAll(i: nat, n: nat)
      requires Valid() && i < MAX_DEVICES
      modifies this`used, devices, seats
      ensures Valid() && View() == Disconnect(old(View()), i, n)
      decreases n
    {
      var c := Child(i);
      if c.Some? && n > 0 { TakeDownAll(c.value, n - 1); }
      TakeDown(i);
    }

    method ClearAll(i: nat, n: nat)
      requires Valid() && i < MAX_DEVICES
      modifies devices
      ensures Valid() && View() == Delete(old(View()), i, n)
      decreases n
    {
      var c := Child(i);
      if c.Some? && n > 0 { ClearAll(c.value, n - 1); }
      Put(i, Cleared(0));
    }

    // Disconnects the device and whoever is down its line of children, and deletes them.
    method Remove(i: nat)
      requires Valid() && i < MAX_DEVICES
      modifies this`used, this`severed, devices, seats
      ensures Valid() && View() == Drop(old(View()), i)
    {
      ghost var virtualChild := devices[i].parent.Some?;
      TakeDownAll(i, DEPTH);
      ClearAll(i, DEPTH);
      severed := severed || virtualChild;
    }

    method PlatformReady(i: nat) returns (answer: ReadyResult)
      requires Valid() && i < MAX_DEVICES
      modifies this`used, devices, seats
      ensures Valid() && (View(), answer) == OnDeviceReady(old(View()), i)
    {
      if used == MAX_DEVICES { return NoSlots; }
      if devices[i].seat != NO_SEAT { return InvalidController; }
      var j := FindFreeSeat();
      if j.None? { return NoneFound; }
      seats[j.value] := j.value;
      devices[i] := devices[i].(seat := j.value);
      used := used + 1;
      assert seats[..] == old(seats[..])[j.value := j.value];
      assert devices[..] == old(devices[..])[i := devices[i]];
      return Accepted;
    }

    method Move(i: nat, s: ConnState)
      requires Valid() && i < MAX_DEVICES
      modifies devices
      ensures Valid() && View() == SetState(old(View()), i, s)
    {
      Put(i, devices[i].(state := s));
    }

    method ReadyComplete(i: nat) returns (accepted: bool)
      requires Valid() && i < MAX_DEVICES
      modifies this`used, this`severed, devices, seats
      ensures Valid() && (View(), accepted) == SetReadyComplete(old(View()), i)
    {
      if devices[i].state == Ready { return false; }
      var answer := PlatformReady(i);
      if answer == NoSlots || answer == InvalidController {
        Remove(i);
        return false;
      }
      Move(i, Ready);
      return true;
    }

    method BringChild(i: nat)
      requires Valid() && i < MAX_DEVICES
      modifies this`used, this`severed, devices, seats
      ensures Valid() && View() == AddChild(old(View()), i)
    {
      var c := NewVirtual(i);
      if c.Some? {
        SetConnected(c.value);
        var kept := ReadyComplete(c.value);
        if !kept { Put(i, devices[i].(child := None)); }
      }
    }

    method Finish(i: nat)
      requires Valid() && i < MAX_DEVICES
      modifies this`used, this`severed, devices, seats
      ensures Valid() && View() == FinishSetup(old(View()), i)
    {
      var spawns := devices[i].parser.spawnsChild;
      var accepted := ReadyComplete(i);
      if accepted && spawns { BringChild(i); }
    }

    method Tell(i: nat)
      requires Valid() && i < MAX_DEVICES
      modifies this`told, devices
      ensures Valid() && View() == Pending(old(View()), i)
    {
      told := told + [devices[i]];
      Put(i, devices[i].(state := PendingReady, setups := devices[i].setups + 1));
    }

    method MakeReady(i: nat)
      requires Valid() && i < MAX_DEVICES
      modifies this`used, this`severed, this`told, devices, seats
      ensures Valid() && View() == SetReady(old(View()), i)
    {
      if devices[i].state == PendingReady { return; }
      var deferred := devices[i].parser.deferred;
      Tell(i);
      if !deferred { Finish(i); }
    }

    // -------------------------------------------------------------------------
    // The connection machine
    // -------------------------------------------------------------------------

    method GuessParser(i: nat, parser: Parser)
      requires Valid() && i < MAX_DEVICES
      modifies devices
      ensures Valid() && View() == Guess(old(View()), i, parser)
    {
      if !devices[i].typed { Put(i, devices[i].(typed := true, parser := parser)); }
    }

    method StartQuery(i: nat)
      requires Valid() && i < MAX_DEVICES
      modifies this, devices, seats
      ensures Valid() && View() == SdpStart(old(View()), i)
    {
      if sdp.Some? {
        Remove(i);
        return;
      }
      sdp := Some(i);
      Move(i, VendorRequested);
    }

    method StartHidQuery(i: nat)
      requires Valid() && i < MAX_DEVICES
      modifies this, devices, seats
      ensures Valid() && View() == SdpStartHid(old(View()), i)
      decreases 0, 3
    {
      if !devices[i].parser.needsDescriptor {
        EndQuery(i);
        return;
      }
      if sdp.None? { return; }
      Move(i, HidRequested);
    }

    method EndQuery(i: nat)
      requires Valid() && i < MAX_DEVICES
      modifies this, devices, seats
      ensures Valid() && View() == SdpEnd(old(View()), i)
      decreases 0, 2
    {
      Move(i, HidFetched);
      sdp := None;
      ProcessFsm(i);
    }

    method ProcessFsm(i: nat)
      requires Valid() && i < MAX_DEVICES
      modifies this, devices, seats
      ensures Valid() && View() == Process(old(View()), i)
      decreases Rank(devices[i].state), 1
    {
      var d := devices[i];
      if d.name == Unnamed && (d.state == Discovered || d.state == InterruptConnected) {
        Move(i, NameInquired);
        return;
      }
      if d.state == NameFetched {
        ProcessName(i);
        return;
      }
      if d.state == VendorFetched {
        StartHidQuery(i);
        return;
      }
      if d.state == HidFetched {
        if d.incoming {
          MakeReady(i);
          return;
        }
        if d.query == BeforeConnect { Move(i, ControlRequested); } else { MakeReady(i); }
        return;
      }
      if !d.incoming {
        if d.state == ControlConnected {
          Move(i, InterruptRequested);
          return;
        }
        if d.state == InterruptConnected {
          match d.query {
            case BeforeConnect => MakeReady(i);
            case NotNeeded => MakeReady(i);
            case AfterConnect => StartQuery(i);
          }
        }
      }
    }

    method ProcessName(i: nat)
      requires Valid() && i < MAX_DEVICES
      modifies this, devices, seats
      ensures Valid() && View() == ProcessNamed(old(View()), i)
    {
      var name := devices[i].name;
      if name == WirelessController {
        Put(i, devices[i].(query := BeforeConnect));
        StartQuery(i);
        return;
      }
      if name.Known? {
        GuessParser(i, name.parser);
        Put(i, devices[i].(query := NotNeeded));
        Move(i, HidFetched);
      }
      if devices[i].incoming {
        if devices[i].query == NotNeeded { MakeReady(i); } else { StartQuery(i); }
        return;
      }
      Move(i, ControlRequested);
    }

    // -------------------------------------------------------------------------
    // Events
    // -------------------------------------------------------------------------

    method OnConnectionRequest(addr: nat)
      requires Valid()
      modifies devices
      ensures Valid() && View() == Handle(old(View()), ConnectionRequest(addr))
    {
      var slot := InstanceForAddress(addr);
      if slot.None? {
        slot := NewDevice(addr);
        if slot.None? { return; }
      }
      Put(slot.value, devices[slot.value].(incoming := true));
    }

    // `declined`: incoming connections are switched off, or the address is not on the allow-list.
    method OnL2capIncoming(addr: nat, psm: Psm, declined: bool)
      requires Valid()
      modifies this`used, this`severed, devices, seats
      ensures Valid()
      ensures View() == if declined then old(View()) else Handle(old(View()), IncomingChannel(addr, psm))
    {
      if declined { return; }
      var slot := InstanceForAddress(addr);
      if slot.Some? && devices[slot.value].state == Ready { Remove(slot.value); }
      if psm == Control { OnConnectionRequest(addr); }
    }

    method OnL2capOpened(addr: nat, psm: Psm, ok: bool)
      requires Valid()
      modifies this, devices, seats
      ensures Valid() && View() == Handle(old(View()), ChannelOpened(addr, psm, ok))
    {
      var slot := InstanceForAddress(addr);
      if slot.None? { return; }
      var i := slot.value;
      if !ok {
        Remove(i);
        return;
      }
      match psm {
        case Control => Move(i, ControlConnected);
        case Interrupt =>
          Move(i, InterruptConnected);
          SetConnected(i);
        case OtherPsm =>
      }
      ProcessFsm(i);
    }

    method OnInquiry(addr: nat, name: Name)
      requires Valid()
      modifies this, devices, seats
      ensures Valid() && View() == Handle(old(View()), InquiryResult(addr, name))
    {
      var slot := InstanceForAddress(addr);
      if slot.Some? {
        if devices[slot.value].state == Ready { return; }
      } else {
        slot := NewDevice(addr);
        if slot.None? { return; }
        Put(slot.value, Found(devices[slot.value], name));
      }
      ProcessFsm(slot.value);
    }

    method OnRemoteName(addr: nat, name: Name)
      requires Valid()
      modifies this, devices, seats
      ensures Valid() && View() == Handle(old(View()), NameComplete(addr, name))
    {
      var slot := InstanceForAddress(addr);
      if slot.None? { return; }
      var i := slot.value;
      var s := devices[i].state;
      Put(i, devices[i].(name := name));
      if s != PendingReady && s != Ready {
        Move(i, NameFetched);
        ProcessFsm(i);
      }
    }

    method OnVendorAnswer(parser: Parser)
      requires Valid()
      modifies this, devices, seats
      ensures Valid() && View() == Handle(old(View()), VendorResult(parser))
    {
      if sdp.None? { return; }
      var i := sdp.value;
      GuessParser(i, parser);
      Move(i, VendorFetched);
      ProcessFsm(i);
    }

    method OnHidAnswer()
      requires Valid()
      modifies this, devices, seats
      ensures Valid() && View() == Handle(old(View()), HidResult)
    {
      if sdp.Some? { EndQuery(sdp.value); }
    }

    method OnNameTimeout(i: nat)
      requires Valid() && i < MAX_DEVICES
      modifies this, devices, seats
      ensures Valid() && View() == Handle(old(View()), NameTimeout(i))
    {
      Put(i, devices[i].(name := Plain));
      Move(i, NameFetched);
      ProcessFsm(i);
    }

    method OnSdpTimeout()
      requires Valid()
      modifies this`sdp
      ensures Valid() && View() == Handle(old(View()), Event.SdpTimeout)
    {
      sdp := None;
    }

    method OnConnectionTimeout(i: nat)
      requires Valid() && i < MAX_DEVICES
      modifies this`used, this`severed, devices, seats
      ensures Valid() && View() == Handle(old(View()), ConnectionTimeout(i))
    {
      if devices[i].state == Ready { return; }
      Remove(i);
    }

    method OnAdvertised(addr: nat, name: Name)
      requires Valid()
      modifies devices
      ensures Valid() && View() == Handle(old(View()), BleAdvertised(addr, name))
    {
      var slot := InstanceForAddress(addr);
      if slot.Some? { return; }
      slot := NewDevice(addr);
      if slot.None? { return; }
      var i := slot.value;
      Put(i, devices[i].(name := name, ble := true, state := Discovered));
    }

    method OnHidServiceConnected(i: nat, parser: Parser)
      requires Valid() && i < MAX_DEVICES
      modifies this`used, this`severed, this`told, devices, seats
      ensures Valid() && View() == Handle(old(View()), BleConnected(i, parser))
    {
      GuessParser(i, parser);
      SetConnected(i);
      MakeReady(i);
    }

    // The packet handler: every event to its own method.
    method Dispatch(e: Event)
      requires Valid()
      modifies this, devices, seats
      ensures Valid() && View() == Handle(old(View()), e)
    {
      match e {
        case ConnectionRequest(addr) => OnConnectionRequest(addr);
        case IncomingChannel(addr, psm) => OnL2capIncoming(addr, psm, false);
        case ChannelOpened(addr, psm, ok) => OnL2capOpened(addr, psm, ok);
        case InquiryResult(addr, name) => OnInquiry(addr, name);
        case NameComplete(addr, name) => OnRemoteName(addr, name);
        case NameTimeout(i) => if i < MAX_DEVICES { OnNameTimeout(i); }
        case VendorResult(parser) => OnVendorAnswer(parser);
        case HidResult => OnHidAnswer();
        case SdpTimeout => OnSdpTimeout();
        case SetupDone(i) => if i < MAX_DEVICES { Finish(i); }
        case ConnectionTimeout(i) => if i < MAX_DEVICES { OnConnectionTimeout(i); }
        case Gone(i) => if i < MAX_DEVICES { Remove(i); }
        case BleAdvertised(addr, name) => OnAdvertised(addr, name);
        case BleConnected(i, parser) => if i < MAX_DEVICES { OnHidServiceConnected(i, parser); }
        case VirtualSwitch(enabled) => virtualEnabled := enabled;
      }
    }

    // A plausible event leaves a settled host settled, with all that means for seats, stages, addresses and the
    // history of setups.
    method OnEvent(e: Event)
      requires Valid()
      modifies this, devices, seats
      ensures Valid() && View() == Handle(old(View()), e)
      ensures Settled(old(View())) && Plausible(old(View()), e) ==> Settled(View())
    {
      ghost var was := View();
      Dispatch(e);
      if Settled(was) && Plausible(was, e) { StepSettles(was, e); }
    }
  }
}
