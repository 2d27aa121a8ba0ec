/** Outgoing HID reports: a ring buffer of 32 slots behind the send functions of a device.

    A report that L2CAP does not take is queued; every "can send now" event takes the oldest queued
    report out and submits it again, and a second failure puts it back. */
module ReportQueue {
  import opened Prelude

  const SLOTS := 32        // UNI_CIRCULAR_BUFFER_SIZE
  const SLOT_BYTES := 128  // UNI_CIRCULAR_BUFFER_DATA_SIZE
  const CAPACITY := SLOTS - 1

  type i16 = x: int | -0x8000 <= x < 0x8000

  // The channel id is an unsigned 16-bit value to the senders and a signed one in a slot.
  function ToI16(x: u16): i16 { if x < 0x8000 then x else x - 0x1_0000 }
  function ToU16(x: i16): u16 { if x >= 0 then x else x + 0x1_0000 }

  datatype Report = Report(cid: u16, data: seq<u8>)

  datatype Slot = Slot(cid: i16, data: seq<u8>, len: nat)

  datatype PutResult = Ok | Full | TooBig

  ghost predicate SlotOk(s: Slot) { |s.data| == SLOT_BYTES && s.len < SLOT_BYTES }

  ghost function SlotReport(s: Slot): Report
    requires SlotOk(s)
  {
    Report(ToU16(s.cid), s.data[..s.len])
  }

  // ---------------------------------------------------------------------------
  // The sender as a first-in first-out queue
  // ---------------------------------------------------------------------------

  // `sent` and `refused` list what L2CAP took and what no slot was found for, in order.
  datatype Outbox = Outbox(queue: seq<Report>, sent: seq<Report>, refused: seq<Report>)

  datatype Event =
    | Send(report: Report, accepted: bool)  // a driver sends; does L2CAP take it?
    | CanSendNow(accepted: bool)            // the oldest queued report is tried again

  predicate Sendable(r: Report) { r.cid != 0 && r.data != [] }

  function Submit(o: Outbox, r: Report, accepted: bool): Outbox {
    if !Sendable(r) then o
    else if accepted then o.(sent := o.sent + [r])
    else if |o.queue| >= CAPACITY || |r.data| >= SLOT_BYTES then o.(refused := o.refused + [r])
    else o.(queue := o.queue + [r])
  }

  function Step(o: Outbox, e: Event): Outbox {
    match e
    case Send(r, accepted) => Submit(o, r, accepted)
    case CanSendNow(accepted) =>
      if o.queue == [] then o else Submit(o.(queue := o.queue[1..]), o.queue[0], accepted)
  }

  function Run(o: Outbox, events: seq<Event>): Outbox
    decreases |events|
  {
    if events == [] then o else Run(Step(o, events[0]), events[1..])
  }

  // What the drivers handed in, leaving out what the argument checks drop.
  function Submitted(events: seq<Event>): seq<Report>
    decreases |events|
  {
    if events == [] then []
    else SubmittedBy(events[0]) + Submitted(events[1..])
  }

  function SubmittedBy(e: Event): seq<Report> {
    if e.Send? && Sendable(e.report) then [e.report] else []
  }

  ghost predicate Queued(o: Outbox) {
    && |o.queue| <= CAPACITY
    && forall r <- o.queue :: Sendable(r) && |r.data| < SLOT_BYTES
  }

  ghost function Everything(o: Outbox): multiset<Report> {
    multiset(o.sent) + multiset(o.queue) + multiset(o.refused)
  }

  lemma SubmitKeeps(o: Outbox, r: Report, accepted: bool)
    requires Queued(o) && Sendable(r)
    ensures Queued(Submit(o, r, accepted))
    ensures Everything(Submit(o, r, accepted)) == Everything(o) + multiset{r}
  {
  }

  // A report handed in: dropped if it has no channel or no bytes; transmitted if L2CAP takes it; otherwise queued
  // behind the others exactly if fewer than 31 wait and it is shorter than 128 bytes, and refused if not.
  lemma HandedIn(o: Outbox, r: Report, accepted: bool)
    requires Queued(o)
    ensures var n := Step(o, Send(r, accepted));
            if r.cid == 0 || |r.data| == 0 then n == o
            else if accepted then n == o.(sent := o.sent + [r])
            else if |o.queue| < 31 && |r.data| < 128 then n == o.(queue := o.queue + [r])
            else n == o.(refused := o.refused + [r])
  {
  }

  // Reports that fail when they are handed in are queued in order, as long as there is room.
  lemma {:induction false} FailuresQueue(o: Outbox, rs: seq<Report>)
    requires Queued(o) && |o.queue| + |rs| <= 31
    requires forall r <- rs :: r.cid != 0 && 0 < |r.data| < 128
    ensures Run(o, AllFail(rs)) == o.(queue := o.queue + rs)
    decreases |rs|
  {
    if rs == [] {
      assert o.queue + rs == o.queue;
    } else {
      assert rs[0] in rs;
      HandedIn(o, rs[0], false);
      StepKeeps(o, Send(rs[0], false));
      var n := Step(o, Send(rs[0], false));
      assert AllFail(rs)[1..] == AllFail(rs[1..]);
      FailuresQueue(n, rs[1..]);
      assert n.queue + rs[1..] == o.queue + rs;
    }
  }

  function AllFail(rs: seq<Report>): seq<Event> { seq(|rs|, i requires 0 <= i < |rs| => Send(rs[i], false)) }

  // And once the channel is free they go out, each once, in the order they were handed in.
  lemma FailedReportsGoOut(o: Outbox, rs: seq<Report>)
    requires Queued(o) && o.queue == [] && |rs| <= 31
    requires forall r <- rs :: r.cid != 0 && 0 < |r.data| < 128
    ensures Run(Run(o, AllFail(rs)), Repeat(CanSendNow(true), |rs|)) == o.(sent := o.sent + rs)
  {
    FailuresQueue(o, rs);
    var n := Run(o, AllFail(rs));
    Conservation(o, AllFail(rs));
    assert n.queue == rs;
    SuccessesDrain(n, |rs|);
    assert rs[|rs|..] == [] && rs[..|rs|] == rs;
  }

  // A queued report that fails again goes back to the end of the queue: the put-back is never
  // refused, and the order of the others is kept. One that succeeds leaves from the front.
  lemma RetryRotates(o: Outbox)
    requires Queued(o) && o.queue != []
    ensures Step(o, CanSendNow(false)) == o.(queue := o.queue[1..] + [o.queue[0]])
    ensures Step(o, CanSendNow(true)) == o.(queue := o.queue[1..], sent := o.sent + [o.queue[0]])
  {
    assert o.queue[0] in o.queue;
  }

  lemma TakeOldest(o: Outbox)
    requires o.queue != []
    ensures Everything(o) == Everything(o.(queue := o.queue[1..])) + multiset{o.queue[0]}
  {
    assert o.queue == [o.queue[0]] + o.queue[1..];
  }

  // One event adds to the whole exactly what was submitted with it.
  lemma StepKeeps(o: Outbox, e: Event)
    requires Queued(o)
    ensures Queued(Step(o, e))
    ensures Everything(Step(o, e)) == Everything(o) + multiset(SubmittedBy(e))
  {
    match e
    case Send(r, accepted) =>
      if Sendable(r) { SubmitKeeps(o, r, accepted); }
    case CanSendNow(accepted) =>
      if o.queue != [] {
        assert o.queue[0] in o.queue;
        TakeOldest(o);
        SubmitKeeps(o.(queue := o.queue[1..]), o.queue[0], accepted);
      }
  }

  // Over any run: submitted == transmitted + queued + refused, as multisets.
  lemma {:induction false} Conservation(o: Outbox, events: seq<Event>)
    requires Queued(o)
    ensures Queued(Run(o, events))
    ensures Everything(Run(o, events)) == Everything(o) + multiset(Submitted(events))
    decreases |events|
  {
    if events != [] {
      StepKeeps(o, events[0]);
      Conservation(Step(o, events[0]), events[1..]);
      SplitMultiset(SubmittedBy(events[0]), Submitted(events[1..]));
    }
  }

  lemma SplitMultiset(s: seq<Report>, t: seq<Report>)
    ensures multiset(s + t) == multiset(s) + multiset(t)
  {}

  function Repeat(e: Event, n: nat): seq<Event> { seq(n, i => e) }

  // k failed retries rotate the queue k places; as many failures as there are entries restore it.
  lemma FailuresRotate(o: Outbox, k: nat)
    requires Queued(o) && k <= |o.queue|
    ensures Run(o, Repeat(CanSendNow(false), k)) == o.(queue := o.queue[k..] + o.queue[..k])
  {
    assert o.queue[0..] + o.queue[..0] == o.queue;
    FailuresRotateFrom(o, 0, k);
  }

  lemma {:induction false} FailuresRotateFrom(o: Outbox, j: nat, k: nat)
    requires Queued(o) && j <= k <= |o.queue|
    ensures Run(o.(queue := o.queue[j..] + o.queue[..j]), Repeat(CanSendNow(false), k - j))
         == o.(queue := o.queue[k..] + o.queue[..k])
    decreases k - j
  {
    if j < k {
      var p := o.(queue := o.queue[j..] + o.queue[..j]);
      assert Queued(p);
      RetryRotates(p);
      assert p.queue[1..] + [p.queue[0]] == o.queue[j + 1..] + o.queue[..j + 1];
      assert Repeat(CanSendNow(false), k - j)[1..] == Repeat(CanSendNow(false), k - j - 1);
      FailuresRotateFrom(o, j + 1, k);
    }
  }

  // k successful retries transmit the k oldest entries, oldest first.
  lemma {:induction false} SuccessesDrain(o: Outbox, k: nat)
    requires Queued(o) && k <= |o.queue|
    ensures Run(o, Repeat(CanSendNow(true), k)) == o.(queue := o.queue[k..], sent := o.sent + o.queue[..k])
    decreases k
  {
    if k == 0 {
      assert o.sent + o.queue[..0] == o.sent;
    } else {
      var p := Step(o, CanSendNow(true));
      RetryRotates(o);
      StepKeeps(o, CanSendNow(true));
      assert Repeat(CanSendNow(true), k)[1..] == Repeat(CanSendNow(true), k - 1);
      SuccessesDrain(p, k - 1);
      assert p.sent + p.queue[..k - 1] == o.sent + o.queue[..k];
    }
  }

  // ---------------------------------------------------------------------------
  // The ring
  // ---------------------------------------------------------------------------

  class CircularBuffer {
    const buffer: array<Slot>
    var head: int
    var tail: int

    ghost predicate Valid()
      reads this, buffer
    {
      && buffer.Length == SLOTS
      && 0 <= head < SLOTS
      && 0 <= tail < SLOTS
      && forall i :: 0 <= i < SLOTS ==> SlotOk(buffer[i])
    }

    ghost function Count(): (n: nat)
      reads this, buffer
      requires Valid()
      ensures n <= CAPACITY
    {
      if head <= tail then tail - head else tail + SLOTS - head
    }

    ghost function Place(k: nat): (i: nat)
      reads this, buffer
      requires Valid() && k < SLOTS
      ensures i < SLOTS
    {
      if head + k < SLOTS then head + k else head + k - SLOTS
    }

    // The queued reports, oldest first.
    ghost function Contents(): (s: seq<Report>)
      reads this, buffer
      requires Valid()
      ensures |s| == Count()
    {
      seq(Count(), k requires Valid() && 0 <= k < Count() reads this, buffer => SlotReport(buffer[Place(k)]))
    }

    constructor ()
      ensures Valid() && fresh(buffer) && Contents() == []
    {
      buffer := new Slot[SLOTS](i => Slot(0, seq(SLOT_BYTES, j => 0), 0));
      head, tail := 0, 0;
    }

    predicate IsEmpty()
      reads this
    {
      head == tail
    }

    predicate IsFull()
      reads this
    {
      tail + 1 == head || (head == 0 && tail == SLOTS - 1)
    }

    lemma EmptyAndFull()
      requires Valid()
      ensures IsEmpty() <==> Contents() == []
      ensures IsFull() <==> |Contents()| == CAPACITY
    {}

    method Reset()
      requires Valid()
      modifies `head, `tail
      ensures Valid() && Contents() == []
    {
      head, tail := 0, 0;
    }

    // Writes the tail slot and no other.
    method Put(cid: u16, data: seq<u8>) returns (result: PutResult)
      requires Valid()
      modifies `tail, buffer
      ensures Valid()
      ensures result == Full <==> |old(Contents())| == CAPACITY
      ensures result == TooBig <==> |old(Contents())| < CAPACITY && |data| >= SLOT_BYTES
      ensures Contents() == if result == Ok then old(Contents()) + [Report(cid, data)] else old(Contents())
      ensures result != Ok ==> tail == old(tail) && buffer[..] == old(buffer[..])
      ensures forall i | 0 <= i < SLOTS && i != old(tail) :: buffer[i] == old(buffer[i])
    {
      if IsFull() { return Full; }
      if |data| >= SLOT_BYTES { return TooBig; }
      buffer[tail] := Slot(ToI16(cid), data + buffer[tail].data[|data|..], |data|);
      assert SlotReport(buffer[tail]) == Report(cid, data);
      tail := tail + 1;
      if tail == SLOTS { tail := 0; }
      result := Ok;
    }

    // Hands out the place of the oldest entry; its bytes stay in the ring.
    method Get() returns (found: bool, at: nat)
      requires Valid()
      modifies `head
      ensures Valid()
      ensures found <==> old(Contents()) != []
      ensures !found ==> Contents() == old(Contents())
      ensures found ==> at == old(head) && SlotReport(buffer[at]) == old(Contents())[0]
                        && Contents() == old(Contents())[1..] && tail != at
    {
      if IsEmpty() { return false, 0; }
      at := head;
      head := head + 1;
      if head == SLOTS { head := 0; }
      found := true;
    }
  }

  // ---------------------------------------------------------------------------
  // The send functions
  // ---------------------------------------------------------------------------

  class Sender {
    const ring: CircularBuffer
    ghost var sent: seq<Report>
    ghost var refused: seq<Report>

    ghost predicate Valid()
      reads this, ring, ring.buffer
    {
      ring.Valid() && Queued(View())
    }

    ghost function View(): Outbox
      reads this, ring, ring.buffer
      requires ring.Valid()
    {
      Outbox(ring.Contents(), sent, refused)
    }

    constructor ()
      ensures Valid() && fresh(ring) && fresh(ring.buffer)
      ensures View() == Outbox([], [], [])
    {
      ring := new CircularBuffer();
      sent, refused := [], [];
    }

    // A report that was not accepted waits in the ring, or is refused when that is full.
    method Keep(cid: u16, report: seq<u8>)
      requires Valid() && Sendable(Report(cid, report))
      modifies this`refused, ring`tail, ring.buffer
      ensures ring.Valid() && View() == Submit(old(View()), Report(cid, report), false)
      ensures forall i | 0 <= i < SLOTS && i != old(ring.tail) :: ring.buffer[i] == old(ring.buffer[i])
    {
      var result := ring.Put(cid, report);
      if result != Ok {
        refused := refused + [Report(cid, report)];
      }
    }

    // `accepted` is the answer of l2cap_send.
    method SendReport(cid: u16, report: seq<u8>, accepted: bool)
      requires Valid()
      modifies this, ring`tail, ring.buffer
      ensures Valid()
      ensures View() == Step(old(View()), Send(Report(cid, report), accepted))
      ensures forall i | 0 <= i < SLOTS && i != old(ring.tail) :: ring.buffer[i] == old(ring.buffer[i])
    {
      if cid == 0 || |report| == 0 { return; }
      ghost var r := Report(cid, report);
      StepKeeps(View(), Send(r, accepted));
      if accepted {
        sent := sent + [r];
      } else {
        Keep(cid, report);
      }
    }

    // Tries the oldest queued report again. The slot it reads from is not the slot a put-back writes.
    method SendQueuedReports(accepted: bool)
      requires Valid()
      modifies this, ring`head, ring`tail, ring.buffer
      ensures Valid()
      ensures View() == Step(old(View()), CanSendNow(accepted))
      ensures old(ring.Contents()) != [] ==> ring.buffer[old(ring.head)] == old(ring.buffer[ring.head])
    {
      var found, at := ring.Get();
      if !found { return; }
      var slot := ring.buffer[at];
      assert slot.len <= |slot.data|;
      SendReport(ToU16(slot.cid), slot.data[..slot.len], accepted);
    }
  }
}
