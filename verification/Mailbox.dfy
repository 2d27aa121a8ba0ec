/** How input reports cross from the Bluetooth CPU to the application CPU.

    CPU 0 keeps, for each seat, the newest report and an "updated" mark. CPU 1 polls the seats one after the
    other, turns the change in which seats are taken into connect and disconnect callbacks, and copies the
    chosen gamepad's report into the state the application reads. The two run at the same time: a run is any
    interleaving of the atomic steps below. A report is stored, and taken, under one mutex; a seat's number
    is looked at without it. */
module Mailbox {
  import opened HidTable
  import opened Prelude

  datatype Report = Report(gamepad: bool, axes: int)
  const NOTHING := Report(false, 0)

  // CPU 0's side of a seat, and CPU 1's.
  datatype Slot = Slot(idx: int, data: Report, updated: bool)
  datatype Pad = Pad(data: Report, hasData: bool, connected: bool)
  datatype Shown = Shown(connected: bool, axes: int)

  // Where CPU 1 is in its poll: about to look at seat i, about to take seat i's report, or past the loop.
  datatype Pc = AtCheck(i: nat) | AtTake(i: nat) | AtFinish

  // History: what happened to the reports and the seats, what each poll found, and which callbacks ran.
  datatype Entry =
    | Published(seat: nat, report: Report) | Taken(seat: nat, report: Report) | Missed(seat: nat) | Reset(seat: nat)
    | Assigned(seat: nat) | Freed(seat: nat) | Looked(seat: nat, busy: bool)
    | Polled(seen: seq<bool>)  // the end of a poll
  datatype Call = OnConnect(seat: nat) | OnDisconnect(seat: nat)

  // What the callbacks and the application's own update work on.
  datatype App = App(pads: seq<Pad>, pick: Option<nat>, state: Shown, calls: seq<Call>)

  datatype World = World(
    slots: seq<Slot>, releasing: Option<nat>,
    app: App, pc: Pc, seen: seq<bool>, prev: seq<bool>,
    log: seq<Entry>)

  predicate SizedApp(a: App) {
    |a.pads| == MAX_DEVICES && (a.pick.Some? ==> a.pick.value < MAX_DEVICES)
  }

  predicate SizedWorld(w: World) {
    && |w.slots| == MAX_DEVICES && SizedApp(w.app) && |w.seen| == MAX_DEVICES && |w.prev| == MAX_DEVICES
    && (w.releasing.Some? ==> w.releasing.value < MAX_DEVICES)
    && (!w.pc.AtFinish? ==> w.pc.i < MAX_DEVICES)
  }

  function Off(n: nat): (r: seq<bool>)
    ensures |r| == n && forall i :: 0 <= i < n ==> !r[i]
  {
    seq(n, i => false)
  }

  function Start(): (w: World)
    ensures SizedWorld(w)
  {
    World(seq(MAX_DEVICES, i => Slot(NO_SEAT, NOTHING, false)), None,
          App(seq(MAX_DEVICES, i => Pad(NOTHING, false, false)), None, Shown(false, 0), []),
          AtCheck(0), Off(MAX_DEVICES), Off(MAX_DEVICES), [])
  }

  // ---------------------------------------------------------------------------
  // CPU 0
  // ---------------------------------------------------------------------------

  function Publish(w: World, i: nat, r: Report): (w': World)
    requires SizedWorld(w) && i < MAX_DEVICES
    ensures SizedWorld(w')
  {
    w.(slots := w.slots[i := w.slots[i].(data := r, updated := true)], log := w.log + [Published(i, r)])
  }

  function Assign(w: World, i: nat): (w': World)
    requires SizedWorld(w) && i < MAX_DEVICES
    ensures SizedWorld(w')
  {
    w.(slots := w.slots[i := w.slots[i].(idx := i)], log := w.log + [Assigned(i)])
  }

  // Releasing a seat takes two steps: the whole record is zeroed, then it is marked free.
  function Clear(w: World, i: nat): (w': World)
    requires SizedWorld(w) && i < MAX_DEVICES
    ensures SizedWorld(w')
  {
    w.(slots := w.slots[i := Slot(0, NOTHING, false)], releasing := Some(i), log := w.log + [Reset(i)])
  }

  function MarkFree(w: World): (w': World)
    requires SizedWorld(w) && w.releasing.Some?
    ensures SizedWorld(w')
  {
    var i := w.releasing.value;
    w.(slots := w.slots[i := w.slots[i].(idx := NO_SEAT)], releasing := None, log := w.log + [Freed(i)])
  }

  // ---------------------------------------------------------------------------
  // CPU 1
  // ---------------------------------------------------------------------------

  function NextPc(i: nat): Pc { if i + 1 < MAX_DEVICES then AtCheck(i + 1) else AtFinish }

  function Check(w: World): (w': World)
    requires SizedWorld(w) && w.pc.AtCheck?
    ensures SizedWorld(w')
  {
    var i := w.pc.i;
    if w.slots[i].idx == NO_SEAT then w.(pc := NextPc(i), log := w.log + [Looked(i, false)])
    else w.(pc := AtTake(i), log := w.log + [Looked(i, true)])
  }

  function Take(w: World): (w': World)
    requires SizedWorld(w) && w.pc.AtTake?
    ensures SizedWorld(w')
  {
    var i := w.pc.i;
    var s := w.slots[i];
    var pad := w.app.pads[i];
    var next := w.(pc := NextPc(i), seen := w.seen[i := true]);
    if s.updated then
      next.(slots := w.slots[i := s.(updated := false)],
            app := w.app.(pads := w.app.pads[i := pad.(data := s.data, hasData := true)]),
            log := w.log + [Taken(i, s.data)])
    else
      next.(app := w.app.(pads := w.app.pads[i := pad.(hasData := false)]), log := w.log + [Missed(i)])
  }

  // The application adopts the first controller that connects while it has none, and lets go of it when it
  // disconnects.
  function Edge(a: App, i: nat, was: bool, now: bool): (r: App)
    requires SizedApp(a) && i < MAX_DEVICES
    ensures SizedApp(r)
  {
    if was == now then a
    else if now then
      a.(pads := a.pads[i := a.pads[i].(connected := true)],
         pick := if a.pick.None? then Some(i) else a.pick,
         calls := a.calls + [OnConnect(i)])
    else
      a.(pads := a.pads[i := a.pads[i].(connected := false)],
         pick := if a.pick == Some(i) then None else a.pick,
         state := if a.pick == Some(i) then Shown(false, 0) else a.state,
         calls := a.calls + [OnDisconnect(i)])
  }

  function Edges(a: App, prev: seq<bool>, seen: seq<bool>, n: nat): (r: App)
    requires SizedApp(a) && |prev| == |seen| == MAX_DEVICES && n <= MAX_DEVICES
    ensures SizedApp(r)
  {
    if n == 0 then a else Edge(Edges(a, prev, seen, n - 1), n - 1, prev[n - 1], seen[n - 1])
  }

  function Show(a: App): (r: App)
    requires SizedApp(a)
    ensures SizedApp(r)
  {
    if a.pick.None? || !a.pads[a.pick.value].connected || !a.pads[a.pick.value].data.gamepad then
      a.(state := a.state.(connected := false))
    else if !a.pads[a.pick.value].hasData then a
    else a.(state := Shown(true, a.pads[a.pick.value].data.axes))
  }

  // No callbacks run when nothing changed.
  function Notify(a: App, prev: seq<bool>, seen: seq<bool>): (r: App)
    requires SizedApp(a) && |prev| == |seen| == MAX_DEVICES
    ensures SizedApp(r)
  {
    if seen == prev then a else Edges(a, prev, seen, MAX_DEVICES)
  }

  function Finish(w: World): (w': World)
    requires SizedWorld(w) && w.pc.AtFinish?
    ensures SizedWorld(w')
  {
    w.(app := Show(Notify(w.app, w.prev, w.seen)), prev := w.seen, pc := AtCheck(0), seen := Off(MAX_DEVICES),
       log := w.log + [Polled(w.seen)])
  }

  // ---------------------------------------------------------------------------
  // Interleavings
  // ---------------------------------------------------------------------------

  datatype Step = DoPublish(i: nat, r: Report) | DoAssign(i: nat) | DoClear(i: nat) | DoMark | DoPoll

  // CPU 0 finishes a release before it does anything else.
  predicate Can(w: World, s: Step)
    requires SizedWorld(w)
  {
    match s
    case DoPublish(i, r) => i < MAX_DEVICES && w.releasing.None?
    case DoAssign(i) => i < MAX_DEVICES && w.releasing.None? && w.slots[i].idx == NO_SEAT
    case DoClear(i) => i < MAX_DEVICES && w.releasing.None? && w.slots[i].idx != NO_SEAT
    case DoMark => w.releasing.Some?
    case DoPoll => true
  }

  function Poll(w: World): (w': World)
    requires SizedWorld(w)
    ensures SizedWorld(w')
  {
    match w.pc
    case AtCheck(i) => Check(w)
    case AtTake(i) => Take(w)
    case AtFinish => Finish(w)
  }

  function Act(w: World, s: Step): (w': World)
    requires SizedWorld(w) && Can(w, s)
    ensures SizedWorld(w')
  {
    match s
    case DoPublish(i, r) => Publish(w, i, r)
    case DoAssign(i) => Assign(w, i)
    case DoClear(i) => Clear(w, i)
    case DoMark => MarkFree(w)
    case DoPoll => Poll(w)
  }

  predicate CanAll(w: World, steps: seq<Step>)
    requires SizedWorld(w)
    decreases |steps|
  {
    steps == [] || (Can(w, steps[0]) && CanAll(Act(w, steps[0]), steps[1..]))
  }

  function ActAll(w: World, steps: seq<Step>): (w': World)
    requires SizedWorld(w) && CanAll(w, steps)
    ensures SizedWorld(w')
    decreases |steps|
  {
    if steps == [] then w else ActAll(Act(w, steps[0]), steps[1..])
  }

  // ---------------------------------------------------------------------------
  // What the history means
  // ---------------------------------------------------------------------------

  predicate OfSeat(e: Entry, i: nat) { !e.Polled? && e.seat == i }

  // The newest report published to seat i since it was last taken or reset.
  function Newest(log: seq<Entry>, i: nat): Option<Report> {
    if log == [] then None
    else
      var e := log[|log| - 1];
      if OfSeat(e, i) && e.Published? then Some(e.report)
      else if OfSeat(e, i) && (e.Taken? || e.Reset?) then None
      else Newest(log[..|log| - 1], i)
  }

  function LastTaken(log: seq<Entry>, i: nat): Report {
    if log == [] then NOTHING
    else
      var e := log[|log| - 1];
      if e.Taken? && e.seat == i then e.report else LastTaken(log[..|log| - 1], i)
  }

  // Seat i is taken: it was handed out and not marked free since.
  predicate Occupied(log: seq<Entry>, i: nat) {
    if log == [] then false
    else
      var e := log[|log| - 1];
      if OfSeat(e, i) && (e.Assigned? || e.Freed?) then e.Assigned? else Occupied(log[..|log| - 1], i)
  }

  // What the poll in progress found at seat i, if it has looked.
  function LookedNow(log: seq<Entry>, i: nat): Option<bool> {
    if log == [] then None
    else
      var e := log[|log| - 1];
      if e.Polled? then None
      else if e.Looked? && e.seat == i then Some(e.busy)
      else LookedNow(log[..|log| - 1], i)
  }

  // The poll in progress has asked seat i for a report,
  predicate AskedNow(log: seq<Entry>, i: nat) {
    if log == [] then false
    else
      var e := log[|log| - 1];
      !e.Polled? && ((OfSeat(e, i) && (e.Taken? || e.Missed?)) || AskedNow(log[..|log| - 1], i))
  }

  // and this is the one it took.
  function TakenNow(log: seq<Entry>, i: nat): Option<Report> {
    if log == [] then None
    else
      var e := log[|log| - 1];
      if e.Polled? then None
      else if e.Taken? && e.seat == i then Some(e.report)
      else TakenNow(log[..|log| - 1], i)
  }

  // The history up to the end of the last poll.
  function AsOfPoll(log: seq<Entry>): (r: seq<Entry>)
    ensures r == [] || r[|r| - 1].Polled?
  {
    if log == [] || log[|log| - 1].Polled? then log else AsOfPoll(log[..|log| - 1])
  }

  // The last complete poll found seat i taken.
  predicate SeenLast(log: seq<Entry>, i: nat) {
    if log == [] then false
    else
      var e := log[|log| - 1];
      if e.Polled? then i < |e.seen| && e.seen[i] else SeenLast(log[..|log| - 1], i)
  }

  // A report was taken from seat i after the last poll that found it free, that is, since it connected.
  predicate Fed(log: seq<Entry>, i: nat) {
    if log == [] then false
    else
      var e := log[|log| - 1];
      if e.Polled? then i < |e.seen| && e.seen[i] && Fed(log[..|log| - 1], i)
      else (e.Taken? && e.seat == i) || Fed(log[..|log| - 1], i)
  }

  // The lowest seat from `from` on, below n, that was free and is taken.
  function FirstNew(prev: seq<bool>, seen: seq<bool>, from: nat, n: nat): (r: Option<nat>)
    requires |prev| == |seen| == MAX_DEVICES && n <= MAX_DEVICES
    ensures r.Some? ==> from <= r.value < n && seen[r.value] && !prev[r.value]
    ensures r.Some? ==> forall j :: from <= j < r.value ==> !(seen[j] && !prev[j])
    ensures r.None? ==> forall j :: from <= j < n ==> !(seen[j] && !prev[j])
  {
    if n <= from then None
    else
      var before := FirstNew(prev, seen, from, n - 1);
      if before.Some? then before else if seen[n - 1] && !prev[n - 1] then Some(n - 1) else None
  }

  function SeenBits(log: seq<Entry>): (r: seq<bool>)
    ensures |r| == MAX_DEVICES
  {
    seq(MAX_DEVICES, i requires i >= 0 => SeenLast(log, i))
  }

  // Whom the application listens to after the last poll, from what the polls found: the same as before, while
  // its seat is found taken; otherwise the lowest seat that has just been taken, above the one that was lost.
  function Chosen(log: seq<Entry>): (r: Option<nat>)
    ensures r.Some? ==> r.value < MAX_DEVICES
  {
    if log == [] then None
    else
      var before, e := Chosen(log[..|log| - 1]), log[|log| - 1];
      if !e.Polled? || |e.seen| != MAX_DEVICES then before
      else
        var prev := SeenBits(log[..|log| - 1]);
        match before
        case Some(c) => if e.seen[c] then before else FirstNew(prev, e.seen, c + 1, MAX_DEVICES)
        case None => FirstNew(prev, e.seen, 0, MAX_DEVICES)
  }

  // Whom the callbacks leave chosen: the first that connected while nobody was, until it disconnects.
  function Picked(calls: seq<Call>): Option<nat> {
    if calls == [] then None
    else
      var before := Picked(calls[..|calls| - 1]);
      match calls[|calls| - 1]
      case OnConnect(i) => if before.None? then Some(i) else before
      case OnDisconnect(i) => if before == Some(i) then None else before
  }

  // The last callback for seat i was a connect.
  predicate LastOn(calls: seq<Call>, i: nat) {
    if calls == [] then false
    else
      var c := calls[|calls| - 1];
      if c.seat == i then c.OnConnect? else LastOn(calls[..|calls| - 1], i)
  }

  predicate WasPolled(log: seq<Entry>, seen: seq<bool>, i: nat)
    requires |seen| == MAX_DEVICES && i < MAX_DEVICES
  {
    LookedNow(log, i) == Some(seen[i]) && (seen[i] ==> AskedNow(log, i))
  }

  // Every poll of a seat yields the newest report, and yields nothing only when there is none; a seat is found
  // taken exactly while it is; and a whole poll has looked at every seat, and asked those it found taken.
  predicate PollIsRight(log: seq<Entry>, k: nat)
    requires k < |log|
  {
    match log[k]
    case Taken(i, r) => Newest(log[..k], i) == Some(r)
    case Missed(i) => Newest(log[..k], i) == None
    case Looked(i, busy) => busy <==> Occupied(log[..k], i)
    case Polled(seen) => |seen| == MAX_DEVICES && forall i: nat :: i < MAX_DEVICES ==> WasPolled(log[..k], seen, i)
    case _ => true
  }

  // A connect comes only while disconnected, a disconnect only while connected.
  predicate CallAlternates(calls: seq<Call>, k: nat)
    requires k < |calls|
  {
    calls[k].OnConnect? <==> !LastOn(calls[..k], calls[k].seat)
  }

  predicate Delivers(w: World, i: nat)
    requires SizedWorld(w) && i < MAX_DEVICES
  {
    && Newest(w.log, i) == (if w.slots[i].updated then Some(w.slots[i].data) else None)
    && w.app.pads[i].data == LastTaken(w.log, i)
  }

  predicate Tracks(a: App, prev: seq<bool>, i: nat)
    requires SizedApp(a) && |prev| == MAX_DEVICES && i < MAX_DEVICES
  {
    prev[i] == a.pads[i].connected == LastOn(a.calls, i)
  }

  ghost predicate CallsOk(a: App)
    requires SizedApp(a)
  {
    && (forall k: nat :: k < |a.calls| ==> CallAlternates(a.calls, k))
    && (a.pick.Some? ==> a.pads[a.pick.value].connected)
    && (a.state.connected ==> a.pick.Some?)
    && a.pick == Picked(a.calls)
  }

  function Reached(pc: Pc): nat { if pc.AtFinish? then MAX_DEVICES else pc.i }

  // A seat the poll has not got to is not yet marked as seen.
  predicate Ahead(w: World, i: nat)
    requires SizedWorld(w) && i < MAX_DEVICES
  {
    Reached(w.pc) <= i ==> !w.seen[i]
  }

  // What is shown is the chosen pad's report, unless that pad has just been given a new one.
  predicate Shows(a: App, seen: seq<bool>)
    requires SizedApp(a) && |seen| == MAX_DEVICES
  {
    a.state.connected ==>
      && a.pick.Some?
      && var c := a.pick.value;
         || (seen[c] && a.pads[c].hasData)
         || (a.pads[c].data.gamepad && a.state.axes == a.pads[c].data.axes)
  }

  // What the history says of one seat, with the poll wherever it is.
  predicate Witnessed(w: World, i: nat)
    requires SizedWorld(w) && i < MAX_DEVICES
  {
    && (w.slots[i].idx != NO_SEAT <==> Occupied(w.log, i))
    && (w.prev[i] <==> SeenLast(w.log, i))
    && (if w.seen[i] then AskedNow(w.log, i) && (w.app.pads[i].hasData <==> TakenNow(w.log, i).Some?)
        else TakenNow(w.log, i).None?)
    && (i < Reached(w.pc) ==> LookedNow(w.log, i) == Some(w.seen[i]))
    && (w.pc == AtTake(i) ==> LookedNow(w.log, i) == Some(true))
  }

  // Between polls the application reads what the last poll left: the chosen controller's report, if that is a
  // gamepad's and there has been one since it connected.
  predicate Reads(a: App, log: seq<Entry>) {
    && a.pick == Chosen(log)
    && (a.state.connected <==>
          a.pick.Some? && LastTaken(log, a.pick.value).gamepad && Fed(log, a.pick.value))
    && (a.state.connected ==> a.state.axes == LastTaken(log, a.pick.value).axes)
  }

  ghost predicate Inv(w: World) {
    && SizedWorld(w)
    && (forall i: nat :: i < MAX_DEVICES ==> Witnessed(w, i))
    && Reads(w.app, AsOfPoll(w.log))
    && (forall k: nat :: k < |w.log| ==> PollIsRight(w.log, k))
    && (forall i: nat :: i < MAX_DEVICES ==> Delivers(w, i))
    && (forall i: nat :: i < MAX_DEVICES ==> Tracks(w.app, w.prev, i))
    && (forall i: nat :: i < MAX_DEVICES ==> Ahead(w, i))
    && CallsOk(w.app)
    && Shows(w.app, w.seen)
  }

  // ---------------------------------------------------------------------------
  // Every step keeps it
  // ---------------------------------------------------------------------------

  lemma LogGrows(log: seq<Entry>, e: Entry)
    requires forall k: nat :: k < |log| ==> PollIsRight(log, k)
    requires PollIsRight(log + [e], |log|)
    ensures forall k: nat :: k < |log + [e]| ==> PollIsRight(log + [e], k)
  {
    forall k: nat | k < |log + [e]|
      ensures PollIsRight(log + [e], k)
    {
      if k < |log| {
        assert PollIsRight(log, k);
        assert (log + [e])[..k] == log[..k];
      }
    }
  }

  // An entry that is not the end of a poll.
  lemma EntryReads(a: App, log: seq<Entry>, e: Entry)
    requires Reads(a, AsOfPoll(log)) && !e.Polled?
    ensures Reads(a, AsOfPoll(log + [e]))
  {
    assert (log + [e])[..|log|] == log;
  }

  // What an entry says of the seat it is about; the other seats are as they were.
  lemma EntryWitnessed(w: World, w': World, e: Entry, i: nat)
    requires SizedWorld(w) && SizedWorld(w') && w'.log == w.log + [e] && !e.Polled? && i < MAX_DEVICES
    requires Witnessed(w, i) && w'.prev == w.prev
    requires e.seat != i ==>
               && (w'.slots[i].idx == NO_SEAT <==> w.slots[i].idx == NO_SEAT)
               && w'.seen[i] == w.seen[i] && w'.app.pads[i].hasData == w.app.pads[i].hasData
               && (i < Reached(w'.pc) ==> i < Reached(w.pc)) && (w'.pc == AtTake(i) ==> w.pc == AtTake(i))
    requires e.seat == i ==>
               && (w'.slots[i].idx != NO_SEAT <==>
                     if e.Assigned? then true else if e.Freed? then false else w.slots[i].idx != NO_SEAT)
               && (if e.Taken? || e.Missed? then w'.seen[i] && (w'.app.pads[i].hasData <==> e.Taken?)
                                               && (e.Missed? ==> TakenNow(w.log, i).None?)
                   else w'.seen[i] == w.seen[i] && w'.app.pads[i].hasData == w.app.pads[i].hasData)
               && (i < Reached(w'.pc) || w'.pc == AtTake(i) ==>
                     if e.Looked? then e.busy == (if w'.pc == AtTake(i) then true else w'.seen[i])
                     else LookedNow(w.log, i) == Some(if w'.pc == AtTake(i) then true else w'.seen[i]))
    ensures Witnessed(w', i)
  {
    assert w'.log[..|w.log|] == w.log;
  }

  // CPU 0's steps: a seat's slot changes, and an entry says how.
  lemma SlotStepKeeps(w: World, w': World, e: Entry)
    requires Inv(w) && SizedWorld(w')
    requires (e.Published? || e.Reset? || e.Assigned? || e.Freed?) && e.seat < MAX_DEVICES
    requires w' == w.(slots := w.slots[e.seat := w'.slots[e.seat]], releasing := w'.releasing, log := w.log + [e])
    requires var s, s' := w.slots[e.seat], w'.slots[e.seat];
             && (s'.idx != NO_SEAT <==>
                   if e.Assigned? then true else if e.Freed? then false else s.idx != NO_SEAT)
             && (if e.Published? then s'.updated && s'.data == e.report
                 else if e.Reset? then !s'.updated
                 else s'.updated == s.updated && s'.data == s.data)
    ensures Inv(w')
  {
    LogGrows(w.log, e);
    EntryKeeps(w, w', e);
    EntryReads(w.app, w.log, e);
    forall k: nat | k < MAX_DEVICES
      ensures Ahead(w', k) && Witnessed(w', k)
    {
      assert Ahead(w, k) && Witnessed(w, k);
      EntryWitnessed(w, w', e, k);
    }
  }

  // A new entry in the log, and what it does to the seats and the pads.
  lemma EntryKeeps(w: World, w': World, e: Entry)
    requires SizedWorld(w) && SizedWorld(w') && w'.log == w.log + [e]
    requires forall i: nat :: i < MAX_DEVICES ==> Delivers(w, i)
    requires forall i: nat :: i < MAX_DEVICES ==>
               if OfSeat(e, i) then
                 && w'.app.pads[i].data == (if e.Taken? then e.report else w.app.pads[i].data)
                 && (if e.Published? then w'.slots[i].updated && w'.slots[i].data == e.report
                     else if e.Taken? || e.Reset? then !w'.slots[i].updated
                     else w'.slots[i].updated == w.slots[i].updated && w'.slots[i].data == w.slots[i].data)
               else
                 && w'.app.pads[i].data == w.app.pads[i].data
                 && w'.slots[i].updated == w.slots[i].updated && w'.slots[i].data == w.slots[i].data
    ensures forall i: nat :: i < MAX_DEVICES ==> Delivers(w', i)
  {
    assert w'.log[..|w.log|] == w.log;
    forall i: nat | i < MAX_DEVICES
      ensures Delivers(w', i)
    {
      assert Delivers(w, i);
    }
  }

  lemma TakeKeeps(w: World)
    requires Inv(w) && w.pc.AtTake?
    ensures Inv(Take(w))
  {
    var i := w.pc.i;
    var w' := Take(w);
    var e := w'.log[|w.log|];
    assert Delivers(w, i) && Ahead(w, i) && Witnessed(w, i);
    assert (w.log + [e])[..|w.log|] == w.log;
    LogGrows(w.log, e);
    EntryKeeps(w, w', e);
    EntryReads(w.app, w.log, e);
    forall k: nat | k < MAX_DEVICES
      ensures Tracks(w'.app, w'.prev, k) && Ahead(w', k) && Witnessed(w', k)
    {
      assert Tracks(w.app, w.prev, k) && Ahead(w, k) && Witnessed(w, k);
      EntryWitnessed(w, w', e, k);
    }
  }

  lemma CheckKeeps(w: World)
    requires Inv(w) && w.pc.AtCheck?
    ensures Inv(Check(w))
  {
    var i := w.pc.i;
    var w' := Check(w);
    var e := w'.log[|w.log|];
    assert Ahead(w, i) && Witnessed(w, i);
    assert (w.log + [e])[..|w.log|] == w.log;
    LogGrows(w.log, e);
    EntryKeeps(w, w', e);
    EntryReads(w.app, w.log, e);
    forall k: nat | k < MAX_DEVICES
      ensures Tracks(w'.app, w'.prev, k) && Ahead(w', k) && Witnessed(w', k)
    {
      assert Tracks(w.app, w.prev, k) && Ahead(w, k) && Witnessed(w, k);
      EntryWitnessed(w, w', e, k);
    }
  }

  lemma CallsGrow(a: App, b: App, c: Call)
    requires SizedApp(a) && SizedApp(b) && b.calls == a.calls + [c]
    requires forall k: nat :: k < |a.calls| ==> CallAlternates(a.calls, k)
    requires c.OnConnect? <==> !LastOn(a.calls, c.seat)
    ensures forall k: nat :: k < |b.calls| ==> CallAlternates(b.calls, k)
    ensures forall i: nat :: LastOn(b.calls, i) == if i == c.seat then c.OnConnect? else LastOn(a.calls, i)
    ensures Picked(b.calls) == match c
                               case OnConnect(i) => if Picked(a.calls).None? then Some(i) else Picked(a.calls)
                               case OnDisconnect(i) => if Picked(a.calls) == Some(i) then None else Picked(a.calls)
  {
    assert b.calls[..|a.calls|] == a.calls;
    forall k: nat | k < |b.calls|
      ensures CallAlternates(b.calls, k)
    {
      if k < |a.calls| {
        assert CallAlternates(a.calls, k);
        assert b.calls[..k] == a.calls[..k];
      }
    }
  }

  // Once the callbacks of the first n seats have run, those seats follow the new bits.
  predicate Half(a: App, prev: seq<bool>, seen: seq<bool>, n: nat, i: nat)
    requires SizedApp(a) && |prev| == |seen| == MAX_DEVICES && i < MAX_DEVICES
  {
    (if i < n then seen[i] else prev[i]) == a.pads[i].connected == LastOn(a.calls, i)
  }

  // A disconnect of the chosen pad blanks what is shown; no other callback touches what is shown or read.
  lemma {:induction false} EdgesKeep(a: App, prev: seq<bool>, seen: seq<bool>, n: nat)
    requires SizedApp(a) && |prev| == |seen| == MAX_DEVICES && n <= MAX_DEVICES
    requires CallsOk(a) && forall i: nat :: i < MAX_DEVICES ==> Tracks(a, prev, i)
    ensures var r := Edges(a, prev, seen, n);
            && CallsOk(r)
            && (forall i: nat :: i < MAX_DEVICES ==> Half(r, prev, seen, n, i))
            && SameData(a, r)
            && (r.state.connected ==> r.state == a.state && r.pick == a.pick)
  {
    if n == 0 {
      forall i: nat | i < MAX_DEVICES
        ensures Half(a, prev, seen, 0, i)
      {
        assert Tracks(a, prev, i);
      }
    } else {
      EdgesKeep(a, prev, seen, n - 1);
      EdgeKeeps(Edges(a, prev, seen, n - 1), prev, seen, n - 1, n);
    }
  }

  predicate SameData(a: App, b: App)
    requires SizedApp(a) && SizedApp(b)
  {
    forall i: nat :: i < MAX_DEVICES ==> b.pads[i].data == a.pads[i].data && b.pads[i].hasData == a.pads[i].hasData
  }

  lemma EdgeKeeps(m: App, prev: seq<bool>, seen: seq<bool>, j: nat, n: nat)
    requires SizedApp(m) && |prev| == |seen| == MAX_DEVICES && n == j + 1 <= MAX_DEVICES
    requires CallsOk(m) && forall i: nat :: i < MAX_DEVICES ==> Half(m, prev, seen, j, i)
    ensures var r := Edge(m, j, prev[j], seen[j]);
            && CallsOk(r)
            && (forall i: nat :: i < MAX_DEVICES ==> Half(r, prev, seen, n, i))
            && SameData(m, r)
            && (r.state.connected ==> r.state == m.state && r.pick == m.pick)
  {
    var r := Edge(m, j, prev[j], seen[j]);
    assert Half(m, prev, seen, j, j);
    if prev[j] != seen[j] { CallsGrow(m, r, if seen[j] then OnConnect(j) else OnDisconnect(j)); }
    forall i: nat | i < MAX_DEVICES
      ensures Half(r, prev, seen, n, i)
    {
      assert Half(m, prev, seen, j, i);
    }
  }

  // Which callbacks run: for each seat below n that changed, one, in the order of the seats.
  ghost predicate NewCall(a: App, r: App, prev: seq<bool>, seen: seq<bool>, n: nat, k: nat)
    requires |prev| == |seen| == MAX_DEVICES && n <= MAX_DEVICES && |a.calls| <= k < |r.calls|
  {
    var i := r.calls[k].seat;
    && i < n && prev[i] != seen[i] && r.calls[k] == (if seen[i] then OnConnect(i) else OnDisconnect(i))
    && (k + 1 < |r.calls| ==> i < r.calls[k + 1].seat)
  }

  ghost predicate CalledFor(a: App, r: App, i: nat) {
    |a.calls| <= |r.calls| && exists k :: |a.calls| <= k < |r.calls| && r.calls[k].seat == i
  }

  lemma {:induction false} EdgesCall(a: App, prev: seq<bool>, seen: seq<bool>, n: nat)
    requires SizedApp(a) && |prev| == |seen| == MAX_DEVICES && n <= MAX_DEVICES
    ensures var r := Edges(a, prev, seen, n);
            && |a.calls| <= |r.calls| && r.calls[..|a.calls|] == a.calls
            && (forall k: nat :: |a.calls| <= k < |r.calls| ==> NewCall(a, r, prev, seen, n, k))
            && (forall i: nat :: i < n && prev[i] != seen[i] ==> CalledFor(a, r, i))
  {
    if n > 0 {
      var m, r := Edges(a, prev, seen, n - 1), Edges(a, prev, seen, n);
      EdgesCall(a, prev, seen, n - 1);
      forall k: nat | |a.calls| <= k < |r.calls|
        ensures NewCall(a, r, prev, seen, n, k)
      {
        if k < |m.calls| { assert NewCall(a, m, prev, seen, n - 1, k); }
      }
      forall i: nat | i < n && prev[i] != seen[i]
        ensures CalledFor(a, r, i)
      {
        if i < n - 1 {
          assert CalledFor(a, m, i);
          var k :| |a.calls| <= k < |m.calls| && m.calls[k].seat == i;
          assert r.calls[k].seat == i;
        } else {
          assert r.calls[|m.calls|].seat == i;
        }
      }
    }
  }

  // Who is chosen after the callbacks of the first n seats, and what is shown.
  predicate Picks(a: App, r: App, prev: seq<bool>, seen: seq<bool>, n: nat)
    requires SizedApp(a) && |prev| == |seen| == MAX_DEVICES && n <= MAX_DEVICES
  {
    match a.pick
    case None => r.pick == FirstNew(prev, seen, 0, n) && r.state == a.state
    case Some(c) =>
      if seen[c] || n <= c then r.pick == a.pick && r.state == a.state
      else r.pick == FirstNew(prev, seen, c + 1, n) && r.state == Shown(false, 0)
  }

  lemma {:induction false} EdgesPick(a: App, prev: seq<bool>, seen: seq<bool>, n: nat)
    requires SizedApp(a) && |prev| == |seen| == MAX_DEVICES && n <= MAX_DEVICES
    requires a.pick.Some? ==> prev[a.pick.value]
    ensures Picks(a, Edges(a, prev, seen, n), prev, seen, n)
  {
    if n > 0 {
      EdgesPick(a, prev, seen, n - 1);
      EdgePicks(a, Edges(a, prev, seen, n - 1), prev, seen, n - 1, n);
    }
  }

  lemma EdgePicks(a: App, m: App, prev: seq<bool>, seen: seq<bool>, j: nat, n: nat)
    requires SizedApp(a) && SizedApp(m) && |prev| == |seen| == MAX_DEVICES && n == j + 1 <= MAX_DEVICES
    requires (a.pick.Some? ==> prev[a.pick.value]) && Picks(a, m, prev, seen, j)
    ensures Picks(a, Edge(m, j, prev[j], seen[j]), prev, seen, n)
  {
  }

  lemma NothingNew(prev: seq<bool>, from: nat, n: nat)
    requires |prev| == MAX_DEVICES && n <= MAX_DEVICES
    ensures FirstNew(prev, prev, from, n) == None
  {
  }

  lemma NotifyPicks(a: App, prev: seq<bool>, seen: seq<bool>)
    requires SizedApp(a) && |prev| == |seen| == MAX_DEVICES
    requires a.pick.Some? ==> prev[a.pick.value]
    ensures Picks(a, Notify(a, prev, seen), prev, seen, MAX_DEVICES)
  {
    EdgesPick(a, prev, seen, MAX_DEVICES);
    NothingNew(prev, 0, MAX_DEVICES);
  }

  lemma NotifyKeeps(a: App, prev: seq<bool>, seen: seq<bool>)
    requires SizedApp(a) && |prev| == |seen| == MAX_DEVICES
    requires CallsOk(a) && Shows(a, seen) && forall i: nat :: i < MAX_DEVICES ==> Tracks(a, prev, i)
    ensures var r := Notify(a, prev, seen);
            && CallsOk(r) && Shows(r, seen) && SameData(a, r)
            && (forall i: nat :: i < MAX_DEVICES ==> Tracks(r, seen, i))
  {
    var r := Notify(a, prev, seen);
    if seen != prev {
      EdgesKeep(a, prev, seen, MAX_DEVICES);
      forall i: nat | i < MAX_DEVICES
        ensures Tracks(r, seen, i)
      {
        assert Half(r, prev, seen, MAX_DEVICES, i);
      }
    }
  }

  // After the application's update, what is shown as connected is the chosen, connected gamepad's report.
  predicate Honest(a: App)
    requires SizedApp(a)
  {
    a.state.connected ==>
      && a.pick.Some? && a.pads[a.pick.value].connected
      && a.pads[a.pick.value].data.gamepad && a.state.axes == a.pads[a.pick.value].data.axes
  }

  lemma ShowIsHonest(a: App, seen: seq<bool>)
    requires SizedApp(a) && |seen| == MAX_DEVICES && CallsOk(a) && Shows(a, seen)
    ensures CallsOk(Show(a)) && Honest(Show(a))
  {
  }

  // A poll in progress adds to what the last one left.
  lemma {:induction false} SinceLastPoll(log: seq<Entry>, i: nat)
    ensures LastTaken(log, i) == match TakenNow(log, i)
                                 case Some(report) => report
                                 case None => LastTaken(AsOfPoll(log), i)
    ensures Fed(log, i) <==> TakenNow(log, i).Some? || Fed(AsOfPoll(log), i)
    ensures SeenLast(log, i) <==> SeenLast(AsOfPoll(log), i)
    ensures Chosen(log) == Chosen(AsOfPoll(log))
  {
    if log != [] && !log[|log| - 1].Polled? { SinceLastPoll(log[..|log| - 1], i); }
  }

  // A seat that was free at the last poll has not been fed.
  lemma FreeIsUnfed(log: seq<Entry>, i: nat)
    requires !SeenLast(log, i)
    ensures !Fed(AsOfPoll(log), i)
  {
    SinceLastPoll(log, i);
  }

  lemma FinishChooses(w: World)
    requires Inv(w) && w.pc.AtFinish?
    ensures Chosen(Finish(w).log) == Notify(w.app, w.prev, w.seen).pick
    ensures Picks(w.app, Notify(w.app, w.prev, w.seen), w.prev, w.seen, MAX_DEVICES)
  {
    assert Finish(w).log[..|w.log|] == w.log;
    SinceLastPoll(w.log, 0);
    forall i: nat | i < MAX_DEVICES
      ensures SeenBits(w.log)[i] == w.prev[i]
    {
      assert Witnessed(w, i);
    }
    assert SeenBits(w.log) == w.prev;
    if w.app.pick.Some? { assert Tracks(w.app, w.prev, w.app.pick.value); }
    NotifyPicks(w.app, w.prev, w.seen);
  }

  lemma FinishReads(w: World)
    requires Inv(w) && w.pc.AtFinish?
    ensures Reads(Finish(w).app, AsOfPoll(Finish(w).log))
  {
    var told, log := Notify(w.app, w.prev, w.seen), Finish(w).log;
    FinishChooses(w);
    NotifyKeeps(w.app, w.prev, w.seen);
    assert log[..|w.log|] == w.log && AsOfPoll(log) == log;
    if told.pick.Some? {
      var c := told.pick.value;
      assert Tracks(told, w.seen, c) && Delivers(w, c) && Witnessed(w, c);
      SinceLastPoll(w.log, c);
      assert Fed(log, c) == Fed(w.log, c) && LastTaken(log, c) == told.pads[c].data;
      if w.app.pick != told.pick { FreeIsUnfed(w.log, c); }
    }
  }

  lemma FinishWitnessed(w: World, i: nat)
    requires Inv(w) && w.pc.AtFinish? && i < MAX_DEVICES
    ensures Witnessed(Finish(w), i) && WasPolled(w.log, w.seen, i)
  {
    assert Finish(w).log[..|w.log|] == w.log;
    assert Witnessed(w, i);
  }

  lemma FinishKeeps(w: World)
    requires Inv(w) && w.pc.AtFinish?
    ensures Inv(Finish(w)) && Honest(Finish(w).app)
  {
    var w' := Finish(w);
    var told := Notify(w.app, w.prev, w.seen);
    NotifyKeeps(w.app, w.prev, w.seen);
    ShowIsHonest(told, w.seen);
    FinishReads(w);
    forall i: nat | i < MAX_DEVICES
      ensures Tracks(w'.app, w'.prev, i) && Ahead(w', i) && Witnessed(w', i) && WasPolled(w.log, w.seen, i)
    {
      assert Tracks(told, w.seen, i);
      FinishWitnessed(w, i);
    }
    assert (w.log + [Polled(w.seen)])[..|w.log|] == w.log;
    LogGrows(w.log, Polled(w.seen));
    EntryKeeps(w, w', Polled(w.seen));
  }

  lemma ActKeeps(w: World, s: Step)
    requires Inv(w) && Can(w, s)
    ensures Inv(Act(w, s))
  {
    match s
    case DoPublish(i, r) => SlotStepKeeps(w, Publish(w, i, r), Published(i, r));
    case DoAssign(i) => SlotStepKeeps(w, Assign(w, i), Assigned(i));
    case DoClear(i) => SlotStepKeeps(w, Clear(w, i), Reset(i));
    case DoMark => SlotStepKeeps(w, MarkFree(w), Freed(w.releasing.value));
    case DoPoll =>
      match w.pc
      case AtCheck(i) => CheckKeeps(w);
      case AtTake(i) => TakeKeeps(w);
      case AtFinish => FinishKeeps(w);
  }

  lemma {:induction false} ActAllKeeps(w: World, steps: seq<Step>)
    requires Inv(w) && CanAll(w, steps)
    ensures Inv(ActAll(w, steps))
    decreases |steps|
  {
    if steps != [] {
      ActKeeps(w, steps[0]);
      ActAllKeeps(Act(w, steps[0]), steps[1..]);
    }
  }

  lemma StartInv()
    ensures Inv(Start())
  {
    var w := Start();
    forall i: nat | i < MAX_DEVICES
      ensures Delivers(w, i) && Tracks(w.app, w.prev, i) && Ahead(w, i) && Witnessed(w, i)
    {
    }
  }

  // ---------------------------------------------------------------------------
  // What every interleaving guarantees
  // ---------------------------------------------------------------------------

  // A poll of a seat yields a report exactly when one was published since the last one taken or the last
  // reset, and it yields the newest.
  lemma PollsAreRight(steps: seq<Step>)
    requires CanAll(Start(), steps)
    ensures var w := ActAll(Start(), steps);
            && (forall k: nat :: k < |w.log| ==> PollIsRight(w.log, k))
            && (w.pc.AtTake? ==>
                  Take(w).log == w.log + [match Newest(w.log, w.pc.i)
                                          case Some(r) => Taken(w.pc.i, r)
                                          case None => Missed(w.pc.i)])
  {
    StartInv();
    ActAllKeeps(Start(), steps);
    var w := ActAll(Start(), steps);
    if w.pc.AtTake? { assert Delivers(w, w.pc.i); }
  }

  // Callbacks alternate for each seat, a connect first; a pad is connected exactly between the two.
  lemma CallbacksAlternate(steps: seq<Step>, i: nat)
    requires CanAll(Start(), steps) && i < MAX_DEVICES
    ensures var a := ActAll(Start(), steps).app;
            && (forall k: nat :: k < |a.calls| ==> CallAlternates(a.calls, k))
            && a.pads[i].connected == LastOn(a.calls, i)
  {
    StartInv();
    ActAllKeeps(Start(), steps);
    var w := ActAll(Start(), steps);
    assert Tracks(w.app, w.prev, i);
  }

  // The history is true: every step adds just the entry that says what was done, and a poll looks at one seat
  // after the other.
  lemma StepIsLogged(w: World, s: Step)
    requires Inv(w) && Can(w, s)
    ensures var w' := Act(w, s);
            match s
            case DoPublish(i, report) => w'.log == w.log + [Published(i, report)] && w'.pc == w.pc
            case DoAssign(i) => w'.log == w.log + [Assigned(i)] && w'.pc == w.pc && w'.slots[i].idx == i
            case DoClear(i) => w'.log == w.log + [Reset(i)] && w'.pc == w.pc && w'.releasing == Some(i)
            case DoMark => w'.log == w.log + [Freed(w.releasing.value)] && w'.pc == w.pc && w'.releasing == None
            case DoPoll =>
              match w.pc
              case AtCheck(i) =>
                var busy := Occupied(w.log, i);
                w'.log == w.log + [Looked(i, busy)] && w'.pc == (if busy then AtTake(i) else NextPc(i))
              case AtTake(i) =>
                && w'.pc == NextPc(i)
                && w'.log == w.log + [match Newest(w.log, i) case Some(x) => Taken(i, x) case None => Missed(i)]
              case AtFinish => w'.log == w.log + [Polled(w.seen)] && w'.pc == AtCheck(0)
  {
    if s.DoPoll? && !w.pc.AtFinish? { assert Witnessed(w, w.pc.i) && Delivers(w, w.pc.i); }
  }

  // At any time, what the application reads is what the last complete poll left: it listens to the controller
  // that Chosen names, and shows it exactly if the last report taken from it is a gamepad's and was taken since
  // it connected; and then it shows that report.
  lemma ApplicationReads(steps: seq<Step>)
    requires CanAll(Start(), steps)
    ensures var w := ActAll(Start(), steps); var log := AsOfPoll(w.log);
            && w.app.pick == Chosen(log) == Picked(w.app.calls)
            && (w.app.state.connected <==>
                  Chosen(log).Some? && LastTaken(log, Chosen(log).value).gamepad && Fed(log, Chosen(log).value))
            && (w.app.state.connected ==> w.app.state.axes == LastTaken(log, Chosen(log).value).axes)
  {
    StartInv();
    ActAllKeeps(Start(), steps);
  }

  // The end of one poll: a gamepad's report taken from the chosen controller in this poll is shown at once; with
  // no report from it, what is shown stays as it was, while it stays chosen.
  lemma FreshReportIsShown(steps: seq<Step>, c: nat)
    requires CanAll(Start(), steps) && ActAll(Start(), steps).pc.AtFinish? && c < MAX_DEVICES
    ensures var w := ActAll(Start(), steps); var a := Finish(w).app; var taken := TakenNow(w.log, c);
            a.pick == Some(c) ==>
              && (taken.Some? && taken.value.gamepad ==> a.state == Shown(true, taken.value.axes))
              && (taken.Some? && !taken.value.gamepad ==> !a.state.connected)
              && (taken.None? && w.app.pick == Some(c) && LastTaken(w.log, c).gamepad ==> a.state == w.app.state)
  {
    StartInv();
    ActAllKeeps(Start(), steps);
    var w := ActAll(Start(), steps);
    FinishChooses(w);
    NotifyKeeps(w.app, w.prev, w.seen);
    var told := Notify(w.app, w.prev, w.seen);
    assert Tracks(told, w.seen, c) && Delivers(w, c) && Witnessed(w, c);
    SinceLastPoll(w.log, c);
  }

  // Which callbacks a poll runs: one for each seat that changed, in the order of the seats.
  lemma CallbacksOfPoll(w: World)
    requires SizedWorld(w) && w.pc.AtFinish?
    ensures var (a, r) := (w.app, Finish(w).app);
            && |a.calls| <= |r.calls| && r.calls[..|a.calls|] == a.calls
            && (forall k: nat :: |a.calls| <= k < |r.calls| ==> NewCall(a, r, w.prev, w.seen, MAX_DEVICES, k))
            && (forall i: nat :: i < MAX_DEVICES && w.prev[i] != w.seen[i] ==> CalledFor(a, r, i))
  {
    EdgesCall(w.app, w.prev, w.seen, MAX_DEVICES);
    var told, r := Notify(w.app, w.prev, w.seen), Finish(w).app;
    assert r.calls == told.calls;
    if w.prev != w.seen {
      forall k: nat | |w.app.calls| <= k < |r.calls|
        ensures NewCall(w.app, r, w.prev, w.seen, MAX_DEVICES, k)
      {
        assert NewCall(w.app, told, w.prev, w.seen, MAX_DEVICES, k);
      }
      forall i: nat | i < MAX_DEVICES && w.prev[i] != w.seen[i]
        ensures CalledFor(w.app, r, i)
      {
        assert CalledFor(w.app, told, i);
      }
    }
  }

  // After each poll every pad is connected exactly if its seat was seen taken in that poll; the chosen
  // controller is none or a connected one; and what is shown as connected is the last report taken from it.
  lemma AfterEachPoll(steps: seq<Step>, i: nat)
    requires CanAll(Start(), steps) && ActAll(Start(), steps).pc.AtFinish? && i < MAX_DEVICES
    ensures var w := ActAll(Start(), steps); var a := Finish(w).app;
            && a.pads[i].connected == w.seen[i]
            && (a.pick.Some? ==> a.pads[a.pick.value].connected)
            && (a.state.connected ==>
                  a.pick.Some? && LastTaken(w.log, a.pick.value).gamepad
                      && a.state.axes == LastTaken(w.log, a.pick.value).axes)
  {
    StartInv();
    ActAllKeeps(Start(), steps);
    var w := ActAll(Start(), steps);
    FinishKeeps(w);
    var f := Finish(w);
    assert Tracks(f.app, f.prev, i);
    if f.app.pick.Some? { assert Delivers(f, f.app.pick.value); }
  }

  // ---------------------------------------------------------------------------
  // The code of the two CPUs
  // ---------------------------------------------------------------------------

  // A poll nobody interrupts.
  function PollThrough(w: World): (r: World)
    requires SizedWorld(w)
    ensures SizedWorld(r)
    decreases MAX_DEVICES - Reached(w.pc), if w.pc.AtCheck? then 1 else 0
  {
    if w.pc.AtFinish? then Finish(w) else PollThrough(Poll(w))
  }

  // When the chosen controller is gone, the application is left without one exactly if no controller above it
  // connects in the same poll; one that is connected already is not adopted.
  lemma LosingTheChosen(w: World, c: nat)
    requires Inv(w) && w.pc.AtFinish? && w.app.pick == Some(c) && !w.seen[c]
    ensures Finish(w).app.pick == None <==> forall j :: c < j < MAX_DEVICES ==> !(w.seen[j] && !w.prev[j])
  {
    FinishChooses(w);
  }

  // A seat that is taken, and has no report, is asked; one that is free is passed over.
  lemma SeatPassed(w: World)
    requires SizedWorld(w) && w.pc.AtCheck? && !w.slots[w.pc.i].updated
    ensures var (i, n) := (w.pc.i, SeatDone(w));
            && PollThrough(w) == PollThrough(n)
            && n.slots == w.slots && n.pc == NextPc(i) && n.prev == w.prev && n.app.pick == w.app.pick
            && n.releasing == w.releasing
            && n.seen == (if w.slots[i].idx == NO_SEAT then w.seen else w.seen[i := true])
            && forall k :: 0 <= k < MAX_DEVICES ==> n.app.pads[k].connected == w.app.pads[k].connected
  {
    SeatPolled(w);
    assert w.slots[w.pc.i := w.slots[w.pc.i]] == w.slots;
  }

  lemma SeatKeeps(w: World)
    requires Inv(w) && w.pc.AtCheck?
    ensures Inv(SeatDone(w))
  {
    CheckKeeps(w);
    if w.slots[w.pc.i].idx != NO_SEAT { TakeKeeps(Check(w)); }
  }

  // A poll that began at w, of seats without reports, at seat n: it has seen those below that are taken.
  ghost predicate Passed(w: World, m: World, n: nat) {
    && SizedWorld(w) && Inv(m) && n <= MAX_DEVICES && PollThrough(w) == PollThrough(m)
    && m.pc == (if n < MAX_DEVICES then AtCheck(n) else AtFinish)
    && m.slots == w.slots && m.prev == w.prev && m.app.pick == w.app.pick && m.releasing == w.releasing
    && forall k :: 0 <= k < MAX_DEVICES ==> (m.seen[k] <==> k < n && w.slots[k].idx != NO_SEAT)
  }

  predicate NoReports(w: World) { forall k :: 0 <= k < |w.slots| ==> !w.slots[k].updated }

  lemma OneMorePassed(w: World, m: World, n: nat)
    requires Passed(w, m, n) && n < MAX_DEVICES && NoReports(w)
    ensures Passed(w, SeatDone(m), n + 1)
  {
    SeatPassed(m);
    SeatKeeps(m);
  }

  lemma AllPassed(w: World) returns (e: World)
    requires Inv(w) && w.pc == AtCheck(0) && w.seen == Off(MAX_DEVICES) && NoReports(w)
    ensures Passed(w, e, MAX_DEVICES)
  {
    e := SeatDone(w);
    OneMorePassed(w, w, 0);
    OneMorePassed(w, e, 1);
    e := SeatDone(e);
    OneMorePassed(w, e, 2);
    e := SeatDone(e);
    OneMorePassed(w, e, 3);
    e := SeatDone(e);
  }

  // The table after a whole poll of seats without reports.
  ghost predicate Quietly(w: World, f: World) {
    && SizedWorld(w) && Inv(f) && f.pc == AtCheck(0) && f.seen == Off(MAX_DEVICES) && f.slots == w.slots
    && f.releasing == w.releasing
    && (forall k: nat :: k < MAX_DEVICES ==>
          (f.prev[k] <==> w.slots[k].idx != NO_SEAT) && f.app.pads[k].connected == f.prev[k])
    && (w.app.pick.None? ==> f.app.pick == FirstNew(w.prev, f.prev, 0, MAX_DEVICES))
    && (w.app.pick.Some? && !f.prev[w.app.pick.value] ==>
          f.app.pick == FirstNew(w.prev, f.prev, w.app.pick.value + 1, MAX_DEVICES))
  }

  lemma QuietFinish(w: World, e: World)
    requires Inv(w) && Passed(w, e, MAX_DEVICES)
    ensures Quietly(w, Finish(e))
  {
    FinishChooses(e);
    FinishKeeps(e);
    forall k: nat | k < MAX_DEVICES
      ensures Finish(e).app.pads[k].connected == Finish(e).prev[k]
    {
      assert Tracks(Finish(e).app, Finish(e).prev, k);
    }
  }

  lemma QuietPoll(w: World)
    requires Inv(w) && w.pc == AtCheck(0) && w.seen == Off(MAX_DEVICES) && NoReports(w)
    ensures Quietly(w, PollThrough(w))
  {
    var e := AllPassed(w);
    QuietFinish(w, e);
    assert PollThrough(e) == Finish(e);
  }

  ghost predicate TwoTaken(w: World) {
    && Inv(w) && w.pc == AtCheck(0) && w.seen == Off(MAX_DEVICES) && NoReports(w) && w.releasing.None?
    && w.slots[0].idx == 0 && w.slots[1].idx == 1 && w.slots[2].idx == w.slots[3].idx == NO_SEAT
  }

  lemma TakingOne(w: World, i: nat)
    requires Inv(w) && Can(w, DoAssign(i))
    ensures var v := Assign(w, i);
            && Inv(v) && v.slots == w.slots[i := w.slots[i].(idx := i)] && v.app == w.app && v.pc == w.pc
            && v.seen == w.seen && v.prev == w.prev && v.releasing == w.releasing
  {
    ActKeeps(w, DoAssign(i));
  }

  lemma TakingTwo()
    ensures var w := Assign(Assign(Start(), 0), 1); TwoTaken(w) && w.app.pick.None? && w.prev == Off(MAX_DEVICES)
  {
    StartInv();
    TakingOne(Start(), 0);
    TakingOne(Assign(Start(), 0), 1);
  }

  lemma TwoConnect(w: World, both: World)
    requires TwoTaken(w) && w.app.pick.None? && w.prev == Off(MAX_DEVICES) && Quietly(w, both)
    ensures TwoTaken(both) && both.app.pick == Some(0) && both.prev[0] && both.prev[1]
  {
  }

  lemma FirstReleased(both: World)
    requires TwoTaken(both)
    ensures var v := MarkFree(Clear(both, 0));
            && Inv(v) && v.pc == AtCheck(0) && v.seen == Off(MAX_DEVICES) && NoReports(v)
            && v.prev == both.prev && v.app == both.app
            && v.slots[0].idx == NO_SEAT && forall k :: 0 < k < MAX_DEVICES ==> v.slots[k] == both.slots[k]
  {
    ActKeeps(both, DoClear(0));
    ActKeeps(Clear(both, 0), DoMark);
  }

  lemma OtherStays(both: World, v: World, one: World)
    requires TwoTaken(both) && both.app.pick == Some(0) && both.prev[0] && both.prev[1]
    requires Quietly(v, one) && v.prev == both.prev && v.app == both.app && v.slots[0].idx == NO_SEAT
    requires forall k :: 0 < k < MAX_DEVICES ==> v.slots[k] == both.slots[k]
    ensures one.app.pick == None && one.app.pads[1].connected
  {
  }

  // Two controllers connect in one poll, and the lower one is chosen; then it goes: the other one is connected,
  // and nobody listens to it.
  lemma ConnectedButUnheard()
    ensures var both := PollThrough(Assign(Assign(Start(), 0), 1));
            && both.app.pick == Some(0)
            && var one := PollThrough(MarkFree(Clear(both, 0)));
               one.app.pick == None && one.app.pads[1].connected
  {
    TakingTwo();
    var w := Assign(Assign(Start(), 0), 1);
    QuietPoll(w);
    var both := PollThrough(w);
    TwoConnect(w, both);
    FirstReleased(both);
    var v := MarkFree(Clear(both, 0));
    QuietPoll(v);
    OtherStays(both, v, PollThrough(v));
  }

  datatype Status = Success | NoData | InvalidDevice

  class Gamepads {
    const slots: array<Slot>
    const pads: array<Pad>
    var prev: seq<bool>
    var pick: Option<nat>
    var state: Shown
    ghost var log: seq<Entry>
    ghost var calls: seq<Call>

    ghost predicate Valid()
      reads this
    {
      && slots.Length == MAX_DEVICES && pads.Length == MAX_DEVICES && |prev| == MAX_DEVICES
      && (pick.Some? ==> pick.value < MAX_DEVICES)
    }

    ghost function Application(): (a: App)
      requires Valid()
      reads this, pads
      ensures SizedApp(a)
    {
      App(pads[..], pick, state, calls)
    }

    // Between polls, with CPU 1 at some point of its loop.
    ghost function At(pc: Pc, seen: seq<bool>): (w: World)
      requires Valid()
      reads this, slots, pads
    {
      World(slots[..], None, Application(), pc, seen, prev, log)
    }

    ghost function View(): (w: World)
      requires Valid()
      reads this, slots, pads
      ensures SizedWorld(w)
    {
      At(AtCheck(0), Off(MAX_DEVICES))
    }

    constructor ()
      ensures Valid() && fresh(slots) && fresh(pads) && View() == Start()
    {
      slots := new Slot[MAX_DEVICES](i => Slot(NO_SEAT, NOTHING, false));
      pads := new Pad[MAX_DEVICES](i => Pad(NOTHING, false, false));
      prev, pick, state, log, calls := Off(MAX_DEVICES), None, Shown(false, 0), [], [];
      new;
      assert View().slots == Start().slots && View().app.pads == Start().app.pads;
    }

    method OnControllerData(seat: int, r: Report)
      requires Valid()
      modifies slots, this`log
      ensures Valid() && View() == if 0 <= seat < MAX_DEVICES then Publish(old(View()), seat, r) else old(View())
    {
      if seat < 0 || seat >= MAX_DEVICES { return; }
      slots[seat] := slots[seat].(data := r);
      slots[seat] := slots[seat].(updated := true);
      log := log + [Published(seat, r)];
      assert slots[..] == old(slots[..])[seat := slots[seat]];
    }

    method Release(i: nat)
      requires Valid() && i < MAX_DEVICES
      modifies slots, this`log
      ensures Valid() && View() == MarkFree(Clear(old(View()), i))
    {
      slots[i] := Slot(0, NOTHING, false);
      slots[i] := slots[i].(idx := NO_SEAT);
      log := log + [Reset(i)] + [Freed(i)];
      assert slots[..] == old(slots[..])[i := Slot(0, NOTHING, false)][i := slots[i]];
    }

    method GetControllerData(i: int) returns (status: Status)
      requires Valid()
      modifies slots, pads, this`log
      ensures Valid()
      ensures status == InvalidDevice <==> !(0 <= i < MAX_DEVICES) || old(slots[i].idx) == NO_SEAT
      ensures status == InvalidDevice ==>
                && slots[..] == old(slots[..]) && pads[..] == old(pads[..])
                && log == old(log) + if 0 <= i < MAX_DEVICES then [Looked(i, false)] else []
      ensures status != InvalidDevice ==>
                && (status == Success <==> old(slots[i].updated))
                && slots[..] == old(slots[..])[i := old(slots[i]).(updated := false)]
                && pads[..] == old(pads[..])[i := if status == Success then old(pads[i]).(data := old(slots[i].data))
                                                  else old(pads[i])]
                && log == old(log) + [Looked(i, true)]
                          + [if status == Success then Taken(i, old(slots[i].data)) else Missed(i)]
    {
      if i < 0 || i >= MAX_DEVICES { return InvalidDevice; }
      log := log + [Looked(i, slots[i].idx != NO_SEAT)];
      if slots[i].idx == NO_SEAT { return InvalidDevice; }
      status := NoData;
      if slots[i].updated {
        pads[i] := pads[i].(data := slots[i].data);
        slots[i] := slots[i].(updated := false);
        status := Success;
      }
      log := log + [if status == Success then Taken(i, pads[i].data) else Missed(i)];
      assert slots[..] == old(slots[..])[i := old(slots[i]).(updated := false)];
    }

    method OnConnected(i: nat)
      requires Valid() && i < MAX_DEVICES
      modifies pads, this`pick, this`calls
      ensures Valid() && Application() == Edge(old(Application()), i, false, true)
    {
      pads[i] := pads[i].(connected := true);
      if pick.None? { pick := Some(i); }
      calls := calls + [OnConnect(i)];
      assert pads[..] == old(pads[..])[i := pads[i]];
    }

    method OnDisconnected(i: nat)
      requires Valid() && i < MAX_DEVICES
      modifies pads, this`pick, this`state, this`calls
      ensures Valid() && Application() == Edge(old(Application()), i, true, false)
    {
      calls := calls + [OnDisconnect(i)];
      if pick == Some(i) {
        pick := None;
        state := Shown(false, 0);
      }
      pads[i] := pads[i].(connected := false);
      assert pads[..] == old(pads[..])[i := pads[i]];
    }

    method CompareBits(seen: seq<bool>)
      requires Valid() && |seen| == MAX_DEVICES
      modifies pads, this`pick, this`state, this`calls, this`prev
      ensures Valid() && Application() == Notify(old(Application()), old(prev), seen) && prev == seen
    {
      if seen == prev { return; }
      ghost var before := Application();
      var i := 0;
      while i < MAX_DEVICES
        invariant 0 <= i <= MAX_DEVICES && Valid() && prev == old(prev)
        invariant Application() == Edges(before, old(prev), seen, i)
      {
        if seen[i] != prev[i] {
          if seen[i] { OnConnected(i); } else { OnDisconnected(i); }
        }
        i := i + 1;
      }
      prev := seen;
    }

    method ShowChosen()
      requires Valid()
      modifies this`state
      ensures Valid() && Application() == Show(old(Application()))
    {
      if pick.None? || !pads[pick.value].connected || !pads[pick.value].data.gamepad {
        state := state.(connected := false);
        return;
      }
      if !pads[pick.value].hasData { return; }
      state := Shown(true, pads[pick.value].data.axes);
    }

    // One seat of the loop: look at its number and, if it is taken, take its report.
    method PollSeat(i: nat, seen: seq<bool>) returns (status: Status, seen': seq<bool>)
      requires Valid() && i < MAX_DEVICES && |seen| == MAX_DEVICES
      modifies slots, pads, this`log
      ensures Valid() && |seen'| == MAX_DEVICES
      ensures At(NextPc(i), seen') == SeatDone(old(At(AtCheck(i), seen)))
      ensures log == old(log) + match status
                                case Success => [Looked(i, true), Taken(i, pads[i].data)]
                                case NoData => [Looked(i, true), Missed(i)]
                                case InvalidDevice => [Looked(i, false)]
    {
      seen' := seen;
      ghost var w := At(AtCheck(i), seen);
      status := GetControllerData(i);
      if status != InvalidDevice {
        ghost var slot, pad := w.slots[i], w.app.pads[i];
        pads[i] := pads[i].(hasData := status == Success);
        seen' := seen[i := true];
        assert Check(w) == w.(pc := AtTake(i), log := w.log + [Looked(i, true)]);
        assert pads[..] == w.app.pads[i := pads[i]];
        assert slots[..] == if slot.updated then w.slots[i := slot.(updated := false)] else w.slots;
      }
    }

    // The loop over the seats. The first result says whether any seat yielded a report.
    method PollSeats() returns (dataUpdated: bool, seen: seq<bool>)
      requires Valid()
      modifies slots, pads, this`log
      ensures Valid() && |seen| == MAX_DEVICES
      ensures PollThrough(old(View())) == PollThrough(At(AtFinish, seen))
      ensures |log| >= |old(log)| && (dataUpdated <==> AnyTaken(log[|old(log)|..]))
    {
      dataUpdated := false;
      seen := Off(MAX_DEVICES);
      ghost var before, start := View(), log;
      ghost var pc := AtCheck(0);
      var i := 0;
      while i < MAX_DEVICES
        invariant 0 <= i <= MAX_DEVICES && Valid() && |seen| == MAX_DEVICES
        invariant pc == if i < MAX_DEVICES then AtCheck(i) else AtFinish
        invariant PollThrough(before) == PollThrough(At(pc, seen))
        invariant |log| >= |start| && (dataUpdated <==> AnyTaken(log[|start|..]))
      {
        ghost var was := log;
        SeatPolled(At(pc, seen));
        var status;
        status, seen := PollSeat(i, seen);
        SeatLogged(was, log[|was|..], |start|);
        assert log == was + log[|was|..];
        if status == Success { dataUpdated := true; }
        pc := NextPc(i);
        i := i + 1;
      }
    }

    // Polls every seat, runs the callbacks, and updates what the application reads.
    method Update() returns (dataUpdated: bool)
      requires Valid()
      modifies slots, pads, this
      ensures Valid() && View() == PollThrough(old(View()))
      ensures |log| >= |old(log)| && (dataUpdated <==> AnyTaken(log[|old(log)|..]))
    {
      var seen;
      dataUpdated, seen := PollSeats();
      ghost var w := At(AtFinish, seen);
      CompareBits(seen);
      ShowChosen();
      EndLogged(log, seen, |old(log)|);
      log := log + [Polled(seen)];
      assert PollThrough(w) == Finish(w) == View();
    }
  }

  lemma {:induction false} AnyTakenSplits(before: seq<Entry>, more: seq<Entry>)
    ensures AnyTaken(before + more) <==> AnyTaken(before) || AnyTaken(more)
    decreases |more|
  {
    if more == [] {
      assert before + more == before;
    } else {
      var all := before + more;
      assert all[..|all| - 1] == before + more[..|more| - 1];
      AnyTakenSplits(before, more[..|more| - 1]);
    }
  }

  lemma NothingTakenBy(e: Entry)
    requires !e.Taken?
    ensures !AnyTaken([e])
  {
    assert [e][..0] == [];
  }

  // The end of a poll takes nothing.
  lemma EndLogged(log: seq<Entry>, seen: seq<bool>, n: nat)
    requires n <= |log|
    ensures AnyTaken((log + [Polled(seen)])[n..]) <==> AnyTaken(log[n..])
  {
    assert (log + [Polled(seen)])[n..] == log[n..] + [Polled(seen)];
    AnyTakenSplits(log[n..], [Polled(seen)]);
    NothingTakenBy(Polled(seen));
  }

  // What a seat adds to the log: a look, and a report if one was taken.
  lemma SeatLogged(was: seq<Entry>, more: seq<Entry>, n: nat)
    requires n <= |was| && 0 < |more| <= 2 && more[0].Looked? && (|more| == 2 ==> more[1].Taken? || more[1].Missed?)
    ensures AnyTaken((was + more)[n..]) <==> AnyTaken(was[n..]) || more[|more| - 1].Taken?
  {
    assert (was + more)[n..] == was[n..] + more;
    AnyTakenSplits(was[n..], more);
    NothingTakenBy(more[0]);
    if |more| == 2 { assert more[..1] == [more[0]]; } else { assert more == [more[0]]; }
  }

  predicate AnyTaken(log: seq<Entry>) {
    log != [] && (log[|log| - 1].Taken? || AnyTaken(log[..|log| - 1]))
  }

  function SeatDone(w: World): (r: World)
    requires SizedWorld(w) && w.pc.AtCheck?
    ensures SizedWorld(r)
  {
    if w.slots[w.pc.i].idx == NO_SEAT then Check(w) else Take(Check(w))
  }

  lemma SeatPolled(w: World)
    requires SizedWorld(w) && w.pc.AtCheck?
    ensures PollThrough(w) == PollThrough(SeatDone(w))
  {
    if w.slots[w.pc.i].idx != NO_SEAT {
      assert PollThrough(w) == PollThrough(Check(w)) == PollThrough(Take(Check(w)));
    }
  }
}
