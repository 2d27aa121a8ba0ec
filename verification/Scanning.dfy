/** Scan commands on their way to the Bluetooth stack, and what the stack does with them.

    Commands come from any task. Each is written into one of eight registrations, used in turn, and the
    Bluetooth task runs the registrations in the order they were handed over, reading each when its turn
    comes. BLE scanning is also paused by the stack itself while it connects to a device, and resumed
    after, "only if it was scanning before". */
module Scanning {
  import AdminButton

  const SLOTS: nat := 8

  datatype Command = StartScanning | StopScanning | OtherCommand

  // `ring` holds the registrations, `last` the one used last, `waiting` those handed over and not yet run.
  // wanted, leWanted: the two "scanning" flags; inquiring, leScanning: what the radio is doing.
  // issued, executed: history.
  datatype Stack = Stack(
    ring: seq<Command>, last: nat, waiting: seq<nat>,
    wanted: bool, bleEnabled: bool, leWanted: bool, inquiring: bool, leScanning: bool,
    issued: seq<Command>, executed: seq<Command>)

  predicate Sized(s: Stack) {
    |s.ring| == SLOTS && s.last < SLOTS && forall k :: 0 <= k < |s.waiting| ==> s.waiting[k] < SLOTS
  }

  function PowerOn(bleEnabled: bool): (s: Stack)
    ensures Sized(s)
  {
    Stack(seq(SLOTS, i => OtherCommand), 0, [], false, bleEnabled, false, false, false, [], [])
  }

  // The stack's list takes a registration that is in it already no second time.
  function Issue(s: Stack, c: Command): (r: Stack)
    requires Sized(s)
    ensures Sized(r)
  {
    var at := (s.last + 1) % SLOTS;
    s.(ring := s.ring[at := c], last := at,
       waiting := if at in s.waiting then s.waiting else s.waiting + [at], issued := s.issued + [c])
  }

  function LeScanStart(s: Stack): Stack { if !s.bleEnabled then s else s.(leScanning := true, leWanted := true) }

  function LeScanStop(s: Stack): Stack { if !s.bleEnabled then s else s.(leScanning := false, leWanted := false) }

  function SetScanning(s: Stack, enabled: bool): Stack {
    if s.wanted == enabled then s
    else if enabled then LeScanStart(s.(wanted := true, inquiring := true))
    else LeScanStop(s.(wanted := false, inquiring := false))
  }

  // The Bluetooth task runs the next registration, if there is one.
  function Execute(s: Stack): (r: Stack)
    requires Sized(s)
    ensures Sized(r)
  {
    if s.waiting == [] then s
    else
      var c := s.ring[s.waiting[0]];
      var next := s.(waiting := s.waiting[1..], executed := s.executed + [c]);
      match c
      case StartScanning => SetScanning(next, true)
      case StopScanning => SetScanning(next, false)
      case OtherCommand => next
  }

  // Connecting to a BLE device pauses its scan.
  function HogConnect(s: Stack): Stack { s.(leScanning := false) }

  // A BLE device that has connected, or gone, resumes it.
  function ResumeHint(s: Stack): Stack { if s.leWanted then s.(leScanning := true) else s }

  datatype Event = DoIssue(c: Command) | DoExecute | BleConnecting | BleConnectedOrGone

  function Handle(s: Stack, e: Event): (r: Stack)
    requires Sized(s)
    ensures Sized(r)
  {
    match e
    case DoIssue(c) => Issue(s, c)
    case DoExecute => Execute(s)
    case BleConnecting => HogConnect(s)
    case BleConnectedOrGone => ResumeHint(s)
  }

  // No command is issued while eight are waiting.
  predicate InTime(s: Stack, e: Event) { e.DoIssue? ==> |s.waiting| < SLOTS }

  predicate AllInTime(s: Stack, es: seq<Event>)
    requires Sized(s)
    decreases |es|
  {
    es == [] || (InTime(s, es[0]) && AllInTime(Handle(s, es[0]), es[1..]))
  }

  function Run(s: Stack, es: seq<Event>): (r: Stack)
    requires Sized(s)
    ensures Sized(r)
    decreases |es|
  {
    if es == [] then s else Run(Handle(s, es[0]), es[1..])
  }

  // ---------------------------------------------------------------------------
  // The ring is a queue
  // ---------------------------------------------------------------------------

  // The registration that the n-th command issued went into.
  function Slot(n: nat): (at: nat)
    ensures at < SLOTS
  {
    n % SLOTS
  }

  // The k-th waiting registration is the one used that long ago, and still holds its command.
  predicate Holds(ring: seq<Command>, waiting: seq<nat>, issued: seq<Command>, done: nat, k: nat)
    requires |ring| == SLOTS && k < |waiting| && |issued| == done + |waiting|
  {
    waiting[k] == Slot(done + k + 1) && ring[Slot(done + k + 1)] == issued[done + k]
  }

  ghost predicate InOrder(ring: seq<Command>, waiting: seq<nat>, issued: seq<Command>, done: nat) {
    && |ring| == SLOTS && |waiting| <= SLOTS && |issued| == done + |waiting|
    && forall k: nat :: k < |waiting| ==> Holds(ring, waiting, issued, done, k)
  }

  ghost predicate Queue(s: Stack) {
    && Sized(s) && InOrder(s.ring, s.waiting, s.issued, |s.executed|)
    && s.last == Slot(|s.issued|)
    && s.executed == s.issued[..|s.executed|]
  }

  lemma NextSlot(n: nat)
    ensures (Slot(n) + 1) % SLOTS == Slot(n + 1)
  {
  }

  // Fewer than eight apart, two registrations are different.
  lemma SlotsDiffer(m: nat, n: nat)
    requires m < n < m + SLOTS
    ensures Slot(m) != Slot(n)
  {
  }

  // With fewer than eight waiting, the next registration is not among them.
  lemma NextIsFree(ring: seq<Command>, waiting: seq<nat>, issued: seq<Command>, done: nat)
    requires InOrder(ring, waiting, issued, done) && |waiting| < SLOTS
    ensures Slot(|issued| + 1) !in waiting
  {
    forall k: nat | k < |waiting|
      ensures waiting[k] != Slot(|issued| + 1)
    {
      assert Holds(ring, waiting, issued, done, k);
      SlotsDiffer(done + k + 1, |issued| + 1);
    }
  }

  lemma OneMoreInOrder(ring: seq<Command>, waiting: seq<nat>, issued: seq<Command>, done: nat, c: Command)
    requires InOrder(ring, waiting, issued, done) && |waiting| < SLOTS
    ensures var at := Slot(|issued| + 1); InOrder(ring[at := c], waiting + [at], issued + [c], done)
  {
    var at := Slot(|issued| + 1);
    var (ring', waiting', issued') := (ring[at := c], waiting + [at], issued + [c]);
    forall k: nat | k < |waiting'|
      ensures Holds(ring', waiting', issued', done, k)
    {
      if k < |waiting| {
        assert Holds(ring, waiting, issued, done, k);
        SlotsDiffer(done + k + 1, |issued| + 1);
      }
    }
  }

  lemma IssueKeepsQueue(s: Stack, c: Command)
    requires Queue(s) && |s.waiting| < SLOTS
    ensures Queue(Issue(s, c))
  {
    NextSlot(|s.issued|);
    NextIsFree(s.ring, s.waiting, s.issued, |s.executed|);
    OneMoreInOrder(s.ring, s.waiting, s.issued, |s.executed|, c);
  }

  lemma OneLessInOrder(ring: seq<Command>, waiting: seq<nat>, issued: seq<Command>, done: nat)
    requires InOrder(ring, waiting, issued, done) && waiting != []
    ensures InOrder(ring, waiting[1..], issued, done + 1)
    ensures waiting[0] < SLOTS && ring[waiting[0]] == issued[done]
  {
    assert Holds(ring, waiting, issued, done, 0);
    var (rest, more) := (waiting[1..], done + 1);
    forall k: nat | k < |rest|
      ensures Holds(ring, rest, issued, more, k)
    {
      var next := k + 1;
      assert Holds(ring, waiting, issued, done, next);
    }
  }

  lemma ExecuteShape(s: Stack)
    requires Sized(s) && s.waiting != []
    ensures var r := Execute(s);
            && r.ring == s.ring && r.last == s.last && r.issued == s.issued && r.bleEnabled == s.bleEnabled
            && r.waiting == s.waiting[1..] && r.executed == s.executed + [s.ring[s.waiting[0]]]
  {
  }

  lemma ExecuteKeepsQueue(s: Stack)
    requires Queue(s)
    ensures Queue(Execute(s))
  {
    if s.waiting != [] {
      ExecuteShape(s);
      OneLessInOrder(s.ring, s.waiting, s.issued, |s.executed|);
      assert s.issued[..|s.executed| + 1] == s.issued[..|s.executed|] + [s.issued[|s.executed|]];
    }
  }

  // With eight waiting, the next registration is the oldest one's.
  lemma NextIsTaken(s: Stack)
    requires Queue(s) && |s.waiting| == SLOTS
    ensures s.waiting[0] == (s.last + 1) % SLOTS
  {
    NextSlot(|s.issued|);
    assert Holds(s.ring, s.waiting, s.issued, |s.executed|, 0);
  }

  // With a ninth command, the registration that should run next reads as the newest command instead, and the
  // stack runs eight callbacks, not nine: one command is lost.
  lemma NinthOverwrites(s: Stack, c: Command)
    requires Queue(s) && |s.waiting| == SLOTS
    ensures Issue(s, c).waiting == s.waiting
    ensures Execute(Issue(s, c)).executed == s.executed + [c]
  {
    NextIsTaken(s);
    assert (s.last + 1) % SLOTS in s.waiting;
    ExecuteShape(Issue(s, c));
  }

  // The next command to run is the oldest one issued, whatever is issued now, if and only if fewer than eight
  // are waiting or the new one is the same.
  lemma NextIsOldest(s: Stack, c: Command)
    requires Queue(s)
    ensures Execute(Issue(s, c)).executed == Issue(s, c).issued[..|s.executed| + 1]
       <==> |s.waiting| < SLOTS || c == s.issued[|s.executed|]
  {
    var r := Issue(s, c);
    assert r.issued[..|s.executed| + 1] == s.executed + [r.issued[|s.executed|]];
    if |s.waiting| < SLOTS {
      IssueKeepsQueue(s, c);
      OneLessInOrder(r.ring, r.waiting, r.issued, |r.executed|);
      ExecuteShape(r);
    } else {
      NinthOverwrites(s, c);
    }
  }

  function Issues(cs: seq<Command>): seq<Event> {
    if cs == [] then [] else [DoIssue(cs[0])] + Issues(cs[1..])
  }

  // Commands issued one after the other, with nothing run in between, all wait.
  lemma {:induction false} IssuesWait(s: Stack, cs: seq<Command>)
    requires Queue(s) && |s.waiting| + |cs| <= SLOTS
    ensures AllInTime(s, Issues(cs))
    ensures var r := Run(s, Issues(cs));
            Queue(r) && |r.waiting| == |s.waiting| + |cs| && r.issued == s.issued + cs && r.executed == s.executed
    decreases |cs|
  {
    if cs != [] {
      IssueKeepsQueue(s, cs[0]);
      IssuesWait(Issue(s, cs[0]), cs[1..]);
      assert Issues(cs)[1..] == Issues(cs[1..]);
      assert s.issued + [cs[0]] + cs[1..] == s.issued + cs;
    }
  }

  // From power-on, any eight commands and a ninth: the first to run is the ninth, not the first.
  lemma NinthRunsFirst(bleEnabled: bool, cs: seq<Command>, c: Command)
    requires |cs| == SLOTS
    ensures var s := Run(PowerOn(bleEnabled), Issues(cs));
            && AllInTime(PowerOn(bleEnabled), Issues(cs)) && |s.waiting| == SLOTS && s.issued == cs
            && Execute(Issue(s, c)).executed == [c]
  {
    IssuesWait(PowerOn(bleEnabled), cs);
    NinthOverwrites(Run(PowerOn(bleEnabled), Issues(cs)), c);
  }

  // ---------------------------------------------------------------------------
  // Scanning follows the last command
  // ---------------------------------------------------------------------------

  // Whether the last scan command among these was "start"; nothing scans before the first.
  predicate LastIsStart(cs: seq<Command>) {
    if cs == [] then false
    else
      var c := cs[|cs| - 1];
      if c.OtherCommand? then LastIsStart(cs[..|cs| - 1]) else c.StartScanning?
  }

  ghost predicate Obeys(s: Stack) {
    && s.wanted == s.inquiring == LastIsStart(s.executed)
    && s.leWanted == (s.bleEnabled && s.wanted)
    && (s.leScanning ==> s.leWanted)
  }

  lemma ExecuteObeys(s: Stack)
    requires Sized(s) && Obeys(s)
    ensures Obeys(Execute(s)) && Execute(s).bleEnabled == s.bleEnabled
  {
    if s.waiting != [] {
      ExecuteShape(s);
      assert Execute(s).executed[..|s.executed|] == s.executed;
    }
  }

  lemma HandleKeeps(s: Stack, e: Event)
    requires Queue(s) && Obeys(s) && InTime(s, e)
    ensures Queue(Handle(s, e)) && Obeys(Handle(s, e)) && Handle(s, e).bleEnabled == s.bleEnabled
  {
    match e
    case DoIssue(c) => IssueKeepsQueue(s, c);
    case DoExecute =>
      ExecuteKeepsQueue(s);
      ExecuteObeys(s);
    case BleConnecting =>
    case BleConnectedOrGone =>
  }

  lemma {:induction false} RunKeeps(s: Stack, es: seq<Event>)
    requires Queue(s) && Obeys(s) && AllInTime(s, es)
    ensures Queue(Run(s, es)) && Obeys(Run(s, es)) && Run(s, es).bleEnabled == s.bleEnabled
    decreases |es|
  {
    if es != [] {
      HandleKeeps(s, es[0]);
      RunKeeps(Handle(s, es[0]), es[1..]);
    }
  }

  // With never more than eight commands waiting, commands run in the order they were issued; and after a
  // "stop" has run, neither kind of scanning is on until the next "start" runs, through any number of
  // connections and disconnections in between.
  lemma CommandsAreObeyed(bleEnabled: bool, es: seq<Event>)
    requires AllInTime(PowerOn(bleEnabled), es)
    ensures var s := Run(PowerOn(bleEnabled), es);
            && |s.issued| == |s.executed| + |s.waiting| && s.executed == s.issued[..|s.executed|]
            && s.inquiring == LastIsStart(s.executed)
            && (s.leScanning ==> bleEnabled && LastIsStart(s.executed))
  {
    RunKeeps(PowerOn(bleEnabled), es);
  }

  // The last word the stack had about a BLE connection was that one is being made.
  predicate Hogged(es: seq<Event>) {
    if es == [] then false
    else
      var e := es[|es| - 1];
      e.BleConnecting? || (!e.BleConnectedOrGone? && Hogged(es[..|es| - 1]))
  }

  // When a command runs: a start that changes something turns both kinds of scanning on, BLE only where it is
  // enabled; a stop that does turns both off; and nothing else touches them.
  lemma CommandRuns(s: Stack)
    requires Queue(s) && Obeys(s) && s.waiting != []
    ensures var (r, c) := (Execute(s), s.issued[|s.executed|]);
            && r.executed == s.executed + [c] && r.waiting == s.waiting[1..]
            && (if c.StartScanning? && !s.inquiring then r.inquiring && r.leScanning == s.bleEnabled
                else if c.StopScanning? then !r.inquiring && !r.leScanning
                else r.inquiring == s.inquiring && r.leScanning == s.leScanning)
  {
    ExecuteShape(s);
    OneLessInOrder(s.ring, s.waiting, s.issued, |s.executed|);
  }

  lemma {:induction false} RunSplits(s: Stack, es: seq<Event>, e: Event)
    requires Sized(s)
    ensures Run(s, es + [e]) == Handle(Run(s, es), e)
    ensures AllInTime(s, es + [e]) <==> AllInTime(s, es) && InTime(Run(s, es), e)
    decreases |es|
  {
    if es == [] {
      assert [e][1..] == [];
    } else {
      assert (es + [e])[1..] == es[1..] + [e];
      RunSplits(Handle(s, es[0]), es[1..], e);
    }
  }

  // Except while a BLE connection is being made, BLE scanning is on exactly if it is enabled and the last scan
  // command run was "start".
  lemma {:induction false} LeFollowsTheLastCommand(bleEnabled: bool, es: seq<Event>)
    requires AllInTime(PowerOn(bleEnabled), es)
    ensures var s := Run(PowerOn(bleEnabled), es);
            !Hogged(es) ==> s.leScanning == (bleEnabled && LastIsStart(s.executed))
    decreases |es|
  {
    if es != [] {
      var before, e := es[..|es| - 1], es[|es| - 1];
      assert es == before + [e];
      RunSplits(PowerOn(bleEnabled), before, e);
      LeFollowsTheLastCommand(bleEnabled, before);
      RunKeeps(PowerOn(bleEnabled), before);
      var s := Run(PowerOn(bleEnabled), before);
      HandleKeeps(s, e);
      if e.DoExecute? && s.waiting != [] {
        CommandRuns(s);
        assert Execute(s).executed[..|s.executed|] == s.executed;
      }
    }
  }

  // A connection pauses BLE scanning; its end restores exactly what the last command asked for.
  lemma ResumeRestores(s: Stack)
    requires Obeys(s)
    ensures !HogConnect(s).leScanning
    ensures ResumeHint(HogConnect(s)).leScanning == (s.bleEnabled && LastIsStart(s.executed))
  {
  }

  // ---------------------------------------------------------------------------
  // From the button to the radio
  // ---------------------------------------------------------------------------

  // The main loop issues the scan commands among its actions, in order.
  function Commands(acts: seq<AdminButton.Action>): (cs: seq<Command>) {
    if acts == [] then []
    else
      var before := Commands(acts[..|acts| - 1]);
      match acts[|acts| - 1]
      case ScanOn => before + [StartScanning]
      case ScanOff => before + [StopScanning]
      case _ => before
  }

  // The scan commands in a history of commands.
  function ScanOnly(cs: seq<Command>): (r: seq<Command>) {
    if cs == [] then []
    else
      var before := ScanOnly(cs[..|cs| - 1]);
      if cs[|cs| - 1].OtherCommand? then before else before + [cs[|cs| - 1]]
  }

  lemma {:induction false} ScanOnlyKeepsLast(cs: seq<Command>)
    ensures LastIsStart(ScanOnly(cs)) == LastIsStart(cs)
  {
    if cs != [] {
      var before := cs[..|cs| - 1];
      ScanOnlyKeepsLast(before);
      assert ScanOnly(cs) == ScanOnly(before) || ScanOnly(cs)[..|ScanOnly(before)|] == ScanOnly(before);
    }
  }

  lemma {:induction false} CommandsKeepLast(acts: seq<AdminButton.Action>)
    ensures LastIsStart(Commands(acts)) == AdminButton.Replay(acts).scan
    ensures ScanOnly(Commands(acts)) == Commands(acts)
  {
    if acts != [] {
      var before := acts[..|acts| - 1];
      CommandsKeepLast(before);
      assert Commands(acts) == Commands(before) || Commands(acts)[..|Commands(before)|] == Commands(before);
    }
  }

  // Any interleaving of the loop and the Bluetooth task, with other commands from anywhere: once all commands
  // have run, nothing scans while the access point is up, at the end of any pass of the loop, and both kinds of
  // scanning are on while it is down, but for a BLE connection in the making.
  lemma NoScanBesideAccessPoint(ts: seq<AdminButton.Tick>, bleEnabled: bool, es: seq<Event>)
    requires AllInTime(PowerOn(bleEnabled), es)
    requires Run(PowerOn(bleEnabled), es).waiting == []
    requires ScanOnly(Run(PowerOn(bleEnabled), es).issued) == Commands(AdminButton.Loop(AdminButton.Boot(), ts).acts)
    ensures var b := AdminButton.Loop(AdminButton.Boot(), ts);
            var s := Run(PowerOn(bleEnabled), es);
            && (b.web ==> !s.inquiring && !s.leScanning)
            && (!b.web ==> s.inquiring && s.wanted)
            && (!b.web && !Hogged(es) ==> s.leScanning == bleEnabled)
  {
    var b := AdminButton.Loop(AdminButton.Boot(), ts);
    var s := Run(PowerOn(bleEnabled), es);
    AdminButton.RadioIsShared(ts);
    CommandsAreObeyed(bleEnabled, es);
    RunKeeps(PowerOn(bleEnabled), es);
    assert s.executed == s.issued;
    CommandsKeepLast(b.acts);
    ScanOnlyKeepsLast(s.issued);
    LeFollowsTheLastCommand(bleEnabled, es);
  }

  // ---------------------------------------------------------------------------
  // The code
  // ---------------------------------------------------------------------------

  class Bluetooth {
    const registrations: array<Command>
    var idx: nat
    var waiting: seq<nat>
    var scanningEnabled: bool
    var bleEnabled: bool
    var isScanning: bool
    var inquiring: bool
    var gapScanning: bool
    ghost var issued: seq<Command>
    ghost var executed: seq<Command>

    ghost function View(): (s: Stack)
      reads this, registrations
    {
      Stack(registrations[..], idx, waiting, scanningEnabled, bleEnabled, isScanning, inquiring, gapScanning,
            issued, executed)
    }

    ghost predicate Valid()
      reads this, registrations
    {
      Sized(View())
    }

    constructor (ble: bool)
      ensures Valid() && fresh(registrations) && View() == PowerOn(ble)
    {
      registrations := new Command[SLOTS](i => OtherCommand);
      idx, waiting, bleEnabled := 0, [], ble;
      scanningEnabled, isScanning, inquiring, gapScanning := false, false, false, false;
      issued, executed := [], [];
      new;
      assert View().ring == PowerOn(ble).ring;
    }

    method Hand(c: Command)
      requires Valid()
      modifies registrations, this`idx, this`waiting, this`issued
      ensures Valid() && View() == Issue(old(View()), c)
    {
      idx := (idx + 1) % SLOTS;
      registrations[idx] := c;
      if idx !in waiting { waiting := waiting + [idx]; }
      issued := issued + [c];
      assert registrations[..] == old(registrations[..])[idx := c];
    }

    method StartLe()
      modifies this`gapScanning, this`isScanning
      ensures View() == LeScanStart(old(View()))
    {
      if !bleEnabled { return; }
      gapScanning := true;
      isScanning := true;
    }

    method StopLe()
      modifies this`gapScanning, this`isScanning
      ensures View() == LeScanStop(old(View()))
    {
      if !bleEnabled { return; }
      gapScanning := false;
      isScanning := false;
    }

    method EnableScanning(enabled: bool)
      modifies this`scanningEnabled, this`inquiring, this`gapScanning, this`isScanning
      ensures View() == SetScanning(old(View()), enabled)
    {
      if scanningEnabled != enabled {
        scanningEnabled := enabled;
        inquiring := enabled;
        if enabled { StartLe(); } else { StopLe(); }
      }
    }

    method RunNext()
      requires Valid()
      modifies this
      ensures Valid() && View() == Execute(old(View()))
    {
      if waiting == [] { return; }
      var c := registrations[waiting[0]];
      waiting := waiting[1..];
      executed := executed + [c];
      match c {
        case StartScanning => EnableScanning(true);
        case StopScanning => EnableScanning(false);
        case OtherCommand =>
      }
    }

    method ConnectLe()
      modifies this`gapScanning
      ensures View() == HogConnect(old(View()))
    {
      gapScanning := false;
    }

    method Resume()
      modifies this`gapScanning
      ensures View() == ResumeHint(old(View()))
    {
      if isScanning { gapScanning := true; }
    }
  }
}
