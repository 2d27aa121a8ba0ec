/** The admin button of the main loop, which brings the access point up and down.

    The access point, the over-the-air update service and Bluetooth scanning share one radio. Holding the
    button for a second swaps between "scanning" and "access point with update service". */
module AdminButton {
  import opened Prelude

  const HOLD_MS: nat := 1000
  const WRAP: nat := 0x1_0000_0000

  // Milliseconds from one reading of the 32-bit clock to a later one.
  function Since(now: nat, then_: nat): nat { (now - then_) % WRAP }

  // Everything the loop does to the radio, in order.
  datatype Action = ScanOn | ScanOff | ApUp | ApDown | OtaUp | OtaDown

  // pressedAt == 0 stands for "not pressed".
  datatype Board = Board(pressedAt: nat, fired: bool, web: bool, ota: bool, acts: seq<Action>)

  // One pass of the loop: the pin, the clock, and whether an access point would come up if started.
  datatype Tick = Tick(low: bool, now: nat, apComesUp: bool)

  // The board after setup, which starts scanning.
  function Boot(): Board { Board(0, false, false, false, [ScanOn]) }

  function Do(b: Board, a: Action): Board { b.(acts := b.acts + [a]) }

  function OtaBegin(b: Board): Board { if b.ota then b else Do(b.(ota := true), OtaUp) }

  function OtaStop(b: Board): Board { if !b.ota then b else Do(b.(ota := false), OtaDown) }

  // A start that fails leaves WiFi off.
  function WebStart(b: Board, apComesUp: bool): Board {
    if b.web || !apComesUp then b else Do(b.(web := true), ApUp)
  }

  function WebStop(b: Board): Board { if !b.web then b else Do(b.(web := false), ApDown) }

  function Toggle(b: Board, apComesUp: bool): Board {
    if b.web then Do(WebStop(OtaStop(b)), ScanOn)
    else
      var started := WebStart(Do(b, ScanOff), apComesUp);
      if started.web then OtaBegin(started) else Do(started, ScanOn)
  }

  function Pass(b: Board, t: Tick): Board {
    if !t.low then b.(pressedAt := 0, fired := false)
    else if b.pressedAt == 0 then b.(pressedAt := t.now)
    else if !b.fired && Since(t.now, b.pressedAt) >= HOLD_MS then Toggle(b, t.apComesUp).(fired := true)
    else b
  }

  function Loop(b: Board, ts: seq<Tick>): (r: Board)
    decreases |ts|
  {
    if ts == [] then b else Loop(Pass(b, ts[0]), ts[1..])
  }

  // ---------------------------------------------------------------------------
  // Who has the radio
  // ---------------------------------------------------------------------------

  // What the actions so far leave switched on.
  datatype Radio = Radio(scan: bool, ap: bool, ota: bool)

  function Replay(acts: seq<Action>): Radio {
    if acts == [] then Radio(false, false, false)
    else
      var r := Replay(acts[..|acts| - 1]);
      match acts[|acts| - 1]
      case ScanOn => r.(scan := true)
      case ScanOff => r.(scan := false)
      case ApUp => r.(ap := true)
      case ApDown => r.(ap := false)
      case OtaUp => r.(ota := true)
      case OtaDown => r.(ota := false)
  }

  // The update service never runs without its access point, nor the access point beside a scan that was
  // asked for.
  predicate Shared(r: Radio) { (r.ota ==> r.ap) && (r.ap ==> !r.scan) }

  ghost predicate SharedThroughout(acts: seq<Action>) {
    forall k :: 0 <= k <= |acts| ==> Shared(Replay(acts[..k]))
  }

  ghost predicate Inv(b: Board) {
    && SharedThroughout(b.acts)
    && Replay(b.acts) == Radio(!b.web, b.web, b.ota)
    && b.ota == b.web
  }

  lemma DoShares(b: Board, a: Action)
    requires SharedThroughout(b.acts) && Shared(Replay(b.acts + [a]))
    ensures SharedThroughout(Do(b, a).acts)
  {
    var acts := b.acts + [a];
    forall k | 0 <= k <= |acts|
      ensures Shared(Replay(acts[..k]))
    {
      if k <= |b.acts| {
        assert acts[..k] == b.acts[..k];
      } else {
        assert acts[..k] == acts;
      }
    }
  }

  lemma ReplayDo(b: Board, a: Action)
    ensures var r := Replay(b.acts);
            Replay(Do(b, a).acts) == match a
                                     case ScanOn => r.(scan := true)
                                     case ScanOff => r.(scan := false)
                                     case ApUp => r.(ap := true)
                                     case ApDown => r.(ap := false)
                                     case OtaUp => r.(ota := true)
                                     case OtaDown => r.(ota := false)
  {
    assert (b.acts + [a])[..|b.acts|] == b.acts;
  }

  lemma ActShares(b: Board, a: Action)
    requires SharedThroughout(b.acts)
    requires var r := Replay(b.acts);
             match a
             case ScanOn => !r.ap
             case ApUp => !r.scan
             case ApDown => !r.ota
             case OtaUp => r.ap
             case _ => true
    ensures SharedThroughout(Do(b, a).acts)
  {
    ReplayDo(b, a);
    assert b.acts[..|b.acts|] == b.acts;
    DoShares(b, a);
  }

  lemma ToggleKeeps(b: Board, apComesUp: bool)
    requires Inv(b)
    ensures Inv(Toggle(b, apComesUp))
    ensures Toggle(b, apComesUp).web == (!b.web && apComesUp)
  {
    if b.web {
      var quiet := OtaStop(b);
      ActShares(b, OtaDown);
      ReplayDo(b, OtaDown);
      ActShares(quiet, ApDown);
      ReplayDo(quiet, ApDown);
      ActShares(WebStop(quiet), ScanOn);
      ReplayDo(WebStop(quiet), ScanOn);
    } else {
      var still := Do(b, ScanOff);
      ActShares(b, ScanOff);
      ReplayDo(b, ScanOff);
      if apComesUp {
        ActShares(still, ApUp);
        ReplayDo(still, ApUp);
        ActShares(WebStart(still, true), OtaUp);
        ReplayDo(WebStart(still, true), OtaUp);
      } else {
        ActShares(still, ScanOn);
        ReplayDo(still, ScanOn);
      }
    }
  }

  lemma PassKeeps(b: Board, t: Tick)
    requires Inv(b)
    ensures Inv(Pass(b, t))
  {
    ToggleKeeps(b, t.apComesUp);
  }

  lemma {:induction false} LoopKeeps(b: Board, ts: seq<Tick>)
    requires Inv(b)
    ensures Inv(Loop(b, ts))
    decreases |ts|
  {
    if ts != [] {
      PassKeeps(b, ts[0]);
      LoopKeeps(Pass(b, ts[0]), ts[1..]);
    }
  }

  // Over every run of the loop, whether or not the access point comes up when asked: at the end of each pass
  // the update service runs iff the web UI runs iff the last scan command was "stop", and between any two
  // actions nobody runs on a radio that is not there.
  lemma RadioIsShared(ts: seq<Tick>)
    ensures var b := Loop(Boot(), ts);
            && SharedThroughout(b.acts)
            && (b.ota <==> b.web) && (b.web <==> !Replay(b.acts).scan)
            && Replay(b.acts).ap == b.web && Replay(b.acts).ota == b.ota
  {
    var b := Boot();
    assert Replay([]) == Radio(false, false, false);
    assert b.acts[..0] == [] && b.acts[..1] == b.acts;
    LoopKeeps(b, ts);
  }

  // ---------------------------------------------------------------------------
  // One hold, one toggle
  // ---------------------------------------------------------------------------

  // A pass toggles if it does something to the radio.
  predicate Toggles(b: Board, t: Tick) { Pass(b, t).acts != b.acts }

  function CountToggles(b: Board, ts: seq<Tick>): nat
    decreases |ts|
  {
    if ts == [] then 0 else (if Toggles(b, ts[0]) then 1 else 0) + CountToggles(Pass(b, ts[0]), ts[1..])
  }

  predicate HeldDown(ts: seq<Tick>) { forall k :: 0 <= k < |ts| ==> ts[k].low }

  predicate LetGo(ts: seq<Tick>) { forall k :: 0 <= k < |ts| ==> !ts[k].low }

  // A second has gone by on the 32-bit clock.
  predicate Late(t: Tick, start: nat) { (t.now - start) % 0x1_0000_0000 >= 1000 }

  // The first pass that comes a second or more after the press.
  function FirstLate(ts: seq<Tick>, start: nat): (r: Option<Tick>)
    ensures r.None? <==> forall k :: 0 <= k < |ts| ==> !Late(ts[k], start)
    ensures r.Some? ==>
              exists k :: 0 <= k < |ts| && r.value == ts[k] && Late(ts[k], start)
                  && forall j :: 0 <= j < k ==> !Late(ts[j], start)
  {
    if ts == [] then None
    else if Late(ts[0], start) then
      assert Late(ts[0], start) && Some(ts[0]).value == ts[0];
      Some(ts[0])
    else
      var rest := FirstLate(ts[1..], start);
      assert forall k :: 0 < k < |ts| ==> ts[k] == ts[1..][k - 1];
      assert rest.Some? ==>
          var k :| 0 <= k < |ts[1..]| && rest.value == ts[1..][k] && Late(ts[1..][k], start)
                     && forall j :: 0 <= j < k ==> !Late(ts[1..][j], start);
          && ts[k + 1] == rest.value
          && forall j :: 0 <= j < k + 1 ==> !Late(ts[j], start);
      rest
  }

  // What a hold does to the radio: nothing if it is too short; otherwise the access point goes down, with its
  // service, if it was up; or comes up, with its service; or fails to.
  function HoldDoes(ap: bool, late: Option<Tick>): seq<Action> {
    match late
    case None => []
    case Some(t) =>
      if ap then [OtaDown, ApDown, ScanOn] else if t.apComesUp then [ScanOff, ApUp, OtaUp] else [ScanOff, ScanOn]
  }

  function UpAfter(ap: bool, late: Option<Tick>): bool {
    match late
    case None => ap
    case Some(t) => !ap && t.apComesUp
  }

  lemma ToggleDoes(b: Board, t: Tick)
    requires b.ota == b.web
    ensures Toggle(b, t.apComesUp).acts == b.acts + HoldDoes(b.web, Some(t))
    ensures Toggle(b, t.apComesUp).web == Toggle(b, t.apComesUp).ota == UpAfter(b.web, Some(t))
    ensures Toggle(b, t.apComesUp).pressedAt == b.pressedAt
  {
  }

  lemma {:induction false} LatchedHold(b: Board, ts: seq<Tick>)
    requires b.fired && b.pressedAt != 0 && HeldDown(ts)
    ensures Loop(b, ts) == b && CountToggles(b, ts) == 0
    decreases |ts|
  {
    if ts != [] { LatchedHold(b, ts[1..]); }
  }

  lemma {:induction false} ArmedHold(b: Board, ts: seq<Tick>)
    requires !b.fired && b.pressedAt != 0 && b.ota == b.web && HeldDown(ts)
    ensures var late := FirstLate(ts, b.pressedAt); var r := Loop(b, ts);
            && r.acts == b.acts + HoldDoes(b.web, late)
            && r.web == r.ota == UpAfter(b.web, late) && r.pressedAt != 0
            && CountToggles(b, ts) == (if late.Some? then 1 else 0)
    decreases |ts|
  {
    if ts != [] {
      if Late(ts[0], b.pressedAt) {
        ToggleDoes(b, ts[0]);
        LatchedHold(Pass(b, ts[0]), ts[1..]);
      } else {
        ArmedHold(b, ts[1..]);
      }
    }
  }

  // Passes at clock 0 leave the button unnoticed, since 0 stands for "not pressed".
  lemma {:induction false} UnnoticedHold(b: Board, ts: seq<Tick>)
    requires b.pressedAt == 0 && HeldDown(ts) && forall k :: 0 <= k < |ts| ==> ts[k].now == 0
    ensures Loop(b, ts) == b && CountToggles(b, ts) == 0
    decreases |ts|
  {
    if ts != [] { UnnoticedHold(b, ts[1..]); }
  }

  // With the button up nothing happens, and the next press starts anew.
  lemma {:induction false} ButtonUp(b: Board, ts: seq<Tick>)
    requires LetGo(ts)
    ensures Loop(b, ts) == if ts == [] then b else b.(pressedAt := 0, fired := false)
    ensures CountToggles(b, ts) == 0
    decreases |ts|
  {
    if ts != [] { ButtonUp(Pass(b, ts[0]), ts[1..]); }
  }

  lemma {:induction false} LoopSplits(b: Board, ts: seq<Tick>, us: seq<Tick>)
    ensures Loop(b, ts + us) == Loop(Loop(b, ts), us)
    ensures CountToggles(b, ts + us) == CountToggles(b, ts) + CountToggles(Loop(b, ts), us)
    decreases |ts|
  {
    if ts == [] {
      assert ts + us == us;
    } else {
      assert (ts + us)[1..] == ts[1..] + us;
      LoopSplits(Pass(b, ts[0]), ts[1..], us);
    }
  }

  // One time the button is held: passes at clock 0 that do not notice it, the passes from the one that does,
  // and those after it is let go.
  datatype Hold = Hold(early: seq<Tick>, held: seq<Tick>, after: seq<Tick>) {
    predicate Valid() {
      && HeldDown(early) && (forall k :: 0 <= k < |early| ==> early[k].now == 0)
      && HeldDown(held) && (held != [] ==> held[0].now != 0)
      && LetGo(after) && after != []
    }

    function Ticks(): seq<Tick> { early + (held + after) }

    // The pass that acts, if one does.
    function Acting(): Option<Tick> { if held == [] then None else FirstLate(held, held[0].now) }
  }

  lemma HeldDoes(b: Board, held: seq<Tick>)
    requires b.pressedAt == 0 && !b.fired && b.ota == b.web && HeldDown(held) && held != [] && held[0].now != 0
    ensures var late := FirstLate(held, held[0].now); var r := Loop(b, held);
            && r.acts == b.acts + HoldDoes(b.web, late)
            && r.web == r.ota == UpAfter(b.web, late)
            && CountToggles(b, held) == (if late.Some? then 1 else 0)
  {
    var noticed := Pass(b, held[0]);
    assert !Late(held[0], held[0].now);
    ArmedHold(noticed, held[1..]);
    assert FirstLate(held, held[0].now) == FirstLate(held[1..], held[0].now);
  }

  // One hold: one toggle if some pass comes a second or more after the press was noticed, at the first such
  // pass, and none otherwise.
  lemma OneHoldOneToggle(b: Board, hold: Hold)
    requires b.pressedAt == 0 && !b.fired && b.ota == b.web && hold.Valid()
    ensures var r := Loop(b, hold.Ticks());
            && r.acts == b.acts + HoldDoes(b.web, hold.Acting())
            && r.web == r.ota == UpAfter(b.web, hold.Acting()) && r.pressedAt == 0 && !r.fired
            && CountToggles(b, hold.Ticks()) == (if hold.Acting().Some? then 1 else 0)
  {
    UnnoticedHold(b, hold.early);
    LoopSplits(b, hold.early, hold.held + hold.after);
    LoopSplits(b, hold.held, hold.after);
    if hold.held != [] { HeldDoes(b, hold.held); }
    ButtonUp(Loop(b, hold.held), hold.after);
  }

  // What has happened to the button: it was up, then held a number of times, and may be down still.
  datatype Story = Story(before: seq<Tick>, holds: seq<Hold>, early: seq<Tick>, held: seq<Tick>) {
    ghost predicate Valid() {
      && LetGo(before) && (forall k :: 0 <= k < |holds| ==> holds[k].Valid())
      && HeldDown(early) && (forall k :: 0 <= k < |early| ==> early[k].now == 0)
      && HeldDown(held) && (held != [] ==> held[0].now != 0)
    }

    function Ticks(): seq<Tick> { before + AllTicks(holds) + early + held }

    function Acting(): Option<Tick> { if held == [] then None else FirstLate(held, held[0].now) }
  }

  function AllTicks(holds: seq<Hold>): seq<Tick> {
    if holds == [] then [] else AllTicks(holds[..|holds| - 1]) + holds[|holds| - 1].Ticks()
  }

  function ApAfter(holds: seq<Hold>): bool {
    if holds == [] then false else UpAfter(ApAfter(holds[..|holds| - 1]), holds[|holds| - 1].Acting())
  }

  // What the radio sees, from the holds alone.
  function AllDo(holds: seq<Hold>): seq<Action> {
    if holds == [] then []
    else AllDo(holds[..|holds| - 1]) + HoldDoes(ApAfter(holds[..|holds| - 1]), holds[|holds| - 1].Acting())
  }

  lemma OneMoreHold(b: Board, m: Board, ticks: seq<Tick>, acts: seq<Action>, ap: bool, hold: Hold)
    requires m == Loop(b, ticks) && m.acts == b.acts + acts && m.web == m.ota == ap
    requires m.pressedAt == 0 && !m.fired && hold.Valid()
    ensures var r := Loop(b, ticks + hold.Ticks());
            && r.acts == b.acts + (acts + HoldDoes(ap, hold.Acting())) && r.web == r.ota == UpAfter(ap, hold.Acting())
            && r.pressedAt == 0 && !r.fired
  {
    LoopSplits(b, ticks, hold.Ticks());
    OneHoldOneToggle(m, hold);
    assert b.acts + acts + HoldDoes(ap, hold.Acting()) == b.acts + (acts + HoldDoes(ap, hold.Acting()));
  }

  lemma {:induction false} HoldsDo(b: Board, holds: seq<Hold>)
    requires b.pressedAt == 0 && !b.fired && !b.web && !b.ota
    requires forall k :: 0 <= k < |holds| ==> holds[k].Valid()
    ensures var r := Loop(b, AllTicks(holds));
            && r.acts == b.acts + AllDo(holds) && r.web == r.ota == ApAfter(holds)
            && r.pressedAt == 0 && !r.fired
  {
    if holds != [] {
      var init, last := holds[..|holds| - 1], holds[|holds| - 1];
      HoldsDo(b, init);
      OneMoreHold(b, Loop(b, AllTicks(init)), AllTicks(init), AllDo(init), ApAfter(init), last);
    }
  }

  // From power-on, with the button up and then held any number of times: the radio sees exactly what the holds
  // ask for, in order.
  lemma StoryActs(s: Story)
    requires s.Valid()
    ensures Loop(Boot(), s.Ticks()).acts
         == [ScanOn] + AllDo(s.holds) + HoldDoes(ApAfter(s.holds), s.Acting())
  {
    var up := Loop(Boot(), s.before);
    ButtonUp(Boot(), s.before);
    HoldsDo(up, s.holds);
    var idle := Loop(up, AllTicks(s.holds));
    LoopSplits(Boot(), s.before, AllTicks(s.holds));
    LoopSplits(Boot(), s.before + AllTicks(s.holds), s.early);
    LoopSplits(Boot(), s.before + AllTicks(s.holds) + s.early, s.held);
    UnnoticedHold(idle, s.early);
    if s.held != [] { HeldDoes(idle, s.held); }
  }

  function NextStory(s: Story, t: Tick): Story {
    if t.low then
      if s.held == [] && t.now == 0 then s.(early := s.early + [t]) else s.(held := s.held + [t])
    else if s.early != [] || s.held != [] then
      Story(s.before, s.holds + [Hold(s.early, s.held, [t])], [], [])
    else if s.holds == [] then s.(before := s.before + [t])
    else
      var last := s.holds[|s.holds| - 1];
      s.(holds := s.holds[|s.holds| - 1 := last.(after := last.after + [t])])
  }

  lemma PressIsTold(s: Story, t: Tick)
    requires s.Valid() && t.low
    ensures NextStory(s, t).Valid() && NextStory(s, t).Ticks() == s.Ticks() + [t]
  {
    if s.held == [] && t.now == 0 {
      assert s.Ticks() == s.before + AllTicks(s.holds) + s.early;
    }
  }

  lemma Regrouped<T>(a: seq<T>, b: seq<T>, c: seq<T>, d: seq<T>, e: seq<T>)
    ensures a + b + c + d + e == a + (b + (c + (d + e)))
  {
  }

  lemma HoldAdded(holds: seq<Hold>, hold: Hold)
    ensures AllTicks(holds + [hold]) == AllTicks(holds) + hold.Ticks()
  {
    assert (holds + [hold])[..|holds|] == holds;
  }

  lemma ReleaseIsTold(s: Story, t: Tick)
    requires s.Valid() && !t.low && (s.early != [] || s.held != [])
    ensures NextStory(s, t).Valid() && NextStory(s, t).Ticks() == s.Ticks() + [t]
  {
    var n, hold := NextStory(s, t), Hold(s.early, s.held, [t]);
    assert hold.Valid();
    HoldAdded(s.holds, hold);
    Regrouped(s.before, AllTicks(s.holds), s.early, s.held, [t]);
    assert n.Ticks() == s.before + AllTicks(n.holds);
  }

  lemma MoreAfter(init: seq<Hold>, last: Hold, t: Tick)
    ensures AllTicks(init + [last.(after := last.after + [t])]) == AllTicks(init + [last]) + [t]
  {
    var more := last.(after := last.after + [t]);
    HoldAdded(init, last);
    HoldAdded(init, more);
    Regrouped(last.early, last.held, last.after, [t], []);
    assert more.Ticks() == last.Ticks() + [t];
  }

  lemma AtRest(s: Story)
    requires s.early == [] && s.held == []
    ensures s.Ticks() == s.before + AllTicks(s.holds)
  {
  }

  lemma MoreUpIsValid(hold: Hold, t: Tick)
    requires hold.Valid() && !t.low
    ensures hold.(after := hold.after + [t]).Valid()
  {
  }

  lemma RestIsValid(s: Story, t: Tick)
    requires s.Valid() && !t.low && s.early == [] && s.held == []
    ensures NextStory(s, t).Valid()
  {
    if s.holds != [] { MoreUpIsValid(s.holds[|s.holds| - 1], t); }
  }

  lemma RestTicks(s: Story, t: Tick)
    requires !t.low && s.early == [] && s.held == []
    ensures NextStory(s, t).Ticks() == s.Ticks() + [t]
  {
    AtRest(s);
    AtRest(NextStory(s, t));
    if s.holds != [] {
      var init, last := s.holds[..|s.holds| - 1], s.holds[|s.holds| - 1];
      assert s.holds == init + [last];
      assert NextStory(s, t).holds == init + [last.(after := last.after + [t])];
      MoreAfter(init, last, t);
    }
  }

  lemma RestIsTold(s: Story, t: Tick)
    requires s.Valid() && !t.low && s.early == [] && s.held == []
    ensures NextStory(s, t).Valid() && NextStory(s, t).Ticks() == s.Ticks() + [t]
  {
    RestIsValid(s, t);
    RestTicks(s, t);
  }

  lemma NextIsTold(s: Story, t: Tick)
    requires s.Valid()
    ensures NextStory(s, t).Valid() && NextStory(s, t).Ticks() == s.Ticks() + [t]
  {
    if t.low { PressIsTold(s, t); }
    else if s.early != [] || s.held != [] { ReleaseIsTold(s, t); }
    else { RestIsTold(s, t); }
  }

  function StoryOf(ts: seq<Tick>): Story {
    if ts == [] then Story([], [], [], []) else NextStory(StoryOf(ts[..|ts| - 1]), ts[|ts| - 1])
  }

  lemma {:induction false} EveryRunIsAStory(ts: seq<Tick>)
    ensures StoryOf(ts).Valid() && StoryOf(ts).Ticks() == ts
  {
    if ts != [] {
      EveryRunIsAStory(ts[..|ts| - 1]);
      NextIsTold(StoryOf(ts[..|ts| - 1]), ts[|ts| - 1]);
      assert ts[..|ts| - 1] + [ts[|ts| - 1]] == ts;
    }
  }

  // Over every run of the loop, the radio sees exactly what the holds in it ask for, in order, and nothing else.
  lemma EveryHoldActs(ts: seq<Tick>)
    ensures var s := StoryOf(ts);
            && s.Valid() && s.Ticks() == ts
            && Loop(Boot(), ts).acts == [ScanOn] + AllDo(s.holds) + HoldDoes(ApAfter(s.holds), s.Acting())
  {
    EveryRunIsAStory(ts);
    StoryActs(StoryOf(ts));
  }

  // What a hold leaves switched on: a long one swaps scanning for the access point and its service, if that
  // comes up, or back; a short one leaves the radio as it was.
  lemma HoldSwaps(b: Board, hold: Hold)
    requires Inv(b) && b.pressedAt == 0 && !b.fired && hold.Valid()
    ensures var was, now := Replay(b.acts), Replay(Loop(b, hold.Ticks()).acts);
            match hold.Acting()
            case None => now == was
            case Some(t) =>
              now == if !was.ap && t.apComesUp then Radio(false, true, true) else Radio(true, false, false)
  {
    OneHoldOneToggle(b, hold);
    LoopKeeps(b, hold.Ticks());
  }

  // ---------------------------------------------------------------------------
  // The loop's own code
  // ---------------------------------------------------------------------------

  class Sketch {
    var pressedAt: nat
    var fired: bool
    var webRunning: bool
    var otaRunning: bool
    ghost var acts: seq<Action>

    ghost function View(): Board
      reads this
    {
      Board(pressedAt, fired, webRunning, otaRunning, acts)
    }

    constructor ()
      ensures View() == Boot()
    {
      pressedAt, fired, webRunning, otaRunning := 0, false, false, false;
      acts := [ScanOn];
    }

    method SetDiscoverable(enabled: bool)
      modifies this`acts
      ensures View() == Do(old(View()), if enabled then ScanOn else ScanOff)
    {
      acts := acts + [if enabled then ScanOn else ScanOff];
    }

    method BeginOta()
      modifies this`otaRunning, this`acts
      ensures View() == OtaBegin(old(View()))
    {
      if otaRunning { return; }
      acts := acts + [OtaUp];
      otaRunning := true;
    }

    method StopOta()
      modifies this`otaRunning, this`acts
      ensures View() == OtaStop(old(View()))
    {
      if !otaRunning { return; }
      acts := acts + [OtaDown];
      otaRunning := false;
    }

    method StartWeb(apComesUp: bool)
      modifies this`webRunning, this`acts
      ensures View() == WebStart(old(View()), apComesUp)
    {
      if webRunning { return; }
      if !apComesUp { return; }
      acts := acts + [ApUp];
      webRunning := true;
    }

    method StopWeb()
      modifies this`webRunning, this`acts
      ensures View() == WebStop(old(View()))
    {
      if !webRunning { return; }
      acts := acts + [ApDown];
      webRunning := false;
    }

    method CheckAdminButton(t: Tick)
      modifies this
      ensures View() == Pass(old(View()), t)
    {
      if t.low {
        if pressedAt == 0 {
          pressedAt := t.now;
        } else if !fired && Since(t.now, pressedAt) >= HOLD_MS {
          if webRunning {
            StopOta();
            StopWeb();
            SetDiscoverable(true);
          } else {
            SetDiscoverable(false);
            StartWeb(t.apComesUp);
            if webRunning {
              BeginOta();
            } else {
              SetDiscoverable(true);
            }
          }
          fired := true;
        }
      } else {
        pressedAt := 0;
        fired := false;
      }
    }
  }
}
