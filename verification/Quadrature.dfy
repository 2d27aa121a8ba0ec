/** A mouse's movement turned into the two signals of a quadrature encoder.

    An update says how far the mouse moved; each timer tick then steps the encoder one phase, until the
    distance is used up or the next update replaces what is left of it. */
module Quadrature {

  datatype Direction = Neg | Pos

  datatype Lines = Lines(a: bool, b: bool)

  // The levels of a phase: a Gray code.
  function LinesOf(phase: int): Lines {
    match phase
    case 0 => Lines(false, false)
    case 1 => Lines(true, false)
    case 2 => Lines(true, true)
    case 3 => Lines(false, true)
    case _ => Lines(false, false)
  }

  // `seen` is history: the lines at the start and after each tick that wrote them.
  datatype Encoder = Encoder(dir: Direction, value: int, phase: int, seen: seq<Lines>)

  function Rest(): Encoder { Encoder(Neg, 0, 0, [LinesOf(0)]) }

  function NextPhase(phase: int, dir: Direction): int {
    match dir
    case Neg => if phase - 1 < 0 then 3 else phase - 1
    case Pos => if phase + 1 > 3 then 0 else phase + 1
  }

  function Tick(q: Encoder): Encoder {
    if q.value <= 0 then q
    else
      var phase := NextPhase(q.phase, q.dir);
      q.(value := q.value - 1, phase := phase, seen := q.seen + [LinesOf(phase)])
  }

  function Abs(delta: int): nat { if delta < 0 then -delta else delta }

  // The phase stays: the next step starts where the last one ended.
  function Update(q: Encoder, delta: int): Encoder {
    if delta == 0 then q else q.(value := Abs(delta), dir := if delta < 0 then Neg else Pos)
  }

  datatype Event = Timer | Mouse(delta: int)

  function Handle(q: Encoder, e: Event): Encoder {
    match e
    case Timer => Tick(q)
    case Mouse(delta) => Update(q, delta)
  }

  function Run(q: Encoder, es: seq<Event>): Encoder
    decreases |es|
  {
    if es == [] then q else Run(Handle(q, es[0]), es[1..])
  }

  // ---------------------------------------------------------------------------
  // What a receiver makes of the lines
  // ---------------------------------------------------------------------------

  predicate OneLineChanged(x: Lines, y: Lines) { (x.a != y.a) != (x.b != y.b) }

  // A 4x decoder: any change is a step, and it is forward if the old A equals the new B.
  function Decoded(x: Lines, y: Lines): int { if x == y then 0 else if x.a == y.b then 1 else -1 }

  function Count(seen: seq<Lines>): int {
    if |seen| < 2 then 0
    else Count(seen[..|seen| - 1]) + Decoded(seen[|seen| - 2], seen[|seen| - 1])
  }

  // ---------------------------------------------------------------------------
  // What the mouse asked for
  // ---------------------------------------------------------------------------

  // Ticks before the next update that moves.
  function TicksBefore(es: seq<Event>): nat
    decreases |es|
  {
    if es == [] then 0
    else
      match es[0]
      case Timer => 1 + TicksBefore(es[1..])
      case Mouse(delta) => if delta == 0 then TicksBefore(es[1..]) else 0
  }

  function Min(a: int, b: int): int { if a < b then a else b }

  function Signed(n: int, dir: Direction): int { if dir == Pos then n else -n }

  // The steps one update yields: its distance, or as much of it as there are ticks before the next.
  function Yields(delta: int, rest: seq<Event>): int {
    Signed(Min(Abs(delta), TicksBefore(rest)), if delta < 0 then Neg else Pos)
  }

  function Asked(es: seq<Event>): int
    decreases |es|
  {
    if es == [] then 0
    else (match es[0] case Timer => 0 case Mouse(delta) => Yields(delta, es[1..])) + Asked(es[1..])
  }

  // ---------------------------------------------------------------------------
  // The two agree
  // ---------------------------------------------------------------------------

  predicate Valid(q: Encoder) {
    && 0 <= q.phase <= 3 && q.value >= 0
    && q.seen != [] && q.seen[|q.seen| - 1] == LinesOf(q.phase)
    && forall k :: 0 < k < |q.seen| ==> OneLineChanged(q.seen[k - 1], q.seen[k])
  }

  // A step changes exactly one line, and decodes as one step in its direction.
  lemma StepDecodes(phase: int, dir: Direction)
    requires 0 <= phase <= 3
    ensures OneLineChanged(LinesOf(phase), LinesOf(NextPhase(phase, dir)))
    ensures Decoded(LinesOf(phase), LinesOf(NextPhase(phase, dir))) == Signed(1, dir)
    ensures 0 <= NextPhase(phase, dir) <= 3
  {
  }

  lemma HandleKeeps(q: Encoder, e: Event)
    requires Valid(q)
    ensures Valid(Handle(q, e))
    ensures Count(Handle(q, e).seen) == Count(q.seen) + if e.Timer? && q.value > 0 then Signed(1, q.dir) else 0
  {
    if e.Timer? && q.value > 0 {
      StepDecodes(q.phase, q.dir);
      assert Tick(q).seen[..|q.seen|] == q.seen;
    }
  }

  // From any state: what was left of the last update, then each update in turn.
  lemma {:induction false} RunCounts(q: Encoder, es: seq<Event>)
    requires Valid(q)
    ensures Valid(Run(q, es))
    ensures Count(Run(q, es).seen) == Count(q.seen) + Signed(Min(q.value, TicksBefore(es)), q.dir) + Asked(es)
    decreases |es|
  {
    if es != [] {
      HandleKeeps(q, es[0]);
      RunCounts(Handle(q, es[0]), es[1..]);
    }
  }

  // For any interleaving of updates and ticks: successive outputs differ in exactly one line, and the decoder
  // recovers exactly the steps asked for.
  lemma DecoderRecoversMovement(es: seq<Event>)
    ensures var seen := Run(Rest(), es).seen;
            && (forall k :: 0 < k < |seen| ==> OneLineChanged(seen[k - 1], seen[k]))
            && Count(seen) == Asked(es)
  {
    RunCounts(Rest(), es);
  }

  // With time enough for every update, the decoder recovers the mouse's whole path.
  predicate TimeEnough(es: seq<Event>)
    decreases |es|
  {
    es == [] || (TimeEnough(es[1..]) && (es[0].Mouse? ==> Abs(es[0].delta) <= TicksBefore(es[1..])))
  }

  function Path(es: seq<Event>): int
    decreases |es|
  {
    if es == [] then 0 else (if es[0].Mouse? then es[0].delta else 0) + Path(es[1..])
  }

  lemma {:induction false} AskedIsPath(es: seq<Event>)
    requires TimeEnough(es)
    ensures Asked(es) == Path(es)
    decreases |es|
  {
    if es != [] { AskedIsPath(es[1..]); }
  }

  lemma WholePathRecovered(es: seq<Event>)
    requires TimeEnough(es)
    ensures Count(Run(Rest(), es).seen) == Path(es)
  {
    DecoderRecoversMovement(es);
    AskedIsPath(es);
  }

  // ---------------------------------------------------------------------------
  // The code
  // ---------------------------------------------------------------------------

  class QuadratureState {
    var dir: Direction
    var value: int
    var phase: int
    var gpioA: bool
    var gpioB: bool
    ghost var seen: seq<Lines>

    ghost function View(): Encoder
      reads this
    {
      Encoder(dir, value, phase, seen)
    }

    // What a receiver sees now.
    ghost predicate Shown()
      reads this
    {
      seen != [] && seen[|seen| - 1] == Lines(gpioA, gpioB)
    }

    constructor ()
      ensures View() == Rest() && Shown()
    {
      dir, value, phase, gpioA, gpioB := Neg, 0, 0, false, false;
      seen := [Lines(false, false)];
    }

    method ProcessQuadrature()
      requires Shown()
      modifies this
      ensures View() == Tick(old(View())) && Shown()
    {
      if value <= 0 { return; }
      value := value - 1;
      if dir == Neg {
        phase := phase - 1;
        if phase < 0 { phase := 3; }
      } else {
        phase := phase + 1;
        if phase > 3 { phase := 0; }
      }
      var a, b;
      match phase {
        case 0 => a, b := false, false;
        case 1 => a, b := true, false;
        case 2 => a, b := true, true;
        case 3 => a, b := false, true;
        case _ => a, b := false, false;
      }
      gpioA := a;
      gpioB := b;
      seen := seen + [Lines(gpioA, gpioB)];
    }

    method ProcessUpdate(delta: int)
      requires Shown()
      modifies this`value, this`dir
      ensures View() == Update(old(View()), delta) && Shown()
    {
      var absDelta := if delta < 0 then -delta else delta;
      if delta != 0 {
        value := absDelta;
        dir := if delta < 0 then Neg else Pos;
      }
    }
  }
}
