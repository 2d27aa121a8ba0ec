/** The eyes: easing towards a target, idle saccades, blinking and speech lighting, over a millisecond
    clock that wraps at 2^32.

    Angles are reals, random draws are inputs from the range the code draws from, and every update sees
    one reading of the clock. */
module EyeMotion {
  import opened Prelude

  const WRAP := 0x1_0000_0000
  const HALF := 0x8000_0000

  const GAMEPAD_EASE := 0.35
  const IDLE_EASE := 0.22
  const CENTER := 90.0
  const IDLE_MIN_ANGLE := 40.0
  const IDLE_MAX_ANGLE := 140.0
  const IDLE_MAX_HOP := 55.0
  const IDLE_CENTER_PULL := 0.18

  const HOLD_MIN_MS := 1400
  const HOLD_MAX_MS := 5600
  const STARE_MIN_MS := 6000
  const STARE_MAX_MS := 14000
  const BLINK_CLOSED_MS := 120
  const BLINK_OPEN_MS := 90
  const BLINK_GAP_MIN_MS := 4500
  const BLINK_GAP_MAX_MS := 13000
  const EYE_REST_LEVEL := 236
  const SPEECH_ACTIVE_LEVEL := 255
  const SPEECH_DIP_LEVEL := 70
  const SPEECH_DIP_WINDOW_MS := 450
  const STICK_ACTIVE_THRESHOLD := 80
  const IDLE_RESUME_MS := 5000

  // ---------------------------------------------------------------------------
  // Clocks
  // ---------------------------------------------------------------------------

  // The machine's clock, and the ideal one it stands for.
  datatype Clock = Wrapping | Unbounded

  function Later(c: Clock, t: int, ms: int): int {
    if c == Wrapping then (t + ms) % WRAP else t + ms
  }

  function Since(c: Clock, now: int, start: int): int {
    if c == Wrapping then (now - start) % WRAP else now - start
  }

  // The signed 32-bit difference is not negative.
  predicate DeadlinePassed(c: Clock, now: int, deadline: int) {
    if c == Wrapping then (now - deadline) % WRAP < HALF else now >= deadline
  }

  function Wrap(t: int): int { t % WRAP }

  lemma LaterWraps(t: int, ms: int)
    ensures Later(Wrapping, Wrap(t), ms) == Wrap(Later(Unbounded, t, ms))
  {}

  lemma SinceWraps(now: int, start: int)
    ensures Since(Wrapping, Wrap(now), Wrap(start)) == (now - start) % WRAP
  {}

  // A deadline is read right while it is less than 2^31 ms away on either side.
  lemma DeadlineWraps(now: int, deadline: int)
    requires -HALF <= now - deadline < HALF
    ensures DeadlinePassed(Wrapping, Wrap(now), Wrap(deadline)) <==> DeadlinePassed(Unbounded, now, deadline)
  {
    SinceWraps(now, deadline);
  }

  // One that has passed less than a full turn of the clock ago is read right exactly when it is less than
  // half a turn old.
  lemma OldDeadline(now: int, deadline: int)
    requires 0 <= now - deadline < WRAP
    ensures DeadlinePassed(Wrapping, Wrap(now), Wrap(deadline)) <==> now - deadline < HALF
  {
    SinceWraps(now, deadline);
  }

  // ---------------------------------------------------------------------------
  // State and inputs
  // ---------------------------------------------------------------------------

  datatype Eye = Eye(
    pan: real, tilt: real, targetPan: real, targetTilt: real,
    nextSaccade: int, nextBlink: int, blinkStart: int, idleResumeAt: int,
    blinking: bool, idleEnabled: bool,
    level: int,                       // the last blink level handed to the LEDs
    hasPlayed: bool, lastPlay: int)   // kept by the audio player

  datatype Gamepad = Gamepad(connected: bool, axisRX: int, axisRY: int)

  // What random() answers during one call.
  datatype Draw = Draw(saccadeGap: int, blinkGap: int, hopPan: real, hopTilt: real)

  predicate InRange(d: Draw) {
    && (HOLD_MIN_MS <= d.saccadeGap < HOLD_MAX_MS || STARE_MIN_MS <= d.saccadeGap < STARE_MAX_MS)
    && BLINK_GAP_MIN_MS <= d.blinkGap < BLINK_GAP_MAX_MS
    && -IDLE_MAX_HOP <= d.hopPan <= IDLE_MAX_HOP
    && -IDLE_MAX_HOP <= d.hopTilt <= IDLE_MAX_HOP
  }

  datatype Input =
    | Update(pad: Gamepad, playing: bool)  // playing: what the BUSY line says
    | SetIdleEnabled(enabled: bool)
    | Play                                 // the audio player sends a play command

  function ScheduleSaccade(c: Clock, e: Eye, now: int, d: Draw): Eye {
    e.(nextSaccade := Later(c, now, d.saccadeGap))
  }

  function ScheduleBlink(c: Clock, e: Eye, now: int, d: Draw): Eye {
    e.(nextBlink := Later(c, now, d.blinkGap))
  }

  function Clamp(v: real, lo: real, hi: real): real {
    if v < lo then lo else if v > hi then hi else v
  }

  function IdleTarget(target: real, hop: real): real {
    var moved := target + hop;
    Clamp(moved + (CENTER - moved) * IDLE_CENTER_PULL, IDLE_MIN_ANGLE, IDLE_MAX_ANGLE)
  }

  function DoPickIdleTarget(c: Clock, e: Eye, now: int, d: Draw): Eye {
    ScheduleSaccade(c, e.(targetPan := IdleTarget(e.targetPan, d.hopPan),
                          targetTilt := IdleTarget(e.targetTilt, d.hopTilt)), now, d)
  }

  // Speech owns the eyes while a clip sounds, and for a short dip after each play command.
  predicate SpeechOwns(c: Clock, e: Eye, now: int, playing: bool) {
    playing || (e.hasPlayed && Since(c, now, e.lastPlay) < SPEECH_DIP_WINDOW_MS)
  }

  function DoUpdateEyeLevel(c: Clock, e: Eye, now: int, playing: bool, d: Draw): Eye {
    if SpeechOwns(c, e, now, playing) then
      var level := if playing then SPEECH_ACTIVE_LEVEL else SPEECH_DIP_LEVEL;
      ScheduleBlink(c, e.(blinking := false, level := level), now, d)
    else if e.blinking then
      var elapsed := Since(c, now, e.blinkStart);
      if elapsed < BLINK_CLOSED_MS then e.(level := 0)
      else if elapsed < BLINK_CLOSED_MS + BLINK_OPEN_MS then
        e.(level := 255 * (elapsed - BLINK_CLOSED_MS) / BLINK_OPEN_MS)
      else ScheduleBlink(c, e.(level := EYE_REST_LEVEL, blinking := false), now, d)
    else if DeadlinePassed(c, now, e.nextBlink) then e.(blinking := true, blinkStart := now)
    else e.(level := EYE_REST_LEVEL)
  }

  function DoSuspendIdle(c: Clock, e: Eye, now: int, d: Draw): Eye {
    var lit := if e.blinking then e.(blinking := false, level := EYE_REST_LEVEL) else e;
    ScheduleBlink(c, ScheduleSaccade(c, lit, now, d), now, d)
  }

  predicate StickActive(pad: Gamepad) {
    && pad.connected
    && (pad.axisRX > STICK_ACTIVE_THRESHOLD || pad.axisRX < -STICK_ACTIVE_THRESHOLD
        || pad.axisRY > STICK_ACTIVE_THRESHOLD || pad.axisRY < -STICK_ACTIVE_THRESHOLD)
  }

  // C division rounds towards zero; d > 0.
  function TruncDiv(n: int, d: int): int
    requires d > 0
  {
    if n >= 0 then n / d else -((-n) / d)
  }

  // Arduino's map() from -511..512.
  function MapAxis(x: int, outMin: int, outMax: int): int {
    TruncDiv((x + 511) * (outMax - outMin), 1023) + outMin
  }

  function Eased(at: real, target: real, ease: real): real { at + (target - at) * ease }

  predicate Idle(c: Clock, e: Eye, now: int, pad: Gamepad) {
    !pad.connected || DeadlinePassed(c, now, e.idleResumeAt)
  }

  // The reaction to the stick, before anything is moved.
  function Noticed(c: Clock, e: Eye, now: int, pad: Gamepad, d: Draw): Eye {
    if StickActive(pad) then DoSuspendIdle(c, e.(idleResumeAt := Later(c, now, IDLE_RESUME_MS)), now, d) else e
  }

  function Saccaded(c: Clock, e: Eye, now: int, d: Draw): Eye {
    if DeadlinePassed(c, now, e.nextSaccade) then DoPickIdleTarget(c, e, now, d) else e
  }

  // New targets and, on idle, the eye level.
  function Aimed(c: Clock, e: Eye, now: int, pad: Gamepad, playing: bool, d: Draw): Eye {
    if Idle(c, e, now, pad) then
      if e.idleEnabled then DoUpdateEyeLevel(c, Saccaded(c, e, now, d), now, playing, d) else e
    else StickAimed(e, pad)
  }

  // The stick's position, up inverted.
  function StickAimed(e: Eye, pad: Gamepad): Eye {
    e.(targetPan := MapAxis(pad.axisRX, 0, 180) as real, targetTilt := MapAxis(pad.axisRY, 180, 0) as real)
  }

  function Moved(e: Eye, ease: real): Eye {
    e.(pan := Eased(e.pan, e.targetPan, ease), tilt := Eased(e.tilt, e.targetTilt, ease))
  }

  function DoUpdate(c: Clock, e: Eye, now: int, pad: Gamepad, playing: bool, d: Draw): Eye {
    var noticed := Noticed(c, e, now, pad, d);
    Moved(Aimed(c, noticed, now, pad, playing, d), if Idle(c, noticed, now, pad) then IDLE_EASE else GAMEPAD_EASE)
  }

  function DoSetIdleEnabled(c: Clock, e: Eye, now: int, enabled: bool, d: Draw): Eye {
    if enabled == e.idleEnabled then e
    else if enabled then ScheduleBlink(c, ScheduleSaccade(c, e.(idleEnabled := true), now, d), now, d)
    else e.(idleEnabled := false, blinking := false, level := EYE_REST_LEVEL)
  }

  function Step(c: Clock, e: Eye, now: int, i: Input, d: Draw): Eye {
    match i
    case Update(pad, playing) => DoUpdate(c, e, now, pad, playing, d)
    case SetIdleEnabled(enabled) => DoSetIdleEnabled(c, e, now, enabled, d)
    case Play => e.(hasPlayed := true, lastPlay := now)
  }

  // The state after begin(), with the LEDs at their default.
  function Begun(c: Clock, now: int, d: Draw): Eye {
    Eye(CENTER, CENTER, CENTER, CENTER, Later(c, now, d.saccadeGap), Later(c, now, d.blinkGap), 0, now,
        false, true, 255, false, 0)
  }

  // One call: when, what, and the draws it makes.
  datatype Tick = Tick(now: int, input: Input, draw: Draw)

  function Run(c: Clock, e: Eye, ticks: seq<Tick>): Eye
    decreases |ticks|
  {
    if ticks == [] then e else Run(c, Step(c, e, ticks[0].now, ticks[0].input, ticks[0].draw), ticks[1..])
  }

  // ---------------------------------------------------------------------------
  // The wrapping machine simulates the ideal one
  // ---------------------------------------------------------------------------

  function WrapEye(e: Eye): Eye {
    e.(nextSaccade := Wrap(e.nextSaccade), nextBlink := Wrap(e.nextBlink), blinkStart := Wrap(e.blinkStart),
       idleResumeAt := Wrap(e.idleResumeAt), lastPlay := Wrap(e.lastPlay))
  }

  function WrapTicks(ticks: seq<Tick>): (w: seq<Tick>)
    ensures |w| == |ticks|
  {
    seq(|ticks|, i requires 0 <= i < |ticks| => ticks[i].(now := Wrap(ticks[i].now)))
  }

  predicate Near(now: int, deadline: int) { -HALF <= now - deadline < HALF }
  predicate Recent(now: int, start: int) { 0 <= now - start < WRAP }

  // Every time the step reads is close enough: each deadline within 2^31 ms, the running blink and the last
  // play command less than 2^32 ms old.
  predicate Timely(e: Eye, now: int, i: Input) {
    i.Update? ==>
      var pad := i.pad;
      var resume := if StickActive(pad) then now + IDLE_RESUME_MS else e.idleResumeAt;
      var idle := !pad.connected || now >= resume;
      && (pad.connected ==> Near(now, resume))
      && (idle && e.idleEnabled ==>
            && Near(now, e.nextSaccade)
            && (e.hasPlayed && !i.playing ==> Recent(now, e.lastPlay))
            && (!SpeechOwns(Unbounded, e, now, i.playing) ==> BlinkTimely(e, now)))
  }

  // What an update reads of the blink when speech does not own the eyes.
  predicate BlinkTimely(e: Eye, now: int) {
    if e.blinking then Recent(now, e.blinkStart) else Near(now, e.nextBlink)
  }

  lemma RecentWraps(now: int, start: int)
    requires Recent(now, start)
    ensures Since(Wrapping, Wrap(now), Wrap(start)) == Since(Unbounded, now, start)
  {
    SinceWraps(now, start);
  }

  lemma SpeechWraps(e: Eye, now: int, playing: bool)
    requires e.hasPlayed && !playing ==> Recent(now, e.lastPlay)
    ensures SpeechOwns(Wrapping, WrapEye(e), Wrap(now), playing) <==> SpeechOwns(Unbounded, e, now, playing)
  {
    if e.hasPlayed && !playing { RecentWraps(now, e.lastPlay); }
  }

  lemma LevelWraps(e: Eye, now: int, playing: bool, d: Draw)
    requires e.hasPlayed && !playing ==> Recent(now, e.lastPlay)
    requires !SpeechOwns(Unbounded, e, now, playing) ==> BlinkTimely(e, now)
    ensures DoUpdateEyeLevel(Wrapping, WrapEye(e), Wrap(now), playing, d)
         == WrapEye(DoUpdateEyeLevel(Unbounded, e, now, playing, d))
  {
    SpeechWraps(e, now, playing);
    LaterWraps(now, d.blinkGap);
    if !SpeechOwns(Unbounded, e, now, playing) {
      if e.blinking { RecentWraps(now, e.blinkStart); } else { DeadlineWraps(now, e.nextBlink); }
    }
  }

  lemma NoticedWraps(e: Eye, now: int, pad: Gamepad, d: Draw)
    ensures Noticed(Wrapping, WrapEye(e), Wrap(now), pad, d) == WrapEye(Noticed(Unbounded, e, now, pad, d))
  {
    LaterWraps(now, IDLE_RESUME_MS);
    LaterWraps(now, d.saccadeGap);
    LaterWraps(now, d.blinkGap);
  }

  lemma AimedWraps(e: Eye, now: int, pad: Gamepad, playing: bool, d: Draw)
    requires pad.connected ==> Near(now, e.idleResumeAt)
    requires Idle(Unbounded, e, now, pad) && e.idleEnabled ==>
      && Near(now, e.nextSaccade)
      && (e.hasPlayed && !playing ==> Recent(now, e.lastPlay))
      && (!SpeechOwns(Unbounded, e, now, playing) ==> BlinkTimely(e, now))
    ensures Idle(Wrapping, WrapEye(e), Wrap(now), pad) <==> Idle(Unbounded, e, now, pad)
    ensures Aimed(Wrapping, WrapEye(e), Wrap(now), pad, playing, d)
        == WrapEye(Aimed(Unbounded, e, now, pad, playing, d))
  {
    if pad.connected { DeadlineWraps(now, e.idleResumeAt); }
    if Idle(Unbounded, e, now, pad) && e.idleEnabled {
      DeadlineWraps(now, e.nextSaccade);
      LaterWraps(now, d.saccadeGap);
      LevelWraps(Saccaded(Unbounded, e, now, d), now, playing, d);
    }
  }

  lemma StepWraps(e: Eye, now: int, i: Input, d: Draw)
    requires Timely(e, now, i)
    ensures Step(Wrapping, WrapEye(e), Wrap(now), i, d) == WrapEye(Step(Unbounded, e, now, i, d))
  {
    match i
    case Update(pad, playing) =>
      NoticedWraps(e, now, pad, d);
      AimedWraps(Noticed(Unbounded, e, now, pad, d), now, pad, playing, d);
    case SetIdleEnabled(enabled) =>
      LaterWraps(now, d.saccadeGap);
      LaterWraps(now, d.blinkGap);
    case Play =>
  }

  ghost predicate AllTimely(e: Eye, ticks: seq<Tick>)
    decreases |ticks|
  {
    ticks == [] ||
    (Timely(e, ticks[0].now, ticks[0].input) &&
     AllTimely(Step(Unbounded, e, ticks[0].now, ticks[0].input, ticks[0].draw), ticks[1..]))
  }

  // Step for step, over any run.
  lemma {:induction false} RunWraps(e: Eye, ticks: seq<Tick>)
    requires AllTimely(e, ticks)
    ensures Run(Wrapping, WrapEye(e), WrapTicks(ticks)) == WrapEye(Run(Unbounded, e, ticks))
    decreases |ticks|
  {
    if ticks != [] {
      var t := ticks[0];
      StepWraps(e, t.now, t.input, t.draw);
      assert WrapTicks(ticks)[1..] == WrapTicks(ticks[1..]);
      RunWraps(Step(Unbounded, e, t.now, t.input, t.draw), ticks[1..]);
    }
  }

  // ---------------------------------------------------------------------------
  // Blinks
  // ---------------------------------------------------------------------------

  // The eyes are dark only inside a blink, and idle parked means no blink.
  ghost predicate Lit(e: Eye) {
    && (!e.blinking ==> e.level != 0)
    && (!e.idleEnabled ==> !e.blinking)
    && 0 <= e.level <= 255
  }

  lemma StepKeepsLit(c: Clock, e: Eye, now: int, i: Input, d: Draw)
    requires Lit(e)
    ensures Lit(Step(c, e, now, i, d))
  {
    match i
    case Update(pad, playing) =>
      var noticed := Noticed(c, e, now, pad, d);
      assert Lit(noticed);
      if Idle(c, noticed, now, pad) && noticed.idleEnabled {
        LevelKeepsLit(c, Saccaded(c, noticed, now, d), now, playing, d);
      }
    case SetIdleEnabled(enabled) =>
    case Play =>
  }

  lemma LevelKeepsLit(c: Clock, e: Eye, now: int, playing: bool, d: Draw)
    requires Lit(e) && e.idleEnabled
    ensures Lit(DoUpdateEyeLevel(c, e, now, playing, d))
  {
  }

  // No blink is running, and none can start before t + 4500.
  ghost predicate Quiet(e: Eye, t: int) {
    !e.blinking && (e.idleEnabled ==> e.nextBlink >= t + BLINK_GAP_MIN_MS)
  }

  // On the ideal clock, this update leaves the eyes to speech.
  predicate SpeechUpdate(e: Eye, t: Tick) {
    t.input.Update? &&
    var noticed := Noticed(Unbounded, e, t.now, t.input.pad, t.draw);
    Idle(Unbounded, noticed, t.now, t.input.pad) && noticed.idleEnabled
    && SpeechOwns(Unbounded, noticed, t.now, t.input.playing)
  }

  function After(e: Eye, t: Tick): Eye { Step(Unbounded, e, t.now, t.input, t.draw) }

  predicate EndsBlink(e: Eye, t: Tick) { e.blinking && !After(e, t).blinking }
  predicate StartsBlink(e: Eye, t: Tick) { !e.blinking && After(e, t).blinking }

  lemma ReleaseIsQuiet(e: Eye, t: Tick)
    requires Lit(e) && InRange(t.draw)
    requires EndsBlink(e, t) || SpeechUpdate(e, t)
    ensures Quiet(After(e, t), t.now)
  {
  }

  lemma QuietKept(e: Eye, since: int, t: Tick)
    requires Quiet(e, since) && since <= t.now < since + BLINK_GAP_MIN_MS && InRange(t.draw)
    ensures Quiet(After(e, t), since)
  {
  }

  ghost predicate InOrder(from: int, ticks: seq<Tick>, to: int) {
    && (forall t <- ticks :: from <= t.now <= to && InRange(t.draw))
    && forall i, j :: 0 <= i < j < |ticks| ==> ticks[i].now <= ticks[j].now
  }

  lemma {:induction false} QuietRun(e: Eye, since: int, ticks: seq<Tick>, to: int)
    requires Quiet(e, since) && InOrder(since, ticks, to) && to < since + BLINK_GAP_MIN_MS
    ensures Quiet(Run(Unbounded, e, ticks), since)
    decreases |ticks|
  {
    if ticks != [] {
      assert ticks[0] in ticks;
      QuietKept(e, since, ticks[0]);
      assert forall t <- ticks[1..] :: t in ticks;
      QuietRun(After(e, ticks[0]), since, ticks[1..], to);
    }
  }

  // Whatever happens in between, a blink starts no sooner than 4500 ms after the last one ended, and no
  // sooner than 4500 ms after speech last owned the eyes.
  lemma BlinkSpacing(e: Eye, release: Tick, between: seq<Tick>, start: Tick)
    requires Lit(e) && InRange(release.draw) && InRange(start.draw)
    requires EndsBlink(e, release) || SpeechUpdate(e, release)
    requires release.now <= start.now && InOrder(release.now, between, start.now)
    requires StartsBlink(Run(Unbounded, After(e, release), between), start)
    ensures start.now - release.now >= BLINK_GAP_MIN_MS
  {
    if start.now < release.now + BLINK_GAP_MIN_MS {
      ReleaseIsQuiet(e, release);
      QuietRun(After(e, release), release.now, between, start.now);
      QuietKept(Run(Unbounded, After(e, release), between), release.now, start);
    }
  }

  // An update that drives the eye level, on the ideal clock.
  predicate LevelUpdate(e: Eye, t: Tick) {
    t.input.Update? &&
    var noticed := Noticed(Unbounded, e, t.now, t.input.pad, t.draw);
    Idle(Unbounded, noticed, t.now, t.input.pad) && noticed.idleEnabled
  }

  // Right after such an update the eyes are dark only in the first 120 ms of a blink, and the first one
  // that speech does not own, 210 ms or more into a blink, ends it at the rest level.
  lemma BlinkIsShort(e: Eye, t: Tick)
    requires Lit(e) && LevelUpdate(e, t)
    ensures var f := After(e, t);
            && (f.level == 0 ==> f.blinking && t.now - f.blinkStart <= BLINK_CLOSED_MS)
            && (e.blinking && !SpeechUpdate(e, t) && t.now - e.blinkStart >= BLINK_CLOSED_MS + BLINK_OPEN_MS
                ==> f.level == EYE_REST_LEVEL && !f.blinking)
  {
  }

  predicate LeftAlone(e: Eye, t: Tick)
    requires t.input.Update?
  {
    e.blinking && t.input.pad.connected && !StickActive(t.input.pad) && t.now < e.idleResumeAt
  }

  // Across other updates that bound fails. After an update the eyes are dark for longer than a blink closes
  // them if and only if they were already, and a controller is connected, with its stick at rest, before idle
  // resumes: such an update leaves the eyes alone.
  lemma DarkPastTheBlink(e: Eye, t: Tick)
    requires Lit(e) && t.input.Update?
    ensures var f := After(e, t);
            && (LeftAlone(e, t) && e.level == 0 ==> f.level == 0 && f.blinking && f.blinkStart == e.blinkStart)
            && ((f.level == 0 && t.now - f.blinkStart > BLINK_CLOSED_MS)
                <==> (LeftAlone(e, t) && e.level == 0 && t.now - e.blinkStart > BLINK_CLOSED_MS))
  {
    var noticed := Noticed(Unbounded, e, t.now, t.input.pad, t.draw);
    if Idle(Unbounded, noticed, t.now, t.input.pad) && noticed.idleEnabled {
      var aimed := Saccaded(Unbounded, noticed, t.now, t.draw);
      assert After(e, t).level == DoUpdateEyeLevel(Unbounded, aimed, t.now, t.input.playing, t.draw).level;
    }
  }

  // A run that does it: the stick moves at 0, the controller goes away and comes back, its stick at rest,
  // 499 ms into a blink.
  const FIRST_DRAW := Draw(HOLD_MIN_MS, BLINK_GAP_MIN_MS, 0.0, 0.0)
  const AWAY := Gamepad(false, 0, 0)
  const RESTING := Gamepad(true, 0, 0)

  function DarkRun(): (ticks: seq<Tick>) {
    [Tick(0, Update(Gamepad(true, 100, 0), false), FIRST_DRAW), Tick(4500, Update(AWAY, false), FIRST_DRAW),
     Tick(4530, Update(AWAY, false), FIRST_DRAW), Tick(4999, Update(RESTING, false), FIRST_DRAW)]
  }

  lemma DarkFor499Ms()
    ensures Ordered(0, DarkRun())
    ensures var f := Run(Unbounded, Begun(Unbounded, 0, FIRST_DRAW), DarkRun());
            f.level == 0 && f.blinking && f.blinkStart == 4999 - 499
  {
    var d, ts := FIRST_DRAW, DarkRun();
    var e0 := Begun(Unbounded, 0, d);
    var e1 := After(e0, ts[0]);
    var e2 := After(e1, ts[1]);
    var e3 := After(e2, ts[2]);
    var e4 := After(e3, ts[3]);
    assert e1.nextBlink == 4500 && e1.idleResumeAt == 5000 && !e1.blinking && e1.idleEnabled;
    assert e2.blinking && e2.blinkStart == 4500 && e2.idleResumeAt == 5000 && e2.idleEnabled;
    assert e3.level == 0 && e3.blinking && e3.blinkStart == 4500 && e3.idleResumeAt == 5000;
    assert e4.level == 0 && e4.blinking && e4.blinkStart == 4500;
    assert ts[1..][0] == ts[1] && ts[2..][0] == ts[2] && ts[3..][0] == ts[3];
    assert ts[1..][1..] == ts[2..] && ts[2..][1..] == ts[3..] && ts[3..][1..] == [];
    assert Run(Unbounded, e3, ts[3..]) == Run(Unbounded, e4, []) == e4;
    assert Run(Unbounded, e2, ts[2..]) == Run(Unbounded, e3, ts[3..]);
    assert Run(Unbounded, e1, ts[1..]) == Run(Unbounded, e2, ts[2..]);
    assert Run(Unbounded, e0, ts) == Run(Unbounded, e1, ts[1..]);
  }

  // Calls come in the order of their times, from some time on.
  predicate Ordered(from: int, ticks: seq<Tick>)
    decreases |ticks|
  {
    ticks == [] || (from <= ticks[0].now && InRange(ticks[0].draw) && Ordered(ticks[0].now, ticks[1..]))
  }

  // Idle resumes at most 5000 ms after the stick last moved, and the next blink was put off at least 4500 ms
  // then: a blink starts no more than 500 ms before idle resumes.
  ghost predicate BlinkNearResume(e: Eye, t: int) {
    && Lit(e)
    && e.idleResumeAt <= t + IDLE_RESUME_MS
    && e.nextBlink >= e.idleResumeAt - (IDLE_RESUME_MS - BLINK_GAP_MIN_MS)
    && (e.blinking ==> e.idleResumeAt <= e.blinkStart + (IDLE_RESUME_MS - BLINK_GAP_MIN_MS))
  }

  lemma NoticedNearResume(e: Eye, from: int, now: int, pad: Gamepad, d: Draw)
    requires BlinkNearResume(e, from) && from <= now && InRange(d)
    ensures BlinkNearResume(Noticed(Unbounded, e, now, pad, d), now)
  {
  }

  lemma LevelNearResume(e: Eye, now: int, playing: bool, d: Draw)
    requires BlinkNearResume(e, now) && e.idleEnabled && InRange(d)
    ensures BlinkNearResume(DoUpdateEyeLevel(Unbounded, e, now, playing, d), now)
  {
    LevelKeepsLit(Unbounded, e, now, playing, d);
  }

  lemma BlinkStaysNearResume(e: Eye, from: int, t: Tick)
    requires BlinkNearResume(e, from) && from <= t.now && InRange(t.draw)
    ensures BlinkNearResume(After(e, t), t.now)
  {
    match t.input
    case Update(pad, playing) =>
      var noticed := Noticed(Unbounded, e, t.now, pad, t.draw);
      NoticedNearResume(e, from, t.now, pad, t.draw);
      if Idle(Unbounded, noticed, t.now, pad) && noticed.idleEnabled {
        LevelNearResume(Saccaded(Unbounded, noticed, t.now, t.draw), t.now, playing, t.draw);
      }
    case SetIdleEnabled(enabled) =>
    case Play =>
  }

  lemma {:induction false} RunStaysNearResume(e: Eye, from: int, ticks: seq<Tick>, to: int)
    requires BlinkNearResume(e, from) && Ordered(from, ticks) && from <= to
    requires ticks != [] ==> ticks[|ticks| - 1].now <= to
    ensures BlinkNearResume(Run(Unbounded, e, ticks), to)
    decreases |ticks|
  {
    if ticks != [] {
      var f := After(e, ticks[0]);
      BlinkStaysNearResume(e, from, ticks[0]);
      OrderedBelow(from, ticks);
      RunStaysNearResume(f, ticks[0].now, ticks[1..], to);
    }
  }

  lemma {:induction false} OrderedBelow(from: int, ticks: seq<Tick>)
    requires Ordered(from, ticks) && ticks != []
    ensures from <= ticks[0].now <= ticks[|ticks| - 1].now
    decreases |ticks|
  {
    if |ticks| > 1 { OrderedBelow(ticks[0].now, ticks[1..]); }
  }

  // From power-on, over any run of calls in order: after every update, eyes that are dark belong to a blink
  // that began less than 500 ms before. DarkFor499Ms shows that no smaller bound holds.
  lemma NeverDarkFor500Ms(start: int, d: Draw, ticks: seq<Tick>, t: Tick)
    requires InRange(d) && Ordered(start, ticks) && InRange(t.draw) && t.input.Update? && start <= t.now
    requires ticks != [] ==> ticks[|ticks| - 1].now <= t.now
    ensures var f := After(Run(Unbounded, Begun(Unbounded, start, d), ticks), t);
            f.level == 0 ==> f.blinking && t.now - f.blinkStart < IDLE_RESUME_MS - BLINK_GAP_MIN_MS
  {
    var e := Run(Unbounded, Begun(Unbounded, start, d), ticks);
    RunStaysNearResume(Begun(Unbounded, start, d), start, ticks, t.now);
    StepKeepsLit(Unbounded, e, t.now, t.input, t.draw);
    DarkPastTheBlink(e, t);
  }

  // Over any run: no blink while idle is parked, and then never dark.
  lemma {:induction false} ParkedIsLit(e: Eye, ticks: seq<Tick>)
    requires Lit(e)
    ensures Lit(Run(Unbounded, e, ticks))
    ensures var f := Run(Unbounded, e, ticks); !f.idleEnabled ==> !f.blinking && f.level != 0
    decreases |ticks|
  {
    if ticks != [] {
      StepKeepsLit(Unbounded, e, ticks[0].now, ticks[0].input, ticks[0].draw);
      ParkedIsLit(After(e, ticks[0]), ticks[1..]);
    }
  }

  // ---------------------------------------------------------------------------
  // Motion
  // ---------------------------------------------------------------------------

  predicate Angle(a: real) { 0.0 <= a <= 180.0 }

  predicate InTravel(e: Eye) { Angle(e.pan) && Angle(e.tilt) && Angle(e.targetPan) && Angle(e.targetTilt) }

  predicate AxesInRange(i: Input) {
    i.Update? ==> -511 <= i.pad.axisRX <= 512 && -511 <= i.pad.axisRY <= 512
  }

  lemma MapAxisRange(x: int)
    requires -511 <= x <= 512
    ensures 0 <= MapAxis(x, 0, 180) <= 180
    ensures 0 <= MapAxis(x, 180, 0) <= 180
  {}

  // Easing closes a fixed part of the gap: it never overshoots.
  lemma EasedBetween(at: real, target: real, ease: real)
    requires ease == GAMEPAD_EASE || ease == IDLE_EASE
    ensures target - Eased(at, target, ease) == (target - at) * (1.0 - ease)
    ensures at <= target ==> at <= Eased(at, target, ease) <= target
    ensures at >= target ==> at >= Eased(at, target, ease) >= target
  {}

  lemma StepInTravel(c: Clock, e: Eye, now: int, i: Input, d: Draw)
    requires InTravel(e) && AxesInRange(i)
    ensures InTravel(Step(c, e, now, i, d))
  {
    if i.Update? {
      var noticed := Noticed(c, e, now, i.pad, d);
      AimedInTravel(c, noticed, now, i.pad, i.playing, d);
      var aimed := Aimed(c, noticed, now, i.pad, i.playing, d);
      var ease := if Idle(c, noticed, now, i.pad) then IDLE_EASE else GAMEPAD_EASE;
      MovedInTravel(aimed, ease);
    }
  }

  lemma IdleTargetRange(target: real, hop: real)
    ensures IDLE_MIN_ANGLE <= IdleTarget(target, hop) <= IDLE_MAX_ANGLE
  {}

  function Angles(e: Eye): (real, real, real, real) { (e.pan, e.tilt, e.targetPan, e.targetTilt) }

  lemma LevelKeepsAngles(c: Clock, e: Eye, now: int, playing: bool, d: Draw)
    ensures Angles(DoUpdateEyeLevel(c, e, now, playing, d)) == Angles(e)
  {}

  lemma SaccadedInTravel(c: Clock, e: Eye, now: int, d: Draw)
    requires InTravel(e)
    ensures InTravel(Saccaded(c, e, now, d))
  {
    IdleTargetRange(e.targetPan, d.hopPan);
    IdleTargetRange(e.targetTilt, d.hopTilt);
  }

  lemma StickInTravel(e: Eye, pad: Gamepad)
    requires InTravel(e) && -511 <= pad.axisRX <= 512 && -511 <= pad.axisRY <= 512
    ensures InTravel(StickAimed(e, pad))
  {
    MapAxisRange(pad.axisRX);
    MapAxisRange(pad.axisRY);
  }

  lemma AimedInTravel(c: Clock, e: Eye, now: int, pad: Gamepad, playing: bool, d: Draw)
    requires InTravel(e) && -511 <= pad.axisRX <= 512 && -511 <= pad.axisRY <= 512
    ensures InTravel(Aimed(c, e, now, pad, playing, d))
  {
    SaccadedInTravel(c, e, now, d);
    LevelKeepsAngles(c, Saccaded(c, e, now, d), now, playing, d);
    StickInTravel(e, pad);
  }

  lemma MovedInTravel(e: Eye, ease: real)
    requires InTravel(e) && (ease == GAMEPAD_EASE || ease == IDLE_EASE)
    ensures InTravel(Moved(e, ease))
  {
    EasedBetween(e.pan, e.targetPan, ease);
    EasedBetween(e.tilt, e.targetTilt, ease);
  }

  lemma {:induction false} RunInTravel(c: Clock, e: Eye, ticks: seq<Tick>)
    requires InTravel(e) && forall t <- ticks :: AxesInRange(t.input)
    ensures InTravel(Run(c, e, ticks))
    decreases |ticks|
  {
    if ticks != [] {
      var t := ticks[0];
      StepInTravel(c, e, t.now, t.input, t.draw);
      RunInTravel(c, Step(c, e, t.now, t.input, t.draw), ticks[1..]);
    }
  }

  // 180 * 0.78^n degrees.
  function Decayed(n: nat): real {
    if n == 0 then 180.0 else 0.78 * Decayed(n - 1)
  }

  function Gap(at: real, target: real): real { if at <= target then target - at else at - target }

  // Every tick is an update that leaves the targets where they are.
  ghost predicate Holds(c: Clock, e: Eye, ticks: seq<Tick>, pan: real, tilt: real)
    decreases |ticks|
  {
    ticks == [] ||
    var t := ticks[0];
    t.input.Update? &&
    var f := Step(c, e, t.now, t.input, t.draw);
    f.targetPan == pan && f.targetTilt == tilt && Holds(c, f, ticks[1..], pan, tilt)
  }

  lemma StepClosesGap(c: Clock, e: Eye, t: Tick, f: Eye)
    requires t.input.Update? && f == Step(c, e, t.now, t.input, t.draw)
    ensures Gap(f.pan, f.targetPan) <= 0.78 * Gap(e.pan, f.targetPan)
    ensures Gap(f.tilt, f.targetTilt) <= 0.78 * Gap(e.tilt, f.targetTilt)
  {
    var noticed := Noticed(c, e, t.now, t.input.pad, t.draw);
    LevelKeepsAngles(c, Saccaded(c, noticed, t.now, t.draw), t.now, t.input.playing, t.draw);
    var ease := if Idle(c, noticed, t.now, t.input.pad) then IDLE_EASE else GAMEPAD_EASE;
    EasedGap(e.pan, f.targetPan, ease);
    EasedGap(e.tilt, f.targetTilt, ease);
  }

  // bound * 0.78^n, multiplied out from the left.
  function Shrunk(bound: real, n: nat): real
    decreases n
  {
    if n == 0 then bound else Shrunk(0.78 * bound, n - 1)
  }

  lemma {:induction false} ShrunkOnce(bound: real, n: nat)
    ensures Shrunk(0.78 * bound, n) == 0.78 * Shrunk(bound, n)
    decreases n
  {
    if n > 0 { ShrunkOnce(0.78 * bound, n - 1); }
  }

  lemma {:induction false} ShrunkIsDecayed(n: nat)
    ensures Shrunk(180.0, n) == Decayed(n)
  {
    if n > 0 {
      ShrunkOnce(180.0, n - 1);
      ShrunkIsDecayed(n - 1);
    }
  }

  lemma EasedGap(at: real, target: real, ease: real)
    requires ease == GAMEPAD_EASE || ease == IDLE_EASE
    ensures Gap(Eased(at, target, ease), target) <= 0.78 * Gap(at, target)
  {}

  lemma {:induction false} GapCloses(c: Clock, e: Eye, ticks: seq<Tick>, pan: real, tilt: real, bound: real)
    requires Holds(c, e, ticks, pan, tilt) && Gap(e.pan, pan) <= bound && Gap(e.tilt, tilt) <= bound
    ensures Gap(Run(c, e, ticks).pan, pan) <= Shrunk(bound, |ticks|)
    ensures Gap(Run(c, e, ticks).tilt, tilt) <= Shrunk(bound, |ticks|)
    decreases |ticks|
  {
    if ticks != [] {
      var t := ticks[0];
      var f := Step(c, e, t.now, t.input, t.draw);
      StepClosesGap(c, e, t, f);
      GapCloses(c, f, ticks[1..], pan, tilt, 0.78 * bound);
    }
  }

  // A target held for k updates is at most 180 * 0.78^k degrees away.
  lemma HeldTargetReached(c: Clock, e: Eye, ticks: seq<Tick>, pan: real, tilt: real)
    requires InTravel(e) && Angle(pan) && Angle(tilt) && Holds(c, e, ticks, pan, tilt)
    ensures Gap(Run(c, e, ticks).pan, pan) <= Decayed(|ticks|)
    ensures Gap(Run(c, e, ticks).tilt, tilt) <= Decayed(|ticks|)
  {
    GapCloses(c, e, ticks, pan, tilt, 180.0);
    ShrunkIsDecayed(|ticks|);
  }

  function Scaled(span: real, part: real): real { span * part }

  function Portion(span: nat, part: real): int { Scaled(span as real, part).Floor }

  // The pulse width of a commanded angle, on one servo channel.
  function PulseUs(angle: real, minUs: nat, maxUs: nat): int
    requires minUs <= maxUs
  {
    minUs + Portion(maxUs - minUs, Clamp(angle, 0.0, 180.0) / 180.0)
  }

  // Any angle with any trim stays inside the channel's range, and its ends are the ends of travel.
  lemma PulseInRange(angle: real, trim: real, minUs: nat, maxUs: nat)
    requires minUs <= maxUs
    ensures minUs <= PulseUs(Clamp(angle + trim, 0.0, 180.0), minUs, maxUs) <= maxUs
    ensures PulseUs(0.0, minUs, maxUs) == minUs && PulseUs(180.0, minUs, maxUs) == maxUs
  {
    PulseBetween(Clamp(angle + trim, 0.0, 180.0), minUs, maxUs);
    PulseBetween(0.0, minUs, maxUs);
    PulseBetween(180.0, minUs, maxUs);
  }

  lemma PulseBetween(angle: real, minUs: nat, maxUs: nat)
    requires minUs <= maxUs
    ensures minUs <= PulseUs(angle, minUs, maxUs) <= maxUs
    ensures angle == 0.0 ==> PulseUs(angle, minUs, maxUs) == minUs
    ensures angle == 180.0 ==> PulseUs(angle, minUs, maxUs) == maxUs
  {
    PortionOf(maxUs - minUs, Clamp(angle, 0.0, 180.0) / 180.0);
  }

  lemma PortionOf(span: nat, part: real)
    requires 0.0 <= part <= 1.0
    ensures 0 <= Portion(span, part) <= span
    ensures part == 0.0 ==> Portion(span, part) == 0
    ensures part == 1.0 ==> Portion(span, part) == span
  {
    FractionOf(span as real, part);
    FloorBetween(Scaled(span as real, part), span);
  }

  lemma FloorBetween(x: real, n: nat)
    requires 0.0 <= x <= n as real
    ensures 0 <= x.Floor <= n
    ensures x == 0.0 ==> x.Floor == 0
    ensures x == n as real ==> x.Floor == n
  {}

  lemma FractionOf(span: real, part: real)
    requires span >= 0.0 && 0.0 <= part <= 1.0
    ensures 0.0 <= Scaled(span, part) <= span
    ensures part == 0.0 ==> Scaled(span, part) == 0.0
    ensures part == 1.0 ==> Scaled(span, part) == span
  {}

  // ---------------------------------------------------------------------------
  // The module's state
  // ---------------------------------------------------------------------------

  class Eyes {
    var pan: real
    var tilt: real
    var targetPan: real
    var targetTilt: real
    var nextSaccadeMs: u32
    var nextBlinkMs: u32
    var blinkStartMs: u32
    var idleResumeAtMs: u32
    var blinking: bool
    var idleEnabled: bool
    var level: int
    var hasPlayed: bool
    var lastPlayMs: u32

    ghost function View(): Eye
      reads this
    {
      Eye(pan, tilt, targetPan, targetTilt, nextSaccadeMs, nextBlinkMs, blinkStartMs, idleResumeAtMs,
          blinking, idleEnabled, level, hasPlayed, lastPlayMs)
    }

    constructor (now: u32, d: Draw)
      ensures View() == Begun(Wrapping, now, d)
    {
      pan, tilt, targetPan, targetTilt := CENTER, CENTER, CENTER, CENTER;
      idleResumeAtMs := now;
      nextSaccadeMs, nextBlinkMs := (now + d.saccadeGap) % WRAP, (now + d.blinkGap) % WRAP;
      blinkStartMs, lastPlayMs := 0, 0;
      blinking, idleEnabled, hasPlayed := false, true, false;
      level := 255;
    }

    method ScheduleSaccade(now: u32, gap: int)
      modifies `nextSaccadeMs
      ensures nextSaccadeMs == Later(Wrapping, now, gap)
    {
      nextSaccadeMs := (now + gap) % WRAP;
    }

    method ScheduleBlink(now: u32, gap: int)
      modifies `nextBlinkMs
      ensures nextBlinkMs == Later(Wrapping, now, gap)
    {
      nextBlinkMs := (now + gap) % WRAP;
    }

    method PickIdleTarget(now: u32, d: Draw)
      modifies this
      ensures View() == DoPickIdleTarget(Wrapping, old(View()), now, d)
    {
      var p := targetPan + d.hopPan;
      var t := targetTilt + d.hopTilt;
      p := p + (CENTER - p) * IDLE_CENTER_PULL;
      t := t + (CENTER - t) * IDLE_CENTER_PULL;
      targetPan := Clamp(p, IDLE_MIN_ANGLE, IDLE_MAX_ANGLE);
      targetTilt := Clamp(t, IDLE_MIN_ANGLE, IDLE_MAX_ANGLE);
      ScheduleSaccade(now, d.saccadeGap);
    }

    // Whether speech owns the eyes, and at what level.
    method SpeechLevel(now: u32, playing: bool) returns (owns: bool, speech: int)
      ensures owns <==> SpeechOwns(Wrapping, View(), now, playing)
      ensures owns ==> speech == if playing then SPEECH_ACTIVE_LEVEL else SPEECH_DIP_LEVEL
    {
      if playing { return true, SPEECH_ACTIVE_LEVEL; }
      var since := if hasPlayed then (now - lastPlayMs) % WRAP else WRAP - 1;
      if since < SPEECH_DIP_WINDOW_MS { return true, SPEECH_DIP_LEVEL; }
      return false, 255;
    }

    method UpdateEyeLevel(now: u32, playing: bool, d: Draw)
      modifies this
      ensures View() == DoUpdateEyeLevel(Wrapping, old(View()), now, playing, d)
    {
      var owns, speech := SpeechLevel(now, playing);
      if owns {
        blinking := false;
        level := speech;
        ScheduleBlink(now, d.blinkGap);
        return;
      }
      if blinking {
        var elapsed := (now - blinkStartMs) % WRAP;
        if elapsed < BLINK_CLOSED_MS {
          level := 0;
        } else if elapsed < BLINK_CLOSED_MS + BLINK_OPEN_MS {
          var t := elapsed - BLINK_CLOSED_MS;
          level := 255 * t / BLINK_OPEN_MS;
        } else {
          level := EYE_REST_LEVEL;
          blinking := false;
          ScheduleBlink(now, d.blinkGap);
        }
      } else if DeadlinePassed(Wrapping, now, nextBlinkMs) {
        blinking := true;
        blinkStartMs := now;
      } else {
        level := EYE_REST_LEVEL;
      }
    }

    method SuspendIdle(now: u32, d: Draw)
      modifies this
      ensures View() == DoSuspendIdle(Wrapping, old(View()), now, d)
    {
      if blinking {
        blinking := false;
        level := EYE_REST_LEVEL;
      }
      ScheduleSaccade(now, d.saccadeGap);
      ScheduleBlink(now, d.blinkGap);
    }

    method SetIdleEnabled(now: u32, enabled: bool, d: Draw)
      modifies this
      ensures View() == Step(Wrapping, old(View()), now, Input.SetIdleEnabled(enabled), d)
    {
      if enabled == idleEnabled { return; }
      idleEnabled := enabled;
      if enabled {
        ScheduleSaccade(now, d.saccadeGap);
        ScheduleBlink(now, d.blinkGap);
      } else {
        blinking := false;
        level := EYE_REST_LEVEL;
      }
    }

    // The audio player's note of a play command.
    method NotePlay(now: u32)
      modifies this
      ensures View() == Step(Wrapping, old(View()), now, Play, Draw(0, 0, 0.0, 0.0))
    {
      lastPlayMs := now;
      hasPlayed := true;
    }

    method Update(now: u32, pad: Gamepad, playing: bool, d: Draw)
      modifies this
      ensures View() == Step(Wrapping, old(View()), now, Input.Update(pad, playing), d)
    {
      Notice(now, pad, d);
      var ease := Aim(now, pad, playing, d);
      pan := pan + (targetPan - pan) * ease;
      tilt := tilt + (targetTilt - tilt) * ease;
    }

    // The two halves of update(): the reaction to the stick, and the choice of targets.

    method Notice(now: u32, pad: Gamepad, d: Draw)
      modifies this
      ensures View() == Noticed(Wrapping, old(View()), now, pad, d)
    {
      if StickActive(pad) {
        idleResumeAtMs := (now + IDLE_RESUME_MS) % WRAP;
        SuspendIdle(now, d);
      }
    }

    method Aim(now: u32, pad: Gamepad, playing: bool, d: Draw) returns (ease: real)
      modifies this
      ensures View() == Aimed(Wrapping, old(View()), now, pad, playing, d)
      ensures ease == if Idle(Wrapping, old(View()), now, pad) then IDLE_EASE else GAMEPAD_EASE
    {
      if !pad.connected || DeadlinePassed(Wrapping, now, idleResumeAtMs) {
        if idleEnabled {
          if DeadlinePassed(Wrapping, now, nextSaccadeMs) {
            PickIdleTarget(now, d);
          }
          UpdateEyeLevel(now, playing, d);
        }
        ease := IDLE_EASE;
      } else {
        targetPan := MapAxis(pad.axisRX, 0, 180) as real;
        targetTilt := MapAxis(pad.axisRY, 180, 0) as real;
        ease := GAMEPAD_EASE;
      }
    }
  }
}
