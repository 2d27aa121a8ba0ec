/** What one call does to the eyes, on the ideal clock: where the stick points them, how they wander by
    themselves, and how bright they are. */
module EyeEffects {
  import opened EyeMotion

  // ---------------------------------------------------------------------------
  // Who moves the eyes
  // ---------------------------------------------------------------------------

  // The stick is off its centre.
  predicate Pushed(pad: Gamepad) {
    pad.connected && (pad.axisRX > 80 || pad.axisRX < -80 || pad.axisRY > 80 || pad.axisRY < -80)
  }

  // The stick has the eyes: a controller is connected, and its stick is off its centre now or was less than
  // the resume time ago.
  predicate Steered(e: Eye, t: Tick) {
    t.input.Update? && t.input.pad.connected && (Pushed(t.input.pad) || t.now < e.idleResumeAt)
  }

  predicate Wanders(e: Eye, t: Tick) { t.input.Update? && !Steered(e, t) }

  // ---------------------------------------------------------------------------
  // The stick
  // ---------------------------------------------------------------------------

  // v is the whole number of degrees, 0 to 180, at which x stands between -511 and 512.
  predicate Degrees(v: real, x: int) {
    v == v.Floor as real && 1023 * v.Floor <= 180 * (x + 511) < 1023 * (v.Floor + 1)
  }

  lemma MapsToDegrees(x: int)
    requires -511 <= x <= 512
    ensures Degrees(MapAxis(x, 0, 180) as real, x)
    ensures Degrees(180.0 - MapAxis(x, 180, 0) as real, x)
  {
    var up, down := MapAxis(x, 0, 180), MapAxis(x, 180, 0);
    assert up == 180 * (x + 511) / 1023;
    assert down == 180 - 180 * (x + 511) / 1023;
    assert 180.0 - down as real == (180 - down) as real;
  }

  lemma DegreesAreUnique(v: real, w: real, x: int)
    requires Degrees(v, x) && Degrees(w, x)
    ensures v == w
  {
  }

  lemma DegreesEnds(v: real)
    ensures Degrees(v, -511) ==> v == 0.0
    ensures Degrees(v, 512) ==> v == 180.0
  {
  }

  // The stick points the eyes: right is the end of the pan, up the low end of the tilt, and neither axis
  // depends on the other. The eyes go 35% of the way there.
  lemma StickPoints(e: Eye, t: Tick)
    requires Steered(e, t) && AxesInRange(t.input)
    ensures var (f, pad) := (After(e, t), t.input.pad);
            && Degrees(f.targetPan, pad.axisRX) && Degrees(180.0 - f.targetTilt, pad.axisRY)
            && f.pan == e.pan + (f.targetPan - e.pan) * 0.35
            && f.tilt == e.tilt + (f.targetTilt - e.tilt) * 0.35
  {
    MapsToDegrees(t.input.pad.axisRX);
    MapsToDegrees(t.input.pad.axisRY);
  }

  // Full left and full up, full right and full down.
  lemma StickReachesEnds(e: Eye, t: Tick)
    requires Steered(e, t) && AxesInRange(t.input)
    ensures var (f, pad) := (After(e, t), t.input.pad);
            && (pad.axisRX == -511 ==> f.targetPan == 0.0) && (pad.axisRX == 512 ==> f.targetPan == 180.0)
            && (pad.axisRY == -511 ==> f.targetTilt == 180.0) && (pad.axisRY == 512 ==> f.targetTilt == 0.0)
  {
    StickPoints(e, t);
    var f := After(e, t);
    DegreesEnds(f.targetPan);
    DegreesEnds(180.0 - f.targetTilt);
  }

  // Pan depends on one axis alone, tilt on the other.
  lemma AxesAreApart(e: Eye, t: Tick, f: Eye, u: Tick)
    requires Steered(e, t) && AxesInRange(t.input) && Steered(f, u) && AxesInRange(u.input)
    ensures t.input.pad.axisRX == u.input.pad.axisRX ==> After(e, t).targetPan == After(f, u).targetPan
    ensures t.input.pad.axisRY == u.input.pad.axisRY ==> After(e, t).targetTilt == After(f, u).targetTilt
  {
    StickPoints(e, t);
    StickPoints(f, u);
    if t.input.pad.axisRX == u.input.pad.axisRX {
      DegreesAreUnique(After(e, t).targetPan, After(f, u).targetPan, t.input.pad.axisRX);
    }
    if t.input.pad.axisRY == u.input.pad.axisRY {
      DegreesAreUnique(180.0 - After(e, t).targetTilt, 180.0 - After(f, u).targetTilt, t.input.pad.axisRY);
    }
  }

  // A stick off its centre ends a blink at the rest level, and puts off wandering for five seconds, and the next
  // saccade and blink by the gaps drawn. At its centre it leaves all that alone.
  lemma StickSuspends(e: Eye, t: Tick)
    requires Steered(e, t)
    ensures var f := After(e, t);
            && f.idleEnabled == e.idleEnabled
            && if Pushed(t.input.pad) then
                 && f.idleResumeAt == t.now + 5000
                 && f.nextSaccade == t.now + t.draw.saccadeGap && f.nextBlink == t.now + t.draw.blinkGap
                 && !f.blinking && f.level == (if e.blinking then 236 else e.level)
               else
                 && f.idleResumeAt == e.idleResumeAt && f.nextSaccade == e.nextSaccade && f.nextBlink == e.nextBlink
                 && f.blinking == e.blinking && f.blinkStart == e.blinkStart && f.level == e.level
  {
  }

  // ---------------------------------------------------------------------------
  // Wandering
  // ---------------------------------------------------------------------------

  // A hop away from where the eyes were going, and 18% of the way back to the centre, within 40 to 140 degrees.
  predicate Hopped(from: real, hop: real, to: real) {
    var v := 0.82 * (from + hop) + 16.2;
    && 40.0 <= to <= 140.0
    && (to < v ==> to == 140.0) && (to > v ==> to == 40.0)
  }

  // By themselves the eyes go 22% of the way; the target hops when the time for a saccade has come and wandering
  // is enabled, and stays where it is otherwise.
  lemma EyesWander(e: Eye, t: Tick)
    requires Wanders(e, t)
    ensures var f := After(e, t);
            && f.pan == e.pan + (f.targetPan - e.pan) * 0.22
            && f.tilt == e.tilt + (f.targetTilt - e.tilt) * 0.22
            && f.idleEnabled == e.idleEnabled && f.idleResumeAt == e.idleResumeAt
            && if e.idleEnabled && t.now >= e.nextSaccade then
                 && Hopped(e.targetPan, t.draw.hopPan, f.targetPan)
                 && Hopped(e.targetTilt, t.draw.hopTilt, f.targetTilt)
                 && f.nextSaccade == t.now + t.draw.saccadeGap
               else
                 f.targetPan == e.targetPan && f.targetTilt == e.targetTilt && f.nextSaccade == e.nextSaccade
  {
    var s := Saccaded(Unbounded, e, t.now, t.draw);
    LevelKeepsAngles(Unbounded, s, t.now, t.input.playing, t.draw);
    assert DoUpdateEyeLevel(Unbounded, s, t.now, t.input.playing, t.draw).nextSaccade == s.nextSaccade;
  }

  // ---------------------------------------------------------------------------
  // Brightness
  // ---------------------------------------------------------------------------

  // A clip sounds, or was asked for less than 450 ms ago.
  predicate Speaking(e: Eye, t: Tick) {
    t.input.Update? && (t.input.playing || (e.hasPlayed && t.now - e.lastPlay < 450))
  }

  // Speech lights the eyes up fully while it sounds, and dims them before; it ends a blink and puts off the next.
  lemma SpeechLights(e: Eye, t: Tick)
    requires Wanders(e, t) && e.idleEnabled && Speaking(e, t)
    ensures var f := After(e, t);
            && f.level == (if t.input.playing then 255 else 70)
            && !f.blinking && f.nextBlink == t.now + t.draw.blinkGap
  {
  }

  // An update that speech leaves to the eyelids.
  predicate Blinks(e: Eye, t: Tick) { Wanders(e, t) && e.idleEnabled && !Speaking(e, t) }

  // The eyelids s milliseconds into a blink: shut for 120 ms, opening over 90, open at the rest level.
  function Lid(s: int): int {
    if s < 120 then 0 else if s < 210 then 255 * (s - 120) / 90 else 236
  }

  lemma LidOpens(s: int, u: int)
    requires 120 <= s <= u < 210
    ensures 0 <= Lid(s) <= Lid(u) < 255
    ensures 90 * Lid(s) <= 255 * (s - 120) < 90 * Lid(s) + 90
  {
  }

  // When the time for a blink has come, one starts; before it has, the eyes are at the rest level.
  lemma BlinkStarts(e: Eye, t: Tick)
    requires Blinks(e, t) && !e.blinking
    ensures var f := After(e, t);
            && (f.blinking <==> t.now >= e.nextBlink) && f.nextBlink == e.nextBlink
            && (if f.blinking then f.blinkStart == t.now && f.level == e.level else f.level == 236)
  {
  }

  lemma BlinkGoesOn(e: Eye, t: Tick)
    requires Blinks(e, t) && e.blinking
    ensures var (f, s) := (After(e, t), t.now - e.blinkStart);
            && f.level == Lid(s) && (f.blinking <==> s < 210) && f.blinkStart == e.blinkStart
            && f.nextBlink == (if s < 210 then e.nextBlink else t.now + t.draw.blinkGap)
  {
  }

  // Every one of these updates is left to the eyelids, and comes before the blink is over.
  ghost predicate MidBlink(e: Eye, ticks: seq<Tick>, over: int)
    decreases |ticks|
  {
    ticks == [] || (Blinks(e, ticks[0]) && ticks[0].now < over && MidBlink(After(e, ticks[0]), ticks[1..], over))
  }

  // A whole blink, over any number of updates: at each one the eyelids stand where the time since its start puts
  // them.
  lemma {:induction false} BlinkRuns(e: Eye, ticks: seq<Tick>, t: Tick)
    requires e.blinking && MidBlink(e, ticks, e.blinkStart + 210) && Blinks(Run(Unbounded, e, ticks), t)
    ensures var f := After(Run(Unbounded, e, ticks), t);
            f.level == Lid(t.now - e.blinkStart) && (f.blinking <==> t.now - e.blinkStart < 210)
    decreases |ticks|
  {
    if ticks == [] {
      BlinkGoesOn(e, t);
    } else {
      BlinkGoesOn(e, ticks[0]);
      BlinkRuns(After(e, ticks[0]), ticks[1..], t);
    }
  }

  // With wandering disabled an update leaves the lights and the timers alone.
  lemma ParkedEyesRest(e: Eye, t: Tick)
    requires Wanders(e, t) && !e.idleEnabled
    ensures var f := After(e, t);
            f == e.(pan := f.pan, tilt := f.tilt)
  {
  }

  // Disabling lights the eyes and ends a blink; enabling puts off saccade and blink; neither does anything twice.
  lemma SwitchParks(e: Eye, t: Tick)
    requires t.input.SetIdleEnabled?
    ensures var (f, on) := (After(e, t), t.input.enabled);
            if on == e.idleEnabled then f == e
            else if on then
              f == e.(idleEnabled := true, nextSaccade := t.now + t.draw.saccadeGap,
                      nextBlink := t.now + t.draw.blinkGap)
            else f == e.(idleEnabled := false, blinking := false, level := 236)
  {
  }

  // A play command makes the eyes dip for the next 450 ms, unless the clip sounds; after that, if no blink is due,
  // they are at the rest level.
  lemma PlayDims(e: Eye, play: Tick, t: Tick)
    requires play.input.Play? && play.now <= t.now && t.input.Update? && !t.input.playing
    requires Wanders(After(e, play), t) && e.idleEnabled && !e.blinking
    ensures var f := After(After(e, play), t);
            && (t.now - play.now < 450 ==> f.level == 70)
            && (t.now - play.now >= 450 && t.now < e.nextBlink ==> f.level == 236)
  {
  }

  // At power-on the eyes are centred and lit, and free to wander at once.
  lemma PowerOn(now: int, d: Draw)
    ensures var e := Begun(Unbounded, now, d);
            && e.pan == e.tilt == e.targetPan == e.targetTilt == 90.0
            && e.nextSaccade == now + d.saccadeGap && e.nextBlink == now + d.blinkGap && e.idleResumeAt == now
            && !e.blinking && e.idleEnabled && e.level == 255 && !e.hasPlayed
  {
  }

  // ---------------------------------------------------------------------------
  // Pulses
  // ---------------------------------------------------------------------------

  // The pulse is the point of the channel's range at the angle's share of the travel, less than a microsecond
  // short.
  lemma PulseIsOnLine(angle: real, minUs: nat, maxUs: nat)
    requires minUs <= maxUs && Angle(angle)
    ensures var part := Scaled((maxUs - minUs) as real, angle / 180.0);
            (PulseUs(angle, minUs, maxUs) - minUs) as real <= part < (PulseUs(angle, minUs, maxUs) - minUs + 1) as real
  {
  }

  lemma PulseGrows(a: real, b: real, minUs: nat, maxUs: nat)
    requires minUs <= maxUs && a <= b
    ensures PulseUs(a, minUs, maxUs) <= PulseUs(b, minUs, maxUs)
  {
    var x, y := Clamp(a, 0.0, 180.0) / 180.0, Clamp(b, 0.0, 180.0) / 180.0;
    ScaledGrows((maxUs - minUs) as real, x, y);
    FloorGrows(Scaled((maxUs - minUs) as real, x), Scaled((maxUs - minUs) as real, y));
  }

  lemma ScaledGrows(span: real, x: real, y: real)
    requires span >= 0.0 && x <= y
    ensures Scaled(span, x) <= Scaled(span, y)
  {
    assert span * (y - x) >= 0.0;
  }

  lemma FloorGrows(x: real, y: real)
    requires x <= y
    ensures x.Floor <= y.Floor
  {
  }
}
