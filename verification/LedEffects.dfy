/** What each call of the LED controller does to the strips, pixel by pixel. */
module LedEffects {
  import opened NeoPixel
  import opened PixelEffects
  import opened LedController
  import opened Prelude

  // ---------------------------------------------------------------------------
  // Calls that write pixels
  // ---------------------------------------------------------------------------

  predicate Writes(c: Call) {
    c.SetPixel? || c.Fill? || c.FillHSV? || c.Clear? || c.SetPixelGlobal? || c.SetPixelGlobalHSV?
  }

  function Written(c: Call): Colour
    requires Writes(c)
  {
    match c
    case SetPixel(s, p, colour) => colour
    case Fill(s, colour) => colour
    case FillHSV(s, packed) => Unpack(packed)
    case Clear(s) => Colour(0, 0, 0, 0)
    case SetPixelGlobal(index, colour) => colour
    case SetPixelGlobalHSV(index, packed) => Unpack(packed)
  }

  // The call is about pixel n of strip i. A global index counts the pixels of the strips before.
  ghost predicate Addresses(l: Leds, c: Call, i: nat, n: u16)
    requires Shaped(l) && i < |l.strips| && Writes(c)
  {
    match c
    case SetPixel(s, p, colour) => s == i && p == n
    case Fill(s, colour) => s == i
    case FillHSV(s, packed) => s == i
    case Clear(s) => s == i
    case SetPixelGlobal(index, colour) => index == Total(Counts(l.strips)[..i]) + n
    case SetPixelGlobalHSV(index, packed) => index == Total(Counts(l.strips)[..i]) + n
  }

  // The same strips under the same multipliers.
  ghost predicate SameFrame(l: Leds, r: Leds) {
    && Shaped(l) && Shaped(r) && |r.strips| == |l.strips|
    && r.dims == l.dims && r.global == l.global && r.blink == l.blink
    && forall i :: 0 <= i < |l.strips| ==>
         r.strips[i].numLEDs == l.strips[i].numLEDs && r.strips[i].stored == l.strips[i].stored
  }

  ghost predicate PixelIs(l: Leds, r: Leds, i: nat, n: u16, hit: bool, c: Colour)
    requires Shaped(l) && Shaped(r) && |r.strips| == |l.strips| && i < |l.strips|
  {
    if hit then Shows(r.strips[i], n, c) else PixelColour(r.strips[i], n) == PixelColour(l.strips[i], n)
  }

  lemma SetPixelShows(l: Leds, s: nat, p: u32, c: Colour, i: nat, n: u16)
    requires Inv(l) && i < |l.strips| && n < l.strips[i].numLEDs
    ensures var r := DoSetPixel(l, s, p, c);
            SameFrame(l, r) && PixelIs(l, r, i, n, s == i && p == n, c)
  {
    assert AtLevel(l, i);
    if s == i && p < l.strips[i].numLEDs {
      if p == n { ReadBack(l.strips[i], n, c); } else { OtherShows(l.strips[i], p, c, n); }
    }
  }

  lemma FillShowsAll(l: Leds, s: nat, c: Colour, i: nat, n: u16)
    requires Inv(l) && i < |l.strips| && n < l.strips[i].numLEDs
    ensures var r := DoFill(l, s, c);
            SameFrame(l, r) && PixelIs(l, r, i, n, s == i, c)
  {
    assert AtLevel(l, i);
    if s == i { FillRangeShows(l.strips[i], c, 0, l.strips[i].numLEDs, n); }
  }

  lemma ZeroIsClose(k: u8)
    ensures Close(0, 0, k)
  {
  }

  lemma ClearShowsAll(l: Leds, s: nat, i: nat, n: u16)
    requires Inv(l) && i < |l.strips| && n < l.strips[i].numLEDs
    ensures var r := DoClear(l, s);
            && SameFrame(l, r) && PixelIs(l, r, i, n, s == i, Colour(0, 0, 0, 0))
            && (s == i ==> PixelColour(r.strips[i], n) == 0)
  {
    if s == i {
      ClearShows(l.strips[i], n);
      ZeroIsClose(l.strips[i].stored);
    }
  }

  lemma {:induction false} TotalGrows(counts: seq<u16>, i: nat, k: nat)
    requires i < k <= |counts|
    ensures Total(counts[..i]) + counts[i] <= Total(counts[..k])
    decreases k
  {
    TotalSplit(counts, k - 1);
    if i < k - 1 { TotalGrows(counts, i, k - 1); }
  }

  lemma PositionIsUnique(counts: seq<u16>, i: nat, n: nat, k: nat, m: nat)
    requires i < |counts| && n < counts[i] && k < |counts| && m < counts[k]
    requires Total(counts[..i]) + n == Total(counts[..k]) + m
    ensures i == k && n == m
  {
    if i < k { TotalGrows(counts, i, k); }
    if k < i { TotalGrows(counts, k, i); }
  }

  lemma GlobalShows(l: Leds, index: u32, c: Colour, i: nat, n: u16)
    requires Inv(l) && i < |l.strips| && n < l.strips[i].numLEDs
    ensures var r := DoSetPixelGlobal(l, index, c);
            SameFrame(l, r) && PixelIs(l, r, i, n, index == Total(Counts(l.strips)[..i]) + n, c)
  {
    var counts := Counts(l.strips);
    var (found, s, p) := Resolve(counts, 0, index);
    assert counts[..0] == [];
    ResolveIsPosition(counts, 0, index);
    TotalSplit(counts, i);
    if found {
      SetPixelShows(l, s, p, c, i, n);
      if index == Total(counts[..i]) + n { PositionIsUnique(counts, i, n, s, p); }
    }
  }

  // After a writing call, every pixel it addresses reads back as its colour, within the loss of the level, and
  // every other pixel, of any strip, reads as before.
  lemma WritesWhatItSays(l: Leds, c: Call, i: nat, n: u16)
    requires Inv(l) && Writes(c) && i < |l.strips| && n < l.strips[i].numLEDs
    ensures var r := Do(l, c);
            && SameFrame(l, r)
            && (if Addresses(l, c, i, n) then Shows(r.strips[i], n, Written(c))
                else PixelColour(r.strips[i], n) == PixelColour(l.strips[i], n))
  {
    match c
    case SetPixel(s, p, colour) => SetPixelShows(l, s, p, colour, i, n);
    case Fill(s, colour) => FillShowsAll(l, s, colour, i, n);
    case FillHSV(s, packed) => FillShowsAll(l, s, Unpack(packed), i, n);
    case Clear(s) => ClearShowsAll(l, s, i, n);
    case SetPixelGlobal(index, colour) => GlobalShows(l, index, colour, i, n);
    case SetPixelGlobalHSV(index, packed) => GlobalShows(l, index, Unpack(packed), i, n);
  }

  // ---------------------------------------------------------------------------
  // Calls that change a multiplier
  // ---------------------------------------------------------------------------

  predicate Dims(c: Call) { c.SetBrightness? || c.SetStripDim? || c.SetBlinkLevel? }

  // What the multipliers are after it.
  predicate Multiplied(l: Leds, c: Call, r: Leds)
    requires Dims(c)
  {
    match c
    case SetBrightness(level) => r.global == level && r.dims == l.dims && r.blink == l.blink
    case SetStripDim(s, dim) =>
      && r.global == l.global && r.blink == l.blink && |r.dims| == |l.dims|
      && forall i :: 0 <= i < |l.dims| ==> r.dims[i] == if i == s then dim else l.dims[i]
    case SetBlinkLevel(level) => r.global == l.global && r.dims == l.dims && r.blink == level
  }

  lemma {:induction false} BelowIsSet(l: Leds, n: nat, i: nat)
    requires Shaped(l) && n <= |l.strips| && i < |l.strips|
    ensures ApplyBelow(l, n).strips[i]
         == if i < n then SetLevel(l.strips[i], Effective(l.global, l.dims[i], l.blink)) else l.strips[i]
    decreases n
  {
    if n > 0 { BelowIsSet(l, n - 1, i); }
  }

  lemma SameLevelStays(l: Leds, i: nat)
    requires Inv(l) && i < |l.strips|
    ensures SetLevel(l.strips[i], Effective(l.global, l.dims[i], l.blink)) == l.strips[i]
  {
    assert AtLevel(l, i);
    SetLevelKeeps(l.strips[i], Effective(l.global, l.dims[i], l.blink));
  }

  lemma DimmingIsSetLevel(l: Leds, c: Call, i: nat)
    requires Inv(l) && Dims(c) && i < |l.strips|
    ensures var r := Do(l, c);
            && Shaped(r) && |r.strips| == |l.strips| && Multiplied(l, c, r)
            && r.strips[i] == SetLevel(l.strips[i], Effective(r.global, r.dims[i], r.blink))
  {
    SameLevelStays(l, i);
    match c
    case SetBrightness(level) => BelowIsSet(l.(global := level), |l.strips|, i);
    case SetBlinkLevel(level) => BelowIsSet(l.(blink := level), |l.strips|, i);
    case SetStripDim(s, dim) =>
  }

  function Product(l: Leds, i: nat): nat
    requires i < |l.dims|
  {
    l.global * l.dims[i] * l.blink / (255 * 255)
  }

  // A byte at the old product of the multipliers lands exactly on the new one; every byte keeps its share of
  // the product, less than two steps short, whichever multiplier changed.
  lemma DimmingKeepsShare(l: Leds, c: Call, i: nat, j: nat)
    requires Inv(l) && Dims(c) && i < |l.strips| && j < |l.strips[i].bytes|
    ensures var r := Do(l, c);
            && Shaped(r) && |r.strips| == |l.strips| && |r.strips[i].bytes| == |l.strips[i].bytes|
            && Multiplied(l, c, r)
            && KeepsShare(l.strips[i].bytes[j], Product(l, i), r.strips[i].bytes[j], Product(r, i))
  {
    var r := Do(l, c);
    DimmingIsSetLevel(l, c, i);
    assert AtLevel(l, i);
    LevelKeepsShare(l.strips[i], Effective(r.global, r.dims[i], r.blink), j);
  }

  lemma LevelKeepsShare(s: Strip, level: u8, j: nat)
    requires Bounded(s) && j < |s.bytes|
    ensures var t := SetLevel(s, level);
            |t.bytes| == |s.bytes| && KeepsShare(s.bytes[j], Level(s.stored), t.bytes[j], level)
  {
    SetLevelKeeps(s, level);
    LevelStored(level, s.stored);
    if Level(s.stored) == 0 {
      assert s.bytes[j] == 0;
      DarkStaysDarkAt(s, level, j);
    } else if level == Level(s.stored) {
      SameShare(s.bytes[j], level);
    } else {
      RescaleKeepsShare(s, level, j);
    }
  }

  lemma DarkStaysDarkAt(s: Strip, level: u8, j: nat)
    requires j < |s.bytes| && s.bytes[j] == 0
    ensures |SetLevel(s, level).bytes| == |s.bytes| && SetLevel(s, level).bytes[j] == 0
  {
  }

  lemma SameShare(c: nat, e: nat)
    requires c <= e
    ensures KeepsShare(c, e, c, e)
  {
    TimesSplit(c, e, 1);
    TimesSplit(e, c, 2);
    TimesConst(c, 0);
    TimesConst(e, 0);
    TimesTurned(c, e, 0);
  }

  // ---------------------------------------------------------------------------
  // Begin
  // ---------------------------------------------------------------------------

  lemma {:induction false} StartedShape(l: Leds, counts: seq<u16>, n: nat, i: nat)
    requires Shaped(l) && CallOk(Begin(counts)) && i < n <= |counts| && n <= MAX_STRIPS
    ensures var r := Started(l, counts, n);
            && r.strips[i].numLEDs == counts[i] && r.dims[i] == 255
            && (forall j :: 0 <= j < |r.strips[i].bytes| ==> r.strips[i].bytes[j] == 0)
    decreases n
  {
    StartedNext(l, counts, n - 1);
    if i < n - 1 {
      StartedShape(l, counts, n - 1, i);
    } else {
      var p := Started(l, counts, i);
      var q := p.(strips := p.strips + [Blank(counts[i])], dims := p.dims[i := 255]);
      DarkStaysDark(Blank(counts[i]), Effective(q.global, q.dims[i], q.blink));
    }
  }

  lemma DarkStaysDark(s: Strip, level: u8)
    requires forall j :: 0 <= j < |s.bytes| ==> s.bytes[j] == 0
    ensures var t := SetLevel(s, level);
            |t.bytes| == |s.bytes| && forall j :: 0 <= j < |t.bytes| ==> t.bytes[j] == 0
  {
  }

  // Begin gives the first four strips their lengths, dark and undimmed.
  lemma BeginShows(l: Leds, counts: seq<u16>, i: nat, n: u16)
    requires Shaped(l) && CallOk(Begin(counts))
    ensures var r := Do(l, Begin(counts));
            && |r.strips| == (if |counts| < 4 then |counts| else 4) && r.global == l.global && r.blink == l.blink
            && (i < |r.strips| ==>
                  && r.strips[i].numLEDs == counts[i] && r.dims[i] == 255
                  && (n < counts[i] ==> PixelColour(r.strips[i], n) == 0))
  {
    var r := Do(l, Begin(counts));
    if i < |r.strips| {
      StartedShape(l, counts, |r.strips|, i);
      if n < counts[i] { DarkReadsZero(r.strips[i], n); }
    }
  }
}
