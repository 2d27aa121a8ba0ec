/** What the operations on a strip do to its pixels, as a reader of the buffer sees it. */
module PixelEffects {
  import opened NeoPixel
  import opened Prelude

  // ---------------------------------------------------------------------------
  // The rescale in place
  // ---------------------------------------------------------------------------

  // The factor is the largest for which a byte at the old level stays under the top of the new one.
  lemma FactorIsTight(old_: u8, new_: u8)
    requires old_ > 0
    ensures var f := RescaleFactor(old_, new_); old_ * f <= 256 * new_ + 255 < old_ * f + old_
  {
    var top := 256 * new_ + 255;
    assert RescaleFactor(old_, new_) == top / old_;
    Divides(top, old_);
  }

  lemma Divides(a: nat, d: nat)
    requires d > 0
    ensures d * (a / d) <= a < d * (a / d) + d
  {
  }

  lemma ProductGrows(a: nat, b: nat, f: nat)
    requires a <= b
    ensures a * f <= b * f
  {
  }

  // A byte c at most the level o becomes v at level n: the level itself becomes the new one, dark stays dark, and
  // every byte keeps its share, less than two steps short.
  predicate KeepsShare(c: nat, o: nat, v: nat, n: nat) {
    && (o > 0 && c == o ==> v == n) && (c == 0 ==> v == 0)
    && Times(c, n + 1) <= Times(o, v + 2)
    && v <= n
  }

  function Times(a: nat, b: nat): nat { a * b }

  lemma TimesSplit(a: nat, b: nat, m: nat)
    ensures Times(a, b + m) == Times(a, b) + Times(a, m)
  {
    assert a * (b + m) == a * b + a * m;
  }

  lemma TimesGrow(a: nat, b: nat, k: nat)
    requires a <= b
    ensures Times(k, a) <= Times(k, b)
  {
    assert k * (b - a) >= 0;
  }

  lemma TimesConst(k: nat, m: nat)
    ensures Times(k, 1) == k && Times(k, 2) == 2 * k && Times(k, 255) == 255 * k && Times(k, 256) == 256 * k
    ensures Times(k, 256 * m) == 256 * Times(k, m)
  {
    assert k * (256 * m) == 256 * (k * m);
  }

  lemma TimesTurned(o: nat, c: nat, f: nat)
    ensures Times(o, c * f) == Times(c, o * f) && Times(c, o) == Times(o, c)
  {
  }

  // The product of byte and factor, from below, for a factor that is tight.
  lemma ScaledFromBelow(c: nat, o: nat, n: nat, of: nat, q: nat, cf: nat)
    requires c <= o <= 255 && Times(o, cf) == Times(c, of)
    requires 256 * n + 256 <= of + o && cf + 1 <= 256 * q + 256
    ensures Times(c, n + 1) <= Times(o, q + 2)
  {
    TimesGrow(cf + 1, 256 * q + 256, o);
    TimesSplit(o, cf, 1);
    TimesSplit(o, 256 * q, 256);
    TimesConst(o, q);
    TimesGrow(256 * n + 256, of + o, c);
    TimesSplit(c, of, o);
    TimesSplit(c, 256 * n, 256);
    TimesConst(c, n);
    TimesGrow(c, 255, o);
    TimesTurned(o, c, 0);
    TimesSplit(c, n, 1);
    TimesSplit(o, q, 2);
  }

  // A byte at the old level lands exactly on the new one; every byte keeps its share; and brighter stays brighter.
  lemma RescaleKeepsShare(s: Strip, level: u8, i: nat)
    requires Bounded(s) && i < |s.bytes| && Level(s.stored) > 0 && level != Level(s.stored)
    ensures var t := SetLevel(s, level);
            |t.bytes| == |s.bytes| && KeepsShare(s.bytes[i], Level(s.stored), t.bytes[i], level)
  {
    var o, c := Level(s.stored), s.bytes[i];
    var f := RescaleFactor(o, level);
    LevelStored(level, s.stored);
    FactorIsTight(o, level);
    RescaleBound(c, o, level);
    var q := c * f / 256;
    assert SetLevel(s, level).bytes[i] == Rescale(c, f) == q;
    Divides(c * f, 256);
    if c == 0 { assert c * f == 0; }
    TimesTurned(o, c, f);
    ScaledFromBelow(c, o, level, o * f, q, c * f);
  }

  lemma RescaleKeepsOrder(s: Strip, level: u8, i: nat, j: nat)
    requires Bounded(s) && i < |s.bytes| && j < |s.bytes| && s.bytes[i] <= s.bytes[j]
    ensures SetLevel(s, level).bytes[i] <= SetLevel(s, level).bytes[j]
  {
    if Stored(level) != s.stored {
      var o := Level(s.stored);
      RescaleBound(s.bytes[i], o, level);
      RescaleBound(s.bytes[j], o, level);
      ProductGrows(s.bytes[i], s.bytes[j], RescaleFactor(o, level));
      QuotientGrows(s.bytes[i] * RescaleFactor(o, level), s.bytes[j] * RescaleFactor(o, level));
    }
  }

  lemma QuotientGrows(a: nat, b: nat)
    requires a <= b
    ensures a / 256 <= b / 256
  {
  }

  // ---------------------------------------------------------------------------
  // Fills
  // ---------------------------------------------------------------------------

  // A pixel that reads back as a colour, within the loss of the level.
  ghost predicate Shows(s: Strip, n: u16, c: Colour)
    requires WellFormed(s)
  {
    var got := Unpack(PixelColour(s, n));
    && Close(c.r, got.r, s.stored) && Close(c.g, got.g, s.stored) && Close(c.b, got.b, s.stored)
    && Close(WhiteOf(s, c), got.w, s.stored)
  }

  lemma WriteShows(s: Strip, n: u16, c: Colour, m: u16)
    requires WellFormed(s) && Bounded(s) && n < s.numLEDs && m < s.numLEDs
    ensures var t := SetColour(s, n, c);
            if m == n then Shows(t, m, c) else PixelColour(t, m) == PixelColour(s, m)
  {
    if m == n { ReadBack(s, m, c); } else { OtherShows(s, n, c, m); }
  }

  lemma StillShows(s: Strip, t: Strip, m: u16, c: Colour)
    requires WellFormed(s) && WellFormed(t) && t == s.(bytes := t.bytes)
    requires Shows(s, m, c) && PixelColour(t, m) == PixelColour(s, m)
    ensures Shows(t, m, c)
  {
  }

  lemma {:induction false} FillRangeShows(s: Strip, c: Colour, first: nat, end: nat, m: u16)
    requires WellFormed(s) && Bounded(s) && first <= end <= s.numLEDs && m < s.numLEDs
    ensures var t := FillRange(s, c, first, end);
            if first <= m < end then Shows(t, m, c) else PixelColour(t, m) == PixelColour(s, m)
    decreases end - first
  {
    if first < end {
      var p := FillRange(s, c, first, end - 1);
      FillRangeShows(s, c, first, end - 1, m);
      FillRangeKeeps(s, c, first, end - 1);
      WriteShows(p, end - 1, c, m);
      FillRangeNext(s, c, first, end - 1);
      if first <= m < end - 1 { StillShows(p, SetColour(p, end - 1, c), m, c); }
    }
  }

  lemma OtherShows(s: Strip, n: u16, c: Colour, m: u16)
    requires WellFormed(s) && n < s.numLEDs && m < s.numLEDs && m != n
    ensures PixelColour(SetColour(s, n, c), m) == PixelColour(s, m)
  {
    OthersKept(s, n, c, m);
  }

  // A fill writes the pixels from first up to its end, which a count of zero puts at the end of the strip, and
  // leaves the others alone. The end is a 16-bit sum: where that wraps to first or below, nothing is written.
  lemma FillShows(s: Strip, c: u32, first: u16, count: u16, m: u16)
    requires WellFormed(s) && Bounded(s) && m < s.numLEDs
    ensures var t := Filled(s, c, first, count);
            && t.stored == s.stored && t.numLEDs == s.numLEDs
            && (if first <= m && (count == 0 || m < (first + count) % 0x1_0000)
                then Shows(t, m, Unpack(c)) else PixelColour(t, m) == PixelColour(s, m))
  {
    if first < s.numLEDs && FillEnd(s.numLEDs, first, count) > first {
      FillRangeShows(s, Unpack(c), first, FillEnd(s.numLEDs, first, count), m);
    }
  }

  // ---------------------------------------------------------------------------
  // Darkness
  // ---------------------------------------------------------------------------

  lemma ChannelIsDark(s: Strip, m: u16, off: nat)
    requires WellFormed(s) && m < s.numLEDs && off < s.order.Bytes()
    requires forall i :: 0 <= i < |s.bytes| ==> s.bytes[i] == 0
    ensures Unscale(Channel(s, m, off), s.stored) == 0
  {
    PixelInside(s, m, off);
  }

  lemma DarkReadsZero(s: Strip, m: u16)
    requires WellFormed(s) && m < s.numLEDs && forall i :: 0 <= i < |s.bytes| ==> s.bytes[i] == 0
    ensures PixelColour(s, m) == 0
  {
    ChannelIsDark(s, m, s.order.r);
    ChannelIsDark(s, m, s.order.g);
    ChannelIsDark(s, m, s.order.b);
    ChannelIsDark(s, m, s.order.w);
    PackFits(0, 0, 0, 0);
  }

  // Clearing darkens every pixel and keeps the brightness.
  lemma ClearShows(s: Strip, m: u16)
    requires WellFormed(s) && m < s.numLEDs
    ensures PixelColour(Cleared(s), m) == 0 && Cleared(s).stored == s.stored && Cleared(s).numLEDs == s.numLEDs
  {
    DarkReadsZero(Cleared(s), m);
  }

  // A new length gives that many dark pixels at the brightness there was, or no pixels at all.
  lemma ResizeShows(s: Strip, n: u16, granted: bool, m: u16)
    requires s.order.Valid() && n * s.order.Bytes() < 0x1_0000
    ensures var t := Resized(s, n, granted);
            && WellFormed(t) && t.stored == s.stored && t.numLEDs == (if granted then n else 0)
            && (m < t.numLEDs ==> PixelColour(t, m) == 0)
  {
    var t := Resized(s, n, granted);
    if m < t.numLEDs { DarkReadsZero(t, m); }
  }
}
