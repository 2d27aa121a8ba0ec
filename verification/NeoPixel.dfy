/** The pixel buffer of one LED strip. Colours are scaled by the brightness as they are written, and a
    change of brightness rescales the bytes already there in place.

    The brightness is stored plus one, modulo 256: a stored 0 means full brightness, and a stored 1
    means off. */
module NeoPixel {
  import opened Prelude

  // Byte offsets of the channels inside a pixel. Equal red and white offsets mean a strip without white.
  datatype Order = Order(r: nat, g: nat, b: nat, w: nat) {
    predicate HasWhite() { w != r }

    function Bytes(): (n: nat)
      ensures n == 3 || n == 4
    {
      if HasWhite() then 4 else 3
    }

    predicate Valid() {
      && r < Bytes() && g < Bytes() && b < Bytes() && w < Bytes()
      && r != g && g != b && b != r && (HasWhite() ==> w != g && w != b)
    }
  }

  datatype Strip = Strip(order: Order, stored: u8, numLEDs: u16, bytes: seq<u8>)

  ghost predicate WellFormed(s: Strip) {
    s.order.Valid() && |s.bytes| == s.numLEDs * s.order.Bytes() < 0x1_0000
  }

  // The brightness the caller set, from the stored one.
  function Level(stored: u8): u8 { (stored + 255) % 256 }
  function Stored(level: u8): u8 { (level + 1) % 256 }

  lemma LevelStored(level: u8, stored: u8)
    ensures Level(Stored(level)) == level && Stored(Level(stored)) == stored
  {}

  // ---------------------------------------------------------------------------
  // Writing
  // ---------------------------------------------------------------------------

  function Scale(c: u8, stored: u8): u8 {
    if stored == 0 then c else c * stored / 256
  }

  lemma PixelInside(s: Strip, n: u16, off: nat)
    requires WellFormed(s) && n < s.numLEDs && off < s.order.Bytes()
    ensures n * s.order.Bytes() + off < |s.bytes|
  {
    var k := s.order.Bytes();
    assert (n + 1) * k <= s.numLEDs * k;
    assert (n + 1) * k == n * k + k;
  }

  ghost function Put(s: Strip, n: u16, off: nat, v: u8): (t: Strip)
    requires WellFormed(s) && n < s.numLEDs && off < s.order.Bytes()
    ensures WellFormed(t)
  {
    PixelInside(s, n, off);
    s.(bytes := s.bytes[n * s.order.Bytes() + off := v])
  }

  // A pixel's stored colour: white, red, green, blue.
  datatype Colour = Colour(r: u8, g: u8, b: u8, w: u8)

  function Unpack(c: u32): Colour {
    Colour(c / 0x1_0000 % 0x100, c / 0x100 % 0x100, c % 0x100, c / 0x100_0000)
  }

  ghost function SetColour(s: Strip, n: u16, c: Colour): (t: Strip)
    requires WellFormed(s)
    ensures WellFormed(t) && t == s.(bytes := t.bytes)
  {
    if n >= s.numLEDs then s
    else
      var k := s.stored;
      var white := if s.order.HasWhite() then Put(s, n, s.order.w, Scale(c.w, k)) else s;
      Put(Put(Put(white, n, s.order.r, Scale(c.r, k)), n, s.order.g, Scale(c.g, k)), n, s.order.b, Scale(c.b, k))
  }

  // Every pixel from first up to, not including, end.
  ghost function FillRange(s: Strip, c: Colour, first: nat, end: nat): (t: Strip)
    requires WellFormed(s) && first <= end < 0x1_0000
    ensures WellFormed(t) && t == s.(bytes := t.bytes)
    decreases end - first
  {
    if first == end then s else SetColour(FillRange(s, c, first, end - 1), end - 1, c)
  }

  lemma FillRangeNext(s: Strip, c: Colour, first: nat, end: nat)
    requires WellFormed(s) && first <= end < 0xFFFF
    ensures FillRange(s, c, first, end + 1) == SetColour(FillRange(s, c, first, end), end, c)
  {
  }

  // ---------------------------------------------------------------------------
  // Changing the brightness
  // ---------------------------------------------------------------------------

  lemma QuotientBound(a: nat, d: nat)
    requires d > 0
    ensures 0 <= a / d <= a
    ensures d * (a / d) <= a
  {
    var q := a / d;
    assert a == d * q + a % d;
    AtLeast(q, d);
  }

  lemma AtLeast(q: nat, d: nat)
    requires d > 0
    ensures q <= d * q
  {}

  // The factor, in 256ths, from one level to another: 16-bit arithmetic.
  function RescaleFactor(oldLevel: u8, newLevel: u8): u16 {
    if oldLevel == 0 then 0
    else if newLevel == 255 then
      QuotientBound(65535, oldLevel);
      65535 / oldLevel
    else
      QuotientBound((newLevel + 1) * 256 - 1, oldLevel);
      ((newLevel + 1) * 256 - 1) / oldLevel
  }

  // What lands in the byte: the product shifted down by 8, truncated to 8 bits.
  function Rescale(c: u8, scale: u16): u8 {
    c * scale / 256 % 256
  }

  function RescaleAll(bytes: seq<u8>, scale: u16): (r: seq<u8>)
    ensures |r| == |bytes|
  {
    seq(|bytes|, i requires 0 <= i < |bytes| => Rescale(bytes[i], scale))
  }

  function SetLevel(s: Strip, level: u8): (t: Strip)
    ensures WellFormed(s) ==> WellFormed(t) && t.order == s.order && t.numLEDs == s.numLEDs
  {
    if Stored(level) == s.stored then s
    else s.(stored := Stored(level), bytes := RescaleAll(s.bytes, RescaleFactor(Level(s.stored), level)))
  }

  // n dark bytes.
  function Dark(n: nat): (b: seq<u8>)
    ensures |b| == n && forall i :: 0 <= i < n ==> b[i] == 0
  {
    seq(n, i => 0)
  }

  function Cleared(s: Strip): (t: Strip)
    ensures WellFormed(s) ==> WellFormed(t)
    ensures Bounded(t)
  {
    s.(bytes := Dark(|s.bytes|))
  }

  function Resized(s: Strip, n: u16, granted: bool): Strip
    requires n * s.order.Bytes() < 0x1_0000
  {
    if granted then s.(numLEDs := n, bytes := Dark(n * s.order.Bytes()))
    else s.(numLEDs := 0, bytes := [])
  }

  // ---------------------------------------------------------------------------
  // No byte of the buffer stands above the level
  // ---------------------------------------------------------------------------

  ghost predicate Bounded(s: Strip) {
    forall i :: 0 <= i < |s.bytes| ==> s.bytes[i] <= Level(s.stored)
  }

  lemma ScaleBound(c: u8, k: u8)
    ensures Scale(c, k) <= Level(k)
    ensures k != 0 ==> Scale(c, k) <= k - 1
  {
    if k != 0 {
      assert c * k <= 255 * k;
      assert 255 * k < 256 * k;
    }
  }

  // For a byte the invariant allows, the in-place product fits a byte, and fits the new level.
  lemma RescaleBound(c: u8, oldLevel: u8, newLevel: u8)
    requires c <= oldLevel
    ensures Rescale(c, RescaleFactor(oldLevel, newLevel)) == c * RescaleFactor(oldLevel, newLevel) / 256 <= newLevel
  {
    if oldLevel != 0 {
      var top := (newLevel + 1) * 256 - 1;
      QuotientBound(top, oldLevel);
      ProductUnder(c, oldLevel, RescaleFactor(oldLevel, newLevel), top);
    } else {
      assert c == 0;
    }
  }

  lemma ProductUnder(c: nat, oldLevel: nat, scale: nat, top: nat)
    requires c <= oldLevel && oldLevel * scale <= top
    ensures c * scale <= top
  {
    assert c * scale <= oldLevel * scale;
  }

  lemma SetLevelKeeps(s: Strip, level: u8)
    requires Bounded(s)
    ensures Bounded(SetLevel(s, level))
    ensures Level(SetLevel(s, level).stored) == level
    ensures Level(s.stored) == level ==> SetLevel(s, level) == s
  {
    LevelStored(level, s.stored);
    forall i | 0 <= i < |s.bytes|
      ensures SetLevel(s, level).bytes[i] <= level
    {
      RescaleBound(s.bytes[i], Level(s.stored), level);
    }
  }

  lemma SetColourKeeps(s: Strip, n: u16, c: Colour)
    requires WellFormed(s) && Bounded(s)
    ensures Bounded(SetColour(s, n, c))
  {
    ScaleBound(c.r, s.stored);
    ScaleBound(c.g, s.stored);
    ScaleBound(c.b, s.stored);
    ScaleBound(c.w, s.stored);
  }

  lemma {:induction false} FillRangeKeeps(s: Strip, c: Colour, first: nat, end: nat)
    requires WellFormed(s) && Bounded(s) && first <= end < 0x1_0000
    ensures Bounded(FillRange(s, c, first, end))
    decreases end - first
  {
    if first < end {
      FillRangeKeeps(s, c, first, end - 1);
      SetColourKeeps(FillRange(s, c, first, end - 1), end - 1, c);
    }
  }

  // The loss of a write-out-and-back at one level: never brighter, and less than two steps darker
  // once both are measured in 256ths of the level.
  lemma ScaleLoss(c: u8, k: u8)
    requires k != 0
    ensures Scale(c, k) * 256 / k <= c
    ensures k * (c - Scale(c, k) * 256 / k) <= 254 + k
  {
    var p := Scale(c, k);
    var g := p * 256 / k;
    assert p * 256 <= c * k < p * 256 + 256;
    assert g * k <= p * 256 < g * k + k;
    assert k * (c - g) == c * k - g * k;
  }

  // ---------------------------------------------------------------------------
  // Reading back
  // ---------------------------------------------------------------------------

  function BitOr(x: nat, y: nat): nat
    decreases x + y
  {
    if x == 0 then y else if y == 0 then x
    else 2 * BitOr(x / 2, y / 2) + (if x % 2 == 1 || y % 2 == 1 then 1 else 0)
  }

  function Pow2(n: nat): (p: nat)
    ensures p >= 1
  {
    if n == 0 then 1 else 2 * Pow2(n - 1)
  }

  lemma {:induction false} BitOrDisjoint(high: nat, low: nat, n: nat)
    requires low < Pow2(n)
    ensures BitOr(high * Pow2(n), low) == high * Pow2(n) + low
    decreases n
  {
    if n > 0 && high > 0 {
      var x := high * Pow2(n);
      assert x == 2 * (high * Pow2(n - 1));
      assert x > 0;
      if low > 0 {
        BitOrDisjoint(high, low / 2, n - 1);
      }
    }
  }

  // One channel scaled back towards the colour that was written.
  function Unscale(v: u8, k: u8): (c: u16) {
    if k == 0 then v else v * 256 / k
  }

  ghost function Channel(s: Strip, n: u16, off: nat): u8
    requires WellFormed(s) && n < s.numLEDs && off < s.order.Bytes()
  {
    PixelInside(s, n, off);
    s.bytes[n * s.order.Bytes() + off]
  }

  // The colour fields shifted into place and or-ed together in 32 bits.
  function Pack(w: nat, r: nat, g: nat, b: nat): nat {
    BitOr(BitOr(BitOr(Shifted(w, 0x100_0000), Shifted(r, 0x1_0000)), Shifted(g, 0x100)), b)
  }

  function Shifted(x: nat, unit: nat): u32 { x * unit % 0x1_0000_0000 }

  // Whatever the fields, the result is a 32-bit word.
  lemma PackIs32(w: nat, r: nat, g: nat, b: u32)
    ensures Pack(w, r, g, b) < 0x1_0000_0000
  {
    var white, red, green := Shifted(w, 0x100_0000), Shifted(r, 0x1_0000), Shifted(g, 0x100);
    OrIs32(white, red);
    OrIs32(BitOr(white, red), green);
    OrIs32(BitOr(BitOr(white, red), green), b);
  }

  lemma {:induction false} BitOrFits(x: nat, y: nat, n: nat)
    requires x < Pow2(n) && y < Pow2(n)
    ensures BitOr(x, y) < Pow2(n)
    decreases n
  {
    if x != 0 && y != 0 { BitOrFits(x / 2, y / 2, n - 1); }
  }

  lemma OrIs32(x: u32, y: u32)
    ensures 0 <= BitOr(x, y) < 0x1_0000_0000
  {
    Pow32();
    BitOrFits(x, y, 32);
  }

  lemma Pow32()
    ensures Pow2(32) == 0x1_0000_0000
  {
    assert Pow2(8) == 0x100;
    assert Pow2(16) == 0x1_0000;
    assert Pow2(24) == 0x100_0000;
  }

  ghost function PixelColour(s: Strip, n: u16): (c: u32)
    requires WellFormed(s)
  {
    if n >= s.numLEDs then 0
    else
      var k := s.stored;
      PackIs32(if s.order.HasWhite() then Unscale(Channel(s, n, s.order.w), k) else 0,
               Unscale(Channel(s, n, s.order.r), k),
               Unscale(Channel(s, n, s.order.g), k),
               Unscale(Channel(s, n, s.order.b), k));
      Pack(if s.order.HasWhite() then Unscale(Channel(s, n, s.order.w), k) else 0,
           Unscale(Channel(s, n, s.order.r), k),
           Unscale(Channel(s, n, s.order.g), k),
           Unscale(Channel(s, n, s.order.b), k))
  }

  lemma UnscaleFits(v: u8, k: u8)
    requires v <= Level(k)
    ensures Unscale(v, k) <= 255
  {
    if k != 0 {
      QuotientBelow(v * 256, k, 256);
    }
  }

  lemma QuotientBelow(a: nat, d: nat, m: nat)
    requires d > 0 && a < d * m
    ensures a / d < m
  {
    var q := a / d;
    assert a == d * q + a % d;
    assert d * q - d * m == d * (q - m);
    NegativeFactor(d, q - m);
  }

  lemma NegativeFactor(d: nat, x: int)
    requires d * x < 0
    ensures x < 0
  {}

  lemma Powers()
    ensures Pow2(8) == 0x100 && Pow2(16) == 0x1_0000 && Pow2(24) == 0x100_0000
  {
    assert Pow2(8) == 0x100;
    assert Pow2(16) == 0x1_0000;
  }

  // Fields below 256 do not overlap: or-ing is adding, and the pack can be taken apart again.
  lemma PackFits(w: nat, r: nat, g: nat, b: nat)
    requires w < 256 && r < 256 && g < 256 && b < 256
    ensures Pack(w, r, g, b) == w * 0x100_0000 + r * 0x1_0000 + g * 0x100 + b < 0x1_0000_0000
    ensures Unpack(Pack(w, r, g, b)) == Colour(r, g, b, w)
  {
    OrIsSum(w, r, g, b);
    TakeApart(w, r, g, b, Pack(w, r, g, b));
  }

  lemma OrIsSum(w: nat, r: nat, g: nat, b: nat)
    requires w < 256 && r < 256 && g < 256 && b < 256
    ensures Pack(w, r, g, b) == w * 0x100_0000 + r * 0x1_0000 + g * 0x100 + b
  {
    var wr := w * 0x100 + r;
    var wrg := wr * 0x100 + g;
    NoWrap(w, r, g);
    Powers();
    OrOver(w, r * 0x1_0000, 24, 0x100_0000, w * 0x100_0000);
    OrOver(wr, g * 0x100, 16, 0x1_0000, w * 0x100_0000 + r * 0x1_0000);
    OrOver(wrg, b, 8, 0x100, w * 0x100_0000 + r * 0x1_0000 + g * 0x100);
  }

  lemma NoWrap(w: nat, r: nat, g: nat)
    requires w < 256 && r < 256 && g < 256
    ensures w * 0x100_0000 % 0x1_0000_0000 == w * 0x100_0000
    ensures r * 0x1_0000 % 0x1_0000_0000 == r * 0x1_0000
    ensures g * 0x100 % 0x1_0000_0000 == g * 0x100
  {}

  lemma OrOver(high: nat, low: nat, n: nat, unit: nat, shifted: nat)
    requires unit == Pow2(n) && low < unit && shifted == high * unit
    ensures BitOr(shifted, low) == shifted + low
  {
    BitOrDisjoint(high, low, n);
  }

  lemma TakeApart(w: nat, r: nat, g: nat, b: nat, c: nat)
    requires w < 256 && r < 256 && g < 256 && b < 256
    requires c == w * 0x100_0000 + r * 0x1_0000 + g * 0x100 + b
    ensures c < 0x1_0000_0000 && Unpack(c) == Colour(r, g, b, w)
  {
    assert c / 0x100 == w * 0x1_0000 + r * 0x100 + g;
    assert c / 0x1_0000 == w * 0x100 + r;
  }

  ghost function WhiteOf(s: Strip, c: Colour): u8 { if s.order.HasWhite() then c.w else 0 }

  // A channel as it reads back; a strip without white reads 0 for it.
  ghost function ChannelRead(s: Strip, n: u16, off: nat): u16
    requires WellFormed(s) && n < s.numLEDs && off < s.order.Bytes()
  {
    Unscale(Channel(s, n, off), s.stored)
  }

  lemma ChannelFits(s: Strip, n: u16, off: nat)
    requires WellFormed(s) && Bounded(s) && n < s.numLEDs && off < s.order.Bytes()
    ensures ChannelRead(s, n, off) < 256
  {
    PixelInside(s, n, off);
    UnscaleFits(Channel(s, n, off), s.stored);
  }

  ghost function WhiteRead(s: Strip, n: u16): u16
    requires WellFormed(s) && n < s.numLEDs
  {
    if s.order.HasWhite() then ChannelRead(s, n, s.order.w) else 0
  }

  // Any pixel of any buffer within its level, rescaled any number of times or just written: the four fields
  // fit a byte each, so they do not overlap and the packed colour is taken apart into just them.
  lemma FieldsNeverOverlap(s: Strip, n: u16)
    requires WellFormed(s) && Bounded(s) && n < s.numLEDs
    ensures ChannelRead(s, n, s.order.r) < 256 && ChannelRead(s, n, s.order.g) < 256
    ensures ChannelRead(s, n, s.order.b) < 256 && WhiteRead(s, n) < 256
    ensures PixelColour(s, n) == WhiteRead(s, n) * 0x100_0000 + ChannelRead(s, n, s.order.r) * 0x1_0000
                                 + ChannelRead(s, n, s.order.g) * 0x100 + ChannelRead(s, n, s.order.b)
    ensures Unpack(PixelColour(s, n)) == Colour(ChannelRead(s, n, s.order.r), ChannelRead(s, n, s.order.g),
                                                ChannelRead(s, n, s.order.b), WhiteRead(s, n))
  {
    ChannelFits(s, n, s.order.r);
    ChannelFits(s, n, s.order.g);
    ChannelFits(s, n, s.order.b);
    ChannelFits(s, n, s.order.w);
    PackFits(WhiteRead(s, n), ChannelRead(s, n, s.order.r), ChannelRead(s, n, s.order.g),
             ChannelRead(s, n, s.order.b));
  }

  // What a pixel reads back as right after it was written.
  lemma ReadBack(s: Strip, n: u16, c: Colour)
    requires WellFormed(s) && Bounded(s) && n < s.numLEDs
    ensures var got := Unpack(PixelColour(SetColour(s, n, c), n));
            var k := s.stored;
            && Close(c.r, got.r, k) && Close(c.g, got.g, k) && Close(c.b, got.b, k)
            && Close(WhiteOf(s, c), got.w, k)
  {
    var t := SetColour(s, n, c);
    var k := s.stored;
    ChannelsWritten(s, n, c);
    ScaleClose(c.r, k);
    ScaleClose(c.g, k);
    ScaleClose(c.b, k);
    ScaleClose(c.w, k);
    PackFits(if s.order.HasWhite() then Unscale(Scale(c.w, k), k) else 0,
             Unscale(Scale(c.r, k), k), Unscale(Scale(c.g, k), k), Unscale(Scale(c.b, k), k));
  }

  // A channel written as c reads back as g: exactly at full brightness, never brighter at any other,
  // and darker by less than two steps of the level.
  ghost predicate Close(c: u8, g: u8, k: u8) {
    if k == 0 then g == c else g <= c && k * (c - g) <= 254 + k
  }

  lemma ScaleClose(c: u8, k: u8)
    ensures Unscale(Scale(c, k), k) < 256 && Close(c, Unscale(Scale(c, k), k), k)
  {
    ScaleBound(c, k);
    UnscaleFits(Scale(c, k), k);
    if k != 0 { ScaleLoss(c, k); }
  }

  lemma ChannelsWritten(s: Strip, n: u16, c: Colour)
    requires WellFormed(s) && n < s.numLEDs
    ensures var t := SetColour(s, n, c);
            && Channel(t, n, s.order.r) == Scale(c.r, s.stored)
            && Channel(t, n, s.order.g) == Scale(c.g, s.stored)
            && Channel(t, n, s.order.b) == Scale(c.b, s.stored)
            && (s.order.HasWhite() ==> Channel(t, n, s.order.w) == Scale(c.w, s.stored))
  {
    ChannelWritten(s, n, c, s.order.r);
    ChannelWritten(s, n, c, s.order.g);
    ChannelWritten(s, n, c, s.order.b);
    ChannelWritten(s, n, c, s.order.w);
  }

  lemma ChannelWritten(s: Strip, n: u16, c: Colour, off: nat)
    requires WellFormed(s) && n < s.numLEDs && off < s.order.Bytes()
    ensures Channel(SetColour(s, n, c), n, off) == Scale(Part(s.order, c, off), s.stored)
  {
    var k := s.stored;
    var white := if s.order.HasWhite() then Put(s, n, s.order.w, Scale(c.w, k)) else s;
    var red := Put(white, n, s.order.r, Scale(c.r, k));
    var green := Put(red, n, s.order.g, Scale(c.g, k));
    PutChannel(green, n, s.order.b, Scale(c.b, k), off);
    PutChannel(red, n, s.order.g, Scale(c.g, k), off);
    PutChannel(white, n, s.order.r, Scale(c.r, k), off);
    if s.order.HasWhite() { PutChannel(s, n, s.order.w, Scale(c.w, k), off); }
  }

  // The component that belongs at a byte offset.
  function Part(o: Order, c: Colour, off: nat): u8 {
    if off == o.b then c.b else if off == o.g then c.g else if off == o.r then c.r else c.w
  }

  lemma PutChannel(s: Strip, n: u16, off: nat, v: u8, other: nat)
    requires WellFormed(s) && n < s.numLEDs && off < s.order.Bytes() && other < s.order.Bytes()
    ensures Channel(Put(s, n, off, v), n, other) == if other == off then v else Channel(s, n, other)
  {
    PixelInside(s, n, off);
    PixelInside(s, n, other);
  }

  // Writing one pixel leaves every other pixel as it was.
  lemma OthersKept(s: Strip, n: u16, c: Colour, m: u16)
    requires WellFormed(s) && n < s.numLEDs && m < s.numLEDs && m != n
    ensures PixelColour(SetColour(s, n, c), m) == PixelColour(s, m)
  {
    var t := SetColour(s, n, c);
    forall off: nat | off < s.order.Bytes()
      ensures Channel(t, m, off) == Channel(s, m, off)
    {
      PixelsApart(s, n, m);
      PixelInside(s, m, off);
    }
  }

  lemma PixelsApart(s: Strip, n: u16, m: u16)
    requires m != n
    ensures m * s.order.Bytes() + s.order.Bytes() <= n * s.order.Bytes()
         || n * s.order.Bytes() + s.order.Bytes() <= m * s.order.Bytes()
  {
  }

  // ---------------------------------------------------------------------------
  // The driver object
  // ---------------------------------------------------------------------------

  class Adafruit_NeoPixel {
    const order: Order
    var brightness: u8
    var numLEDs: u16
    var pixels: array<u8>

    ghost predicate Valid()
      reads this, pixels
    {
      WellFormed(View())
    }

    ghost function View(): Strip
      reads this, pixels
    {
      Strip(order, brightness, numLEDs, pixels[..])
    }

    // `granted` says whether the allocator had room.
    constructor (n: u16, order: Order, granted: bool)
      requires order.Valid() && n * order.Bytes() < 0x1_0000
      ensures Valid() && fresh(pixels)
      ensures View() == Resized(Strip(order, 0, 0, []), n, granted) && Bounded(View())
    {
      this.order := order;
      brightness := 0;
      numLEDs := if granted then n else 0;
      pixels := new u8[if granted then n * order.Bytes() else 0](i => 0);
      new;
      assert pixels[..] == Dark(if granted then n * order.Bytes() else 0);
    }

    method UpdateLength(n: u16, granted: bool)
      requires Valid() && n * order.Bytes() < 0x1_0000
      modifies this
      ensures Valid() && fresh(pixels) && View() == Resized(old(View()), n, granted)
    {
      if granted {
        numLEDs := n;
        pixels := new u8[n * order.Bytes()](i => 0);
        assert pixels[..] == Dark(n * order.Bytes());
      } else {
        numLEDs := 0;
        pixels := new u8[0];
      }
    }

    // Base of a pixel and place of one of its channels.
    function At(n: u16, off: nat): nat { n * order.Bytes() + off }

    method Write(n: u16, off: nat, v: u8)
      requires Valid() && n < numLEDs && off < order.Bytes()
      modifies pixels
      ensures Valid() && View() == Put(old(View()), n, off, v)
    {
      PixelInside(View(), n, off);
      pixels[At(n, off)] := v;
    }

    method Read(n: u16, off: nat) returns (v: u8)
      requires Valid() && n < numLEDs && off < order.Bytes()
      ensures v == Channel(View(), n, off)
    {
      PixelInside(View(), n, off);
      v := pixels[At(n, off)];
    }

    // Red, green and blue; a white channel is set to zero.
    method SetPixelColorRGB(n: u16, r: u8, g: u8, b: u8)
      requires Valid()
      modifies pixels
      ensures Valid() && View() == SetColour(old(View()), n, Colour(r, g, b, 0))
    {
      SetPixelColorRGBW(n, r, g, b, 0);
    }

    method SetPixelColorRGBW(n: u16, r: u8, g: u8, b: u8, w: u8)
      requires Valid()
      modifies pixels
      ensures Valid() && View() == SetColour(old(View()), n, Colour(r, g, b, w))
    {
      if n < numLEDs {
        var red, green, blue, white := r, g, b, w;
        if brightness != 0 {
          red, green, blue, white :=
            r * brightness / 256, g * brightness / 256, b * brightness / 256, w * brightness / 256;
        }
        if order.HasWhite() {
          Write(n, order.w, white);
        }
        Write(n, order.r, red);
        Write(n, order.g, green);
        Write(n, order.b, blue);
      }
    }

    method SetPixelColor(n: u16, c: u32)
      requires Valid()
      modifies pixels
      ensures Valid() && View() == SetColour(old(View()), n, Unpack(c))
    {
      SetPixelColorRGBW(n, c / 0x1_0000 % 0x100, c / 0x100 % 0x100, c % 0x100, c / 0x100_0000);
    }

    // A count of zero fills to the end of the strip. The end is a 16-bit sum.
    method Fill(c: u32, first: u16, count: u16)
      requires Valid()
      modifies pixels
      ensures Valid() && View() == Filled(old(View()), c, first, count)
    {
      if first >= numLEDs { return; }
      var end := FillEnd(numLEDs, first, count);
      if end <= first { return; }
      ghost var was := View();
      var i: int := first;
      while i < end
        invariant first <= i <= end
        invariant WellFormed(View()) && View() == FillRange(was, Unpack(c), first, i)
      {
        FillRangeNext(was, Unpack(c), first, i);
        SetPixelColor(i, c);
        i := i + 1;
      }
    }

    method SetBrightness(b: u8)
      requires Valid()
      modifies `brightness, pixels
      ensures Valid() && View() == SetLevel(old(View()), b)
    {
      var newBrightness: u8 := (b + 1) % 256;
      if newBrightness != brightness {
        var scale := RescaleFactor(Level(brightness), b);
        ghost var was := pixels[..];
        for i := 0 to pixels.Length
          invariant forall j :: 0 <= j < i ==> pixels[j] == Rescale(was[j], scale)
          invariant forall j :: i <= j < pixels.Length ==> pixels[j] == was[j]
        {
          var c := pixels[i];
          pixels[i] := c * scale / 256 % 256;
        }
        assert pixels[..] == RescaleAll(was, scale);
        brightness := newBrightness;
      }
    }

    method Clear()
      requires Valid()
      modifies pixels
      ensures Valid() && View() == Cleared(old(View()))
    {
      for i := 0 to pixels.Length
        invariant forall j :: 0 <= j < i ==> pixels[j] == 0
      {
        pixels[i] := 0;
      }
      assert pixels[..] == Cleared(old(View())).bytes;
    }

    method GetPixelColor(n: u16) returns (c: u32)
      requires Valid()
      ensures c == PixelColour(View(), n)
    {
      if n >= numLEDs { return 0; }
      var r := Read(n, order.r);
      var g := Read(n, order.g);
      var b := Read(n, order.b);
      var w: u8 := 0;
      if order.HasWhite() {
        w := Read(n, order.w);
      }
      if brightness != 0 {
        PackIs32(Unscale(w, brightness), Unscale(r, brightness), Unscale(g, brightness), Unscale(b, brightness));
        c := Pack(w * 256 / brightness, r * 256 / brightness, g * 256 / brightness, b * 256 / brightness);
      } else {
        PackIs32(w, r, g, b);
        c := Pack(w, r, g, b);
      }
    }
  }

  // One past the last pixel of a fill.
  function FillEnd(numLEDs: u16, first: u16, count: u16): u16 {
    if count == 0 then numLEDs
    else if (first + count) % 0x1_0000 > numLEDs then numLEDs
    else (first + count) % 0x1_0000
  }

  ghost function Filled(s: Strip, c: u32, first: u16, count: u16): (t: Strip)
    requires WellFormed(s)
    ensures WellFormed(t) && t == s.(bytes := t.bytes)
  {
    if first >= s.numLEDs || FillEnd(s.numLEDs, first, count) <= first then s
    else FillRange(s, Unpack(c), first, FillEnd(s.numLEDs, first, count))
  }
}
