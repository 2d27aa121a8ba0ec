/** Up to four LED strips under three brightness multipliers: one for all strips, one per strip, and
    one for the eye blink. */
module LedController {
  import opened NeoPixel
  import opened Prelude

  const MAX_STRIPS := 4

  // Strips are wired green, red, blue without white.
  const GRB := Order(1, 0, 2, 1)

  datatype Leds = Leds(strips: seq<Strip>, dims: seq<u8>, global: u8, blink: u8)

  ghost predicate Shaped(l: Leds) {
    && |l.strips| <= MAX_STRIPS
    && |l.dims| == MAX_STRIPS
    && forall s <- l.strips :: WellFormed(s)
  }

  // The product of the three multipliers, each in 255ths.
  function Effective(global: u8, dim: u8, blink: u8): (e: u8) {
    EffectiveFits(global, dim, blink);
    global * dim * blink / (255 * 255)
  }

  lemma EffectiveFits(global: u8, dim: u8, blink: u8)
    ensures 0 <= global * dim * blink < 0x1_0000_0000
    ensures 0 <= global * dim * blink / (255 * 255) <= 255
  {
    ProductBound(global, dim, 255, 255);
    ProductBound(global * dim, blink, 255 * 255, 255);
  }

  lemma ProductBound(a: nat, b: nat, m: nat, n: nat)
    requires a <= m && b <= n
    ensures 0 <= a * b <= m * n
  {
    assert a * b <= m * b <= m * n;
  }

  datatype Call =
    | Begin(counts: seq<u16>)
    | SetPixel(strip: nat, pixel: u32, c: Colour)
    | Fill(strip: nat, c: Colour)
    | FillHSV(strip: nat, packed: u32)  // the packed colour of the hue, saturation and value
    | Clear(strip: nat)
    | SetPixelGlobal(index: u32, c: Colour)
    | SetPixelGlobalHSV(index: u32, packed: u32)
    | SetBrightness(level: u8)
    | SetStripDim(strip: nat, dim: u8)
    | SetBlinkLevel(level: u8)

  ghost predicate CallOk(c: Call) {
    c.Begin? ==> forall n <- c.counts :: n * 3 < 0x1_0000
  }

  ghost function ApplyTo(l: Leds, i: nat): (r: Leds)
    requires Shaped(l)
    ensures Shaped(r)
  {
    if i >= |l.strips| then l
    else l.(strips := l.strips[i := SetLevel(l.strips[i], Effective(l.global, l.dims[i], l.blink))])
  }

  // Every strip below n.
  ghost function ApplyBelow(l: Leds, n: nat): (r: Leds)
    requires Shaped(l) && n <= |l.strips|
    ensures Shaped(r) && r == l.(strips := r.strips) && |r.strips| == |l.strips|
    decreases n
  {
    if n == 0 then l else ApplyTo(ApplyBelow(l, n - 1), n - 1)
  }

  function Blank(n: u16): Strip
    requires n * 3 < 0x1_0000
  {
    Strip(GRB, 0, n, Dark(n * 3))
  }

  function Grant(n: u16, granted: bool): u16 { if granted then n else 0 }

  function Grants(counts: seq<u16>, granted: seq<bool>): (r: seq<u16>)
    requires |granted| == |counts|
    ensures |r| == |counts| && forall i :: 0 <= i < |r| ==> r[i] == Grant(counts[i], granted[i])
  {
    seq(|counts|, i requires 0 <= i < |counts| => Grant(counts[i], granted[i]))
  }

  lemma GrantsAreOk(counts: seq<u16>, granted: seq<bool>)
    requires CallOk(Begin(counts)) && |granted| == |counts|
    ensures CallOk(Begin(Grants(counts, granted)))
  {
    forall n | n in Grants(counts, granted)
      ensures n * 3 < 0x1_0000
    {
      var i :| 0 <= i < |counts| && Grants(counts, granted)[i] == n;
      assert counts[i] in counts;
    }
  }

  // The first n strips, created and brought to their level one after the other.
  ghost function Started(l: Leds, counts: seq<u16>, n: nat): (r: Leds)
    requires Shaped(l) && CallOk(Begin(counts)) && n <= |counts| && n <= MAX_STRIPS
    ensures Shaped(r) && |r.strips| == n && r.global == l.global && r.blink == l.blink
    decreases n
  {
    if n == 0 then l.(strips := [])
    else
      var p := Started(l, counts, n - 1);
      assert counts[n - 1] in counts;
      ApplyTo(p.(strips := p.strips + [Blank(counts[n - 1])], dims := p.dims[n - 1 := 255]), n - 1)
  }

  lemma StartedNext(l: Leds, counts: seq<u16>, n: nat)
    requires Shaped(l) && CallOk(Begin(counts)) && n < |counts| && n < MAX_STRIPS
    ensures counts[n] in counts
    ensures var p := Started(l, counts, n);
            Started(l, counts, n + 1) == ApplyTo(p.(strips := p.strips + [Blank(counts[n])],
                dims := p.dims[n := 255]), n)
  {
  }

  ghost function WithStrip(l: Leds, i: nat, s: Strip): Leds
    requires i < |l.strips|
  {
    l.(strips := l.strips[i := s])
  }

  // The strip and the pixel on it of a flattened index, from strip i on.
  function Resolve(counts: seq<u16>, i: nat, index: nat): (r: (bool, nat, nat))
    requires i <= |counts|
    ensures r.0 ==> i <= r.1 < |counts| && r.2 < counts[r.1]
    decreases |counts| - i
  {
    if i == |counts| then (false, 0, 0)
    else if index < counts[i] then (true, i, index)
    else Resolve(counts, i + 1, index - counts[i])
  }

  function Counts(strips: seq<Strip>): (n: seq<u16>)
    ensures |n| == |strips|
  {
    seq(|strips|, i requires 0 <= i < |strips| => strips[i].numLEDs)
  }

  function Total(counts: seq<u16>): nat
    decreases |counts|
  {
    if counts == [] then 0 else counts[0] + Total(counts[1..])
  }

  ghost function DoBegin(l: Leds, counts: seq<u16>): (r: Leds)
    requires Shaped(l) && CallOk(Begin(counts))
    ensures Shaped(r)
  {
    Started(l, counts, if |counts| > MAX_STRIPS then MAX_STRIPS else |counts|)
  }

  ghost function DoSetPixel(l: Leds, s: nat, p: u32, c: Colour): (r: Leds)
    requires Shaped(l)
    ensures Shaped(r)
  {
    if s < |l.strips| && p < l.strips[s].numLEDs then WithStrip(l, s, SetColour(l.strips[s], p, c)) else l
  }

  ghost function DoFill(l: Leds, s: nat, c: Colour): (r: Leds)
    requires Shaped(l)
    ensures Shaped(r)
  {
    if s >= |l.strips| then l else WithStrip(l, s, FillRange(l.strips[s], c, 0, l.strips[s].numLEDs))
  }

  ghost function DoClear(l: Leds, s: nat): (r: Leds)
    requires Shaped(l)
    ensures Shaped(r)
  {
    if s >= |l.strips| then l else WithStrip(l, s, Cleared(l.strips[s]))
  }

  ghost function DoSetPixelGlobal(l: Leds, index: u32, c: Colour): (r: Leds)
    requires Shaped(l)
    ensures Shaped(r)
  {
    var (found, s, p) := Resolve(Counts(l.strips), 0, index);
    if found then DoSetPixel(l, s, p, c) else l
  }

  ghost function DoSetBrightness(l: Leds, level: u8): (r: Leds)
    requires Shaped(l)
    ensures Shaped(r)
  {
    ApplyBelow(l.(global := level), |l.strips|)
  }

  ghost function DoSetStripDim(l: Leds, s: nat, dim: u8): (r: Leds)
    requires Shaped(l)
    ensures Shaped(r)
  {
    if s < MAX_STRIPS then ApplyTo(l.(dims := l.dims[s := dim]), s) else l
  }

  // A repeated level touches nothing.
  ghost function DoSetBlinkLevel(l: Leds, level: u8): (r: Leds)
    requires Shaped(l)
    ensures Shaped(r)
  {
    if level == l.blink then l else ApplyBelow(l.(blink := level), |l.strips|)
  }

  ghost function Do(l: Leds, c: Call): (r: Leds)
    requires Shaped(l) && CallOk(c)
    ensures Shaped(r)
  {
    match c
    case Begin(counts) => DoBegin(l, counts)
    case SetPixel(s, p, c) => DoSetPixel(l, s, p, c)
    case Fill(s, c) => DoFill(l, s, c)
    case FillHSV(s, packed) => DoFill(l, s, Unpack(packed))
    case Clear(s) => DoClear(l, s)
    case SetPixelGlobal(index, c) => DoSetPixelGlobal(l, index, c)
    case SetPixelGlobalHSV(index, packed) => DoSetPixelGlobal(l, index, Unpack(packed))
    case SetBrightness(level) => DoSetBrightness(l, level)
    case SetStripDim(s, dim) => DoSetStripDim(l, s, dim)
    case SetBlinkLevel(level) => DoSetBlinkLevel(l, level)
  }

  ghost function Run(l: Leds, calls: seq<Call>): (r: Leds)
    requires Shaped(l) && forall c <- calls :: CallOk(c)
    ensures Shaped(r)
    decreases |calls|
  {
    if calls == [] then l else Run(Do(l, calls[0]), calls[1..])
  }

  // ---------------------------------------------------------------------------
  // Every strip shows the product of the multipliers, and no byte above it
  // ---------------------------------------------------------------------------

  ghost predicate AtLevel(l: Leds, i: nat)
    requires Shaped(l) && i < |l.strips|
  {
    && Level(l.strips[i].stored) == Effective(l.global, l.dims[i], l.blink)
    && Bounded(l.strips[i])
  }

  ghost predicate Inv(l: Leds) {
    Shaped(l) && forall i :: 0 <= i < |l.strips| ==> AtLevel(l, i)
  }

  lemma ApplyReaches(l: Leds, i: nat)
    requires Shaped(l) && i < |l.strips| && Bounded(l.strips[i])
    ensures AtLevel(ApplyTo(l, i), i)
    ensures forall j | 0 <= j < |l.strips| && j != i :: ApplyTo(l, i).strips[j] == l.strips[j]
  {
    SetLevelKeeps(l.strips[i], Effective(l.global, l.dims[i], l.blink));
  }

  lemma {:induction false} ApplyBelowReaches(l: Leds, n: nat)
    requires Shaped(l) && n <= |l.strips|
    requires forall i :: 0 <= i < |l.strips| ==> Bounded(l.strips[i])
    ensures forall i :: 0 <= i < n ==> AtLevel(ApplyBelow(l, n), i)
    ensures forall i :: n <= i < |l.strips| ==> ApplyBelow(l, n).strips[i] == l.strips[i]
    decreases n
  {
    if n > 0 {
      ApplyBelowReaches(l, n - 1);
      var p := ApplyBelow(l, n - 1);
      ApplyReaches(p, n - 1);
      var q := ApplyTo(p, n - 1);
      forall i | 0 <= i < n
        ensures AtLevel(q, i)
      {
        if i < n - 1 { assert AtLevel(p, i); }
      }
    }
  }

  lemma {:induction false} StartedAtLevel(l: Leds, counts: seq<u16>, n: nat)
    requires Shaped(l) && CallOk(Begin(counts)) && n <= |counts| && n <= MAX_STRIPS
    ensures Inv(Started(l, counts, n))
    decreases n
  {
    if n > 0 {
      StartedAtLevel(l, counts, n - 1);
      var p := Started(l, counts, n - 1);
      assert counts[n - 1] in counts;
      var q := p.(strips := p.strips + [Blank(counts[n - 1])], dims := p.dims[n - 1 := 255]);
      assert forall i :: 0 <= i < n - 1 ==> AtLevel(p, i) && q.strips[i] == p.strips[i];
      ApplyReaches(q, n - 1);
    }
  }

  lemma WithStripKeeps(l: Leds, i: nat, s: Strip)
    requires Inv(l) && i < |l.strips|
    requires WellFormed(s) && Bounded(s) && s.stored == l.strips[i].stored
    ensures Inv(WithStrip(l, i, s))
  {
    assert AtLevel(l, i);
    forall j | 0 <= j < |l.strips|
      ensures AtLevel(WithStrip(l, i, s), j)
    {
      assert AtLevel(l, j);
    }
  }

  lemma SetPixelKeeps(l: Leds, s: nat, p: u32, c: Colour)
    requires Inv(l)
    ensures Inv(DoSetPixel(l, s, p, c))
  {
    if s < |l.strips| && p < l.strips[s].numLEDs {
      assert AtLevel(l, s);
      SetColourKeeps(l.strips[s], p, c);
      WithStripKeeps(l, s, SetColour(l.strips[s], p, c));
    }
  }

  lemma FillKeeps(l: Leds, s: nat, c: Colour)
    requires Inv(l)
    ensures Inv(DoFill(l, s, c))
  {
    if s < |l.strips| {
      assert AtLevel(l, s);
      FillRangeKeeps(l.strips[s], c, 0, l.strips[s].numLEDs);
      WithStripKeeps(l, s, FillRange(l.strips[s], c, 0, l.strips[s].numLEDs));
    }
  }

  lemma LevelsKeep(l: Leds, global: u8, blink: u8)
    requires Inv(l)
    ensures Inv(ApplyBelow(l.(global := global, blink := blink), |l.strips|))
  {
    forall i | 0 <= i < |l.strips|
      ensures Bounded(l.strips[i])
    {
      assert AtLevel(l, i);
    }
    ApplyBelowReaches(l.(global := global, blink := blink), |l.strips|);
  }

  lemma DimKeeps(l: Leds, s: nat, dim: u8)
    requires Inv(l)
    ensures Inv(DoSetStripDim(l, s, dim))
  {
    if s < MAX_STRIPS {
      var m := l.(dims := l.dims[s := dim]);
      forall i | 0 <= i < |l.strips|
        ensures AtLevel(ApplyTo(m, s), i)
      {
        assert AtLevel(l, i);
        if s < |l.strips| { assert AtLevel(l, s); ApplyReaches(m, s); }
        if i != s { assert AtLevel(m, i); }
      }
    }
  }

  lemma ClearKeeps(l: Leds, s: nat)
    requires Inv(l)
    ensures Inv(DoClear(l, s))
  {
    if s < |l.strips| {
      assert AtLevel(l, s);
      WithStripKeeps(l, s, Cleared(l.strips[s]));
    }
  }

  lemma GlobalKeeps(l: Leds, index: u32, c: Colour)
    requires Inv(l)
    ensures Inv(DoSetPixelGlobal(l, index, c))
  {
    var (found, s, p) := Resolve(Counts(l.strips), 0, index);
    if found { SetPixelKeeps(l, s, p, c); }
  }

  lemma DoKeeps(l: Leds, c: Call)
    requires Inv(l) && CallOk(c)
    ensures Inv(Do(l, c))
  {
    match c
    case Begin(counts) => StartedAtLevel(l, counts, if |counts| > MAX_STRIPS then MAX_STRIPS else |counts|);
    case SetPixel(s, p, c) => SetPixelKeeps(l, s, p, c);
    case Fill(s, c) => FillKeeps(l, s, c);
    case FillHSV(s, packed) => FillKeeps(l, s, Unpack(packed));
    case Clear(s) => ClearKeeps(l, s);
    case SetPixelGlobal(index, c) => GlobalKeeps(l, index, c);
    case SetPixelGlobalHSV(index, packed) => GlobalKeeps(l, index, Unpack(packed));
    case SetBrightness(level) => LevelsKeep(l, level, l.blink);
    case SetStripDim(s, dim) => DimKeeps(l, s, dim);
    case SetBlinkLevel(level) => LevelsKeep(l, l.global, level);
  }

  // Over any run of calls.
  lemma {:induction false} RunKeeps(l: Leds, calls: seq<Call>)
    requires Inv(l) && forall c <- calls :: CallOk(c)
    ensures Inv(Run(l, calls))
    decreases |calls|
  {
    if calls != [] {
      DoKeeps(l, calls[0]);
      RunKeeps(Do(l, calls[0]), calls[1..]);
    }
  }

  // The power-on state: no strips yet, brightness 200, no blink in progress.
  function Initial(): Leds { Leds([], [0, 0, 0, 0], 200, 255) }

  // What a viewer sees: after any run from power-on, strip i has brightness global * dim * blink / 255^2,
  // no byte in its buffer is above that, and the next change of any multiplier rescales every byte
  // without loss of high bits.
  lemma StripsShowTheProduct(calls: seq<Call>, i: nat, level: u8)
    requires forall c <- calls :: CallOk(c)
    requires i < |Run(Initial(), calls).strips|
    ensures var l := Run(Initial(), calls);
            var s := l.strips[i];
            var e := l.global * l.dims[i] * l.blink / (255 * 255);
            && Level(s.stored) == e
            && (forall j :: 0 <= j < |s.bytes| ==> s.bytes[j] <= e)
            && (forall j :: 0 <= j < |s.bytes| ==> s.bytes[j] * RescaleFactor(e, level) / 256 <= level)
  {
    RunKeeps(Initial(), calls);
    var l := Run(Initial(), calls);
    assert AtLevel(l, i);
    var s := l.strips[i];
    forall j | 0 <= j < |s.bytes|
      ensures s.bytes[j] * RescaleFactor(Level(s.stored), level) / 256 <= level
    {
      RescaleBound(s.bytes[j], Level(s.stored), level);
    }
  }

  // And what a reader gets: after any run from power-on, however often a strip was rescaled, the four fields of
  // every pixel fit a byte each, so they never overlap, and the packed colour is taken apart into just them.
  lemma EveryPixelReadsBack(calls: seq<Call>, i: nat, n: u16)
    requires forall c <- calls :: CallOk(c)
    requires i < |Run(Initial(), calls).strips| && n < Run(Initial(), calls).strips[i].numLEDs
    ensures var s := Run(Initial(), calls).strips[i];
            && WellFormed(s)
            && ChannelRead(s, n, s.order.r) < 256 && ChannelRead(s, n, s.order.g) < 256
            && ChannelRead(s, n, s.order.b) < 256 && WhiteRead(s, n) < 256
            && Unpack(PixelColour(s, n)) == Colour(ChannelRead(s, n, s.order.r), ChannelRead(s, n, s.order.g),
                                                   ChannelRead(s, n, s.order.b), WhiteRead(s, n))
  {
    RunKeeps(Initial(), calls);
    assert AtLevel(Run(Initial(), calls), i);
    FieldsNeverOverlap(Run(Initial(), calls).strips[i], n);
  }

  // ---------------------------------------------------------------------------
  // The flattened index space
  // ---------------------------------------------------------------------------

  lemma {:induction false} TotalSplit(counts: seq<u16>, i: nat)
    requires i < |counts|
    ensures Total(counts[..i + 1]) == Total(counts[..i]) + counts[i]
    ensures Total(counts[..i + 1]) <= Total(counts)
    decreases i
  {
    assert counts[..i + 1][1..] == counts[1..][..i];
    if i == 0 {
      assert counts[..1][1..] == [];
    } else {
      assert counts[..i][1..] == counts[1..][..i - 1];
      TotalSplit(counts[1..], i - 1);
    }
  }

  // An index resolves exactly when it is below the total, and to the place that many pixels in.
  lemma {:induction false} ResolveIsPosition(counts: seq<u16>, i: nat, index: nat)
    requires i <= |counts|
    ensures var (found, s, p) := Resolve(counts, i, index);
            && (found <==> Total(counts[..i]) + index < Total(counts))
            && (found ==> Total(counts[..i]) + index == Total(counts[..s]) + p)
    decreases |counts| - i
  {
    if i == |counts| {
      assert counts[..i] == counts;
    } else {
      TotalSplit(counts, i);
      if index >= counts[i] {
        ResolveIsPosition(counts, i + 1, index - counts[i]);
      }
    }
  }

  lemma FillStep(l: Leds, s: nat, c: Colour, i: nat)
    requires Shaped(l) && s < |l.strips| && i < l.strips[s].numLEDs
    ensures Shaped(WithStrip(l, s, FillRange(l.strips[s], c, 0, i)))
    ensures DoSetPixel(WithStrip(l, s, FillRange(l.strips[s], c, 0, i)), s, i, c)
         == WithStrip(l, s, FillRange(l.strips[s], c, 0, i + 1))
  {}

  // ---------------------------------------------------------------------------
  // The module's state
  // ---------------------------------------------------------------------------

  class Controller {
    var strips: seq<Adafruit_NeoPixel>
    var dims: seq<u8>
    var global: u8
    var blink: u8

    ghost predicate Valid()
      reads this, set s | s in strips, set s | s in strips :: s.pixels
    {
      && |strips| <= MAX_STRIPS
      && |dims| == MAX_STRIPS
      && (forall i :: 0 <= i < |strips| ==> strips[i].Valid())
      && (forall i, j :: 0 <= i < j < |strips| ==> strips[i] != strips[j] && strips[i].pixels != strips[j].pixels)
    }

    ghost function View(): (l: Leds)
      reads this, set s | s in strips, set s | s in strips :: s.pixels
      ensures Valid() ==> Shaped(l)
    {
      Leds(Views(strips), dims, global, blink)
    }

    constructor ()
      ensures Valid() && strips == [] && View() == Initial()
    {
      strips := [];
      dims := [0, 0, 0, 0];
      global := 200;
      blink := 255;
    }

    // A change inside strip i is a change of strip i alone.
    twostate lemma OneStripChanged(i: nat)
      requires old(Valid()) && unchanged(this) && i < |strips|
      requires strips[i].Valid() && strips[i].pixels == old(strips[i].pixels)
      requires forall j | 0 <= j < |strips| && j != i :: unchanged(strips[j]) && unchanged(strips[j].pixels)
      ensures Valid() && View() == WithStrip(old(View()), i, strips[i].View())
    {
      forall j | 0 <= j < |strips| && j != i
        ensures strips[j].View() == old(strips[j].View()) && strips[j].Valid()
      {
      }
    }

    method ApplyStripBrightness(i: nat)
      requires Valid()
      modifies set s | s in strips, set s | s in strips :: s.pixels
      ensures Valid() && strips == old(strips) && View() == ApplyTo(old(View()), i)
      ensures forall s | s in strips :: s.pixels == old(s.pixels)
    {
      if i < |strips| {
        EffectiveFits(global, dims[i], blink);
        strips[i].SetBrightness(global * dims[i] * blink / (255 * 255));
        OneStripChanged(i);
      }
    }

    static method NewStrip(n: u16, granted: bool) returns (strip: Adafruit_NeoPixel)
      requires n * 3 < 0x1_0000
      ensures fresh(strip) && fresh(strip.pixels) && strip.Valid()
      ensures strip.View() == Blank(Grant(n, granted))
    {
      strip := new Adafruit_NeoPixel(n, GRB, granted);
    }

    twostate lemma StripAdded(new strip: Adafruit_NeoPixel)
      requires old(Valid()) && old(|strips|) < MAX_STRIPS && strips == old(strips) + [strip]
      requires dims == old(dims)[old(|strips|) := 255] && global == old(global) && blink == old(blink)
      requires fresh(strip) && fresh(strip.pixels) && strip.Valid()
      requires forall s | s in old(strips) :: unchanged(s) && unchanged(s.pixels)
      ensures Valid()
      ensures View() == old(View()).(strips := old(View().strips) + [strip.View()], dims := dims)
    {
      forall i | 0 <= i < |old(strips)|
        ensures strips[i] == old(strips)[i] && strips[i].Valid() && strips[i].View() == old(strips[i].View())
      {
        assert old(strips)[i] in old(strips);
      }
      assert Views(strips) == old(Views(strips)) + [strip.View()];
    }

    // The body of begin's loop: one more strip.
    method AddStrip(n: u16, granted: bool)
      requires Valid() && |strips| < MAX_STRIPS && n * 3 < 0x1_0000
      modifies this`strips, this`dims
      ensures Valid() && |strips| == old(|strips|) + 1 && strips[..old(|strips|)] == old(strips)
      ensures fresh(strips[old(|strips|)]) && fresh(strips[old(|strips|)].pixels)
      ensures View() == old(View()).(strips := old(View().strips) + [Blank(Grant(n, granted))],
                                     dims := old(dims)[old(|strips|) := 255])
    {
      dims := dims[|strips| := 255];
      var strip := NewStrip(n, granted);
      strips := strips + [strip];
      StripAdded(strip);
    }

    // The body of begin's loop.
    method BeginStrip(n: u16, granted: bool)
      requires Valid() && |strips| < MAX_STRIPS && n * 3 < 0x1_0000
      modifies this`strips, this`dims, set s | s in strips, set s | s in strips :: s.pixels
      ensures Valid() && |strips| == old(|strips|) + 1 && strips[..old(|strips|)] == old(strips)
      ensures fresh(strips[old(|strips|)]) && fresh(strips[old(|strips|)].pixels)
      ensures forall s | s in old(strips) :: s.pixels == old(s.pixels)
      ensures View() == ApplyTo(old(View()).(strips := old(View().strips) + [Blank(Grant(n, granted))],
                                             dims := old(dims)[old(|strips|) := 255]),
                                old(|strips|))
    {
      AddStrip(n, granted);
      ApplyStripBrightness(|strips| - 1);
    }

    // Where the allocator has no room, a strip ends up with no pixels.
    method Begin(counts: seq<u16>, granted: seq<bool>)
      requires Valid() && CallOk(Call.Begin(counts)) && |granted| == |counts|
      modifies this
      ensures Valid() && CallOk(Call.Begin(Grants(counts, granted)))
      ensures View() == DoBegin(old(View()), Grants(counts, granted))
    {
      var n := if |counts| > MAX_STRIPS then MAX_STRIPS else |counts|;
      ghost var was, got := View(), Grants(counts, granted);
      GrantsAreOk(counts, granted);
      strips := [];
      for i := 0 to n
        invariant Valid() && |strips| == i
        invariant View() == Started(was, got, i)
        invariant forall s | s in strips :: fresh(s) && fresh(s.pixels)
      {
        assert counts[i] in counts;
        StartedNext(was, got, i);
        BeginStrip(counts[i], granted[i]);
      }
    }

    // Brings every strip to its level.
    method ApplyAll()
      requires Valid()
      modifies set s | s in strips, set s | s in strips :: s.pixels
      ensures Valid() && strips == old(strips) && View() == ApplyBelow(old(View()), |strips|)
      ensures forall s | s in strips :: s.pixels == old(s.pixels)
    {
      for i := 0 to |strips|
        invariant Valid() && strips == old(strips)
        invariant View() == ApplyBelow(old(View()), i)
        invariant forall s | s in strips :: s.pixels == old(s.pixels)
      {
        ApplyStripBrightness(i);
      }
    }

    method SetBrightness(level: u8)
      requires Valid()
      modifies this`global, set s | s in strips, set s | s in strips :: s.pixels
      ensures Valid() && View() == DoSetBrightness(old(View()), level)
    {
      global := level;
      assert Valid() && View() == old(View()).(global := level);
      ApplyAll();
    }

    method SetStripDim(strip: nat, dim: u8)
      requires Valid()
      modifies this`dims, set s | s in strips, set s | s in strips :: s.pixels
      ensures Valid() && View() == DoSetStripDim(old(View()), strip, dim)
    {
      if strip < MAX_STRIPS {
        dims := dims[strip := dim];
        assert Valid() && View() == old(View()).(dims := dims);
        ApplyStripBrightness(strip);
      }
    }

    method SetBlinkLevel(level: u8)
      requires Valid()
      modifies this`blink, set s | s in strips, set s | s in strips :: s.pixels
      ensures Valid() && View() == DoSetBlinkLevel(old(View()), level)
    {
      if level == blink { return; }
      blink := level;
      assert Valid() && View() == old(View()).(blink := level);
      ApplyAll();
    }

    method SetPixel(strip: nat, pixel: u32, c: Colour)
      requires Valid()
      modifies set s | s in strips, set s | s in strips :: s.pixels
      ensures Valid() && strips == old(strips) && View() == DoSetPixel(old(View()), strip, pixel, c)
      ensures forall s | s in strips :: s.pixels == old(s.pixels)
    {
      if strip < |strips| && pixel < strips[strip].numLEDs {
        strips[strip].SetPixelColorRGBW(pixel, c.r, c.g, c.b, c.w);
        OneStripChanged(strip);
      }
    }

    method Fill(strip: nat, c: Colour)
      requires Valid()
      modifies set s | s in strips, set s | s in strips :: s.pixels
      ensures Valid() && View() == DoFill(old(View()), strip, c)
    {
      if strip >= |strips| { return; }
      var n := strips[strip].numLEDs;
      ghost var was := View();
      for i := 0 to n
        invariant Valid() && strips == old(strips)
        invariant forall s | s in strips :: s.pixels == old(s.pixels)
        invariant View() == WithStrip(was, strip, FillRange(was.strips[strip], c, 0, i))
      {
        FillStep(was, strip, c, i);
        SetPixel(strip, i, c);
      }
    }

    // `packed` is the 32-bit colour the hue, saturation and value come to.
    method FillHSV(strip: nat, packed: u32)
      requires Valid()
      modifies set s | s in strips, set s | s in strips :: s.pixels
      ensures Valid() && View() == DoFill(old(View()), strip, Unpack(packed))
    {
      Fill(strip, Unpack(packed));
    }

    method Clear(strip: nat)
      requires Valid()
      modifies set s | s in strips, set s | s in strips :: s.pixels
      ensures Valid() && View() == DoClear(old(View()), strip)
    {
      if strip < |strips| {
        strips[strip].Clear();
        OneStripChanged(strip);
      }
    }

    method ResolveGlobalIndex(index: u32) returns (found: bool, strip: nat, pixel: nat)
      requires Valid()
      ensures (found, strip, pixel) == Resolve(Counts(View().strips), 0, index)
    {
      var remaining: int := index;
      ghost var counts := Counts(View().strips);
      for i := 0 to |strips|
        invariant remaining >= 0
        invariant Resolve(counts, i, remaining) == Resolve(counts, 0, index)
      {
        var count := strips[i].numLEDs;
        if remaining < count {
          return true, i, remaining;
        }
        remaining := remaining - count;
      }
      return false, 0, 0;
    }

    method SetPixelGlobal(index: u32, c: Colour)
      requires Valid()
      modifies set s | s in strips, set s | s in strips :: s.pixels
      ensures Valid() && View() == DoSetPixelGlobal(old(View()), index, c)
    {
      var found, strip, pixel := ResolveGlobalIndex(index);
      if found {
        SetPixel(strip, pixel, c);
      }
    }

    method SetPixelGlobalHSV(index: u32, packed: u32)
      requires Valid()
      modifies set s | s in strips, set s | s in strips :: s.pixels
      ensures Valid() && View() == DoSetPixelGlobal(old(View()), index, Unpack(packed))
    {
      SetPixelGlobal(index, Unpack(packed));
    }
  }

  ghost function Views(strips: seq<Adafruit_NeoPixel>): (v: seq<Strip>)
    reads set s | s in strips, set s | s in strips :: s.pixels
    ensures |v| == |strips|
    ensures forall i :: 0 <= i < |strips| ==> v[i] == strips[i].View()
  {
    seq(|strips|, i requires 0 <= i < |strips|
                  reads set s | s in strips, set s | s in strips :: s.pixels => strips[i].View())
  }
}
