/** The Bluetooth allow-list: a few addresses in a fixed array, kept as text between boots.

    A slot is free while it holds the zero address. Every change prints the whole list to the stored
    property; at boot the stored text is parsed, address by address at a stride of 18 characters, and each
    address is added as if it were new. */
module Allowlist {
  import opened Prelude

  datatype Address = Address(a: u8, b: u8, c: u8, d: u8, e: u8, f: u8)

  const ZERO := Address(0, 0, 0, 0, 0, 0)
  const STRIDE: nat := 18
  const BUFFER: nat := 128

  // ---------------------------------------------------------------------------
  // Text of an address: six two-digit hexadecimal numbers, written with ':' between
  // ---------------------------------------------------------------------------

  function Digit(n: nat): (c: char)
    requires n < 16
  {
    "0123456789ABCDEF"[n]
  }

  function Nibble(c: char): (r: Option<nat>)
    ensures r.Some? ==> r.value < 16
  {
    if '0' <= c <= '9' then Some((c - '0') as nat)
    else if 'A' <= c <= 'F' then Some((c - 'A') as nat + 10)
    else if 'a' <= c <= 'f' then Some((c - 'a') as nat + 10)
    else None
  }

  function High(x: u8): char { Digit(x / 16) }

  function Low(x: u8): char { Digit(x % 16) }

  function Text(x: Address): (s: string)
    ensures |s| == STRIDE - 1
  {
    [High(x.a), Low(x.a), ':', High(x.b), Low(x.b), ':', High(x.c), Low(x.c), ':',
     High(x.d), Low(x.d), ':', High(x.e), Low(x.e), ':', High(x.f), Low(x.f)]
  }

  function ParsePair(s: string, at: nat): (r: Option<u8>) {
    if at + 1 >= |s| then None
    else
      match (Nibble(s[at]), Nibble(s[at + 1]))
      case (Some(h), Some(l)) => Some(h * 16 + l)
      case _ => None
  }

  // One separator may stand between two numbers, or none.
  function SkipSeparator(s: string, at: nat): nat {
    if at < |s| && (s[at] == ':' || s[at] == '-' || s[at] == ' ') then at + 1 else at
  }

  function ParseBytes(s: string, at: nat, n: nat): (r: Option<seq<u8>>)
    ensures r.Some? ==> |r.value| == n
    decreases n
  {
    if n == 0 then Some([])
    else
      match ParsePair(s, at)
      case None => None
      case Some(x) =>
        match ParseBytes(s, if n == 1 then at + 2 else SkipSeparator(s, at + 2), n - 1)
        case None => None
        case Some(rest) => Some([x] + rest)
  }

  // The text at a place in a string; what follows it is not looked at.
  function ParseAddress(s: string, at: nat): (r: Option<Address>) {
    match ParseBytes(s, at, 6)
    case None => None
    case Some(x) => Some(Address(x[0], x[1], x[2], x[3], x[4], x[5]))
  }

  // ---------------------------------------------------------------------------
  // The list and its text
  // ---------------------------------------------------------------------------

  // The addresses on the list, in order.
  function Used(list: seq<Address>): (r: seq<Address>)
    ensures |r| <= |list|
  {
    if list == [] then []
    else
      var before, x := Used(list[..|list| - 1]), list[|list| - 1];
      if x == ZERO then before else before + [x]
  }

  function Join(lines: seq<string>): (s: string) {
    if lines == [] then "" else Join(lines[..|lines| - 1]) + lines[|lines| - 1]
  }

  function Line(x: Address): (s: string)
    ensures |s| == STRIDE
  {
    Text(x) + ","
  }

  function Lines(xs: seq<Address>): (r: seq<string>)
    ensures |r| == |xs| && forall i :: 0 <= i < |xs| ==> r[i] == Line(xs[i])
  {
    seq(|xs|, i requires 0 <= i < |xs| => Line(xs[i]))
  }

  // A separator follows every address, the last one too.
  function Print(list: seq<Address>): string { Join(Lines(Used(list))) }

  // stored is the property as the flash holds it.
  datatype Store = Store(list: seq<Address>, stored: string)

  function Save(list: seq<Address>): Store { Store(list, Print(list)) }

  function IndexOf(list: seq<Address>, x: Address, i: nat): (r: Option<nat>)
    requires i <= |list|
    ensures r.Some? ==> i <= r.value < |list| && list[r.value] == x && forall k :: i <= k < r.value ==> list[k] != x
    ensures r.None? ==> forall k :: i <= k < |list| ==> list[k] != x
    decreases |list| - i
  {
    if i == |list| then None else if list[i] == x then Some(i) else IndexOf(list, x, i + 1)
  }

  function Add(s: Store, x: Address): (r: (Store, bool)) {
    if IndexOf(s.list, x, 0).Some? then (s, false)
    else
      match IndexOf(s.list, ZERO, 0)
      case None => (s, false)
      case Some(i) => (Save(s.list[i := x]), true)
  }

  function Remove(s: Store, x: Address): (r: (Store, bool)) {
    match IndexOf(s.list, x, 0)
    case None => (s, false)
    case Some(i) => (Save(s.list[i := ZERO]), true)
  }

  function Zeros(n: nat): (r: seq<Address>)
    ensures |r| == n && forall i :: 0 <= i < n ==> r[i] == ZERO
  {
    seq(n, i => ZERO)
  }

  function RemoveAll(s: Store): Store { Save(Zeros(|s.list|)) }

  // What stands at each stride of a text.
  function Cells(text: string): (r: seq<Option<Address>>)
    ensures |r| == (|text| + STRIDE - 1) / STRIDE
    ensures forall k :: 0 <= k < |r| ==> r[k] == ParseAddress(text, STRIDE * k)
  {
    seq((|text| + STRIDE - 1) / STRIDE, k requires k >= 0 => ParseAddress(text, STRIDE * k))
  }

  // Parsing stops at the first text that is not an address.
  function Leading<T>(cells: seq<Option<T>>): (r: seq<T>) {
    if cells == [] || cells[0].None? then [] else [cells[0].value] + Leading(cells[1..])
  }

  function AddAll(s: Store, xs: seq<Address>): (r: Store)
    decreases |xs|
  {
    if xs == [] then s else AddAll(Add(s, xs[0]).0, xs[1..])
  }

  function Load(s: Store, text: string): Store { AddAll(s, Leading(Cells(text))) }

  // At boot every slot is free, and the stored property is read.
  function Boot(size: nat, stored: string): Store { Load(Store(Zeros(size), stored), stored) }

  // ---------------------------------------------------------------------------
  // No address is on the list twice
  // ---------------------------------------------------------------------------

  predicate NoneTwice(list: seq<Address>) {
    forall i, k :: 0 <= i < k < |list| && list[i] == list[k] ==> list[i] == ZERO
  }

  // The first place at which an address stands.
  predicate FirstAt(list: seq<Address>, x: Address, i: nat) {
    i < |list| && list[i] == x && forall k :: 0 <= k < i ==> list[k] != x
  }

  // An address is added exactly if it is new and there is room (so the zero address never is), and then it and
  // nothing else is new on the list.
  lemma AddAdds(s: Store, x: Address)
    ensures var (r, ok) := Add(s, x);
            && (ok <==> x !in s.list && ZERO in s.list)
            && (ok ==> x != ZERO && x in r.list && r.stored == Print(r.list))
            && |r.list| == |s.list| && (!ok ==> r == s)
            && (ok ==> exists i: nat :: FirstAt(s.list, ZERO, i) && r.list == s.list[i := x])
            && (forall y: Address :: y != ZERO ==> (y in r.list <==> y in s.list || (ok && y == x)))
            && (NoneTwice(s.list) ==> NoneTwice(r.list))
  {
    var (r, ok) := Add(s, x);
    if ok {
      var i := IndexOf(s.list, ZERO, 0).value;
      assert FirstAt(s.list, ZERO, i) && r.list[i] == x;
      forall y: Address | y != ZERO && y in s.list
        ensures y in r.list
      {
        var k :| 0 <= k < |s.list| && s.list[k] == y;
        assert r.list[k] == y;
      }
    }
  }

  lemma RemoveRemoves(s: Store, x: Address)
    ensures var (r, ok) := Remove(s, x);
            && (ok <==> x in s.list)
            && |r.list| == |s.list| && (ok ==> r.stored == Print(r.list)) && (!ok ==> r == s)
            && (ok ==> exists i: nat :: FirstAt(s.list, x, i) && r.list == s.list[i := ZERO])
            && (NoneTwice(s.list) ==>
                  && NoneTwice(r.list)
                  && forall y: Address :: y != ZERO ==> (y in r.list <==> y in s.list && y != x))
  {
    var (r, ok) := Remove(s, x);
    if ok { assert FirstAt(s.list, x, IndexOf(s.list, x, 0).value); }
    if ok && NoneTwice(s.list) {
      var i := IndexOf(s.list, x, 0).value;
      forall y: Address | y != ZERO && y in s.list && y != x
        ensures y in r.list
      {
        var k :| 0 <= k < |s.list| && s.list[k] == y;
        assert r.list[k] == y;
      }
    }
  }

  // Removing all leaves every slot free, and the stored text empty.
  lemma RemoveAllEmpties(s: Store)
    ensures var r := RemoveAll(s);
            && |r.list| == |s.list| && (forall i :: 0 <= i < |r.list| ==> r.list[i] == ZERO)
            && Used(r.list) == [] && r.stored == ""
  {
    ZerosAreUnused(|s.list|);
  }

  lemma {:induction false} ZerosAreUnused(n: nat)
    ensures Used(Zeros(n)) == []
  {
    if n > 0 {
      assert Zeros(n)[..n - 1] == Zeros(n - 1);
      ZerosAreUnused(n - 1);
    }
  }

  // Added and removed again, an address leaves the others as they were.
  lemma RemoveUndoesAdd(s: Store, x: Address)
    requires NoneTwice(s.list) && Add(s, x).1
    ensures Remove(Add(s, x).0, x).0.list == s.list
  {
    AddAdds(s, x);
    var i := IndexOf(s.list, ZERO, 0).value;
    var added := Add(s, x).0;
    assert added.list[i] == x;
    var k := IndexOf(added.list, x, 0).value;
    assert k == i;
  }

  datatype Op = OpAdd(x: Address) | OpRemove(x: Address) | OpRemoveAll | OpReboot

  function Apply(s: Store, op: Op): Store {
    match op
    case OpAdd(x) => Add(s, x).0
    case OpRemove(x) => Remove(s, x).0
    case OpRemoveAll => RemoveAll(s)
    case OpReboot => Boot(|s.list|, s.stored)
  }

  function Run(s: Store, ops: seq<Op>): Store
    decreases |ops|
  {
    if ops == [] then s else Run(Apply(s, ops[0]), ops[1..])
  }

  lemma {:induction false} AddAllKeepsNoneTwice(s: Store, xs: seq<Address>)
    requires NoneTwice(s.list)
    ensures NoneTwice(AddAll(s, xs).list) && |AddAll(s, xs).list| == |s.list|
    decreases |xs|
  {
    if xs != [] {
      AddAdds(s, xs[0]);
      AddAllKeepsNoneTwice(Add(s, xs[0]).0, xs[1..]);
    }
  }

  lemma {:induction false} NeverTwice(s: Store, ops: seq<Op>)
    requires NoneTwice(s.list)
    ensures NoneTwice(Run(s, ops).list) && |Run(s, ops).list| == |s.list|
    decreases |ops|
  {
    if ops != [] {
      match ops[0] {
        case OpAdd(x) => AddAdds(s, x);
        case OpRemove(x) => RemoveRemoves(s, x);
        case OpRemoveAll =>
        case OpReboot => AddAllKeepsNoneTwice(Store(Zeros(|s.list|), s.stored), Leading(Cells(s.stored)));
      }
      NeverTwice(Apply(s, ops[0]), ops[1..]);
    }
  }

  // ---------------------------------------------------------------------------
  // Printing and parsing
  // ---------------------------------------------------------------------------

  lemma NibbleOfDigit(n: nat)
    requires n < 16
    ensures Nibble(Digit(n)) == Some(n) && Digit(n) != ':'
  {
  }

  // A hexadecimal digit, in either case.
  predicate IsHex(c: char, v: nat) {
    v < 16 && (c == "0123456789ABCDEF"[v] || c == "0123456789abcdef"[v])
  }

  lemma NibbleIsHex(c: char, v: nat)
    ensures Nibble(c) == Some(v) <==> IsHex(c, v)
  {
  }

  // The numbers as they may be spelt: two digits each, with or without one of three separators between two.
  predicate Spelt(s: string, at: nat, xs: seq<u8>)
    decreases |xs|
  {
    if xs == [] then true
    else
      var more := at + 2;
      var apart := |xs| > 1 && more < |s| && (s[more] == ':' || s[more] == '-' || s[more] == ' ');
      && at + 1 < |s| && IsHex(s[at], xs[0] / 16) && IsHex(s[at + 1], xs[0] % 16)
      && Spelt(s, if apart then more + 1 else more, xs[1..])
  }

  lemma PairIsSpelt(s: string, at: nat, x: u8)
    ensures ParsePair(s, at) == Some(x) <==> at + 1 < |s| && IsHex(s[at], x / 16) && IsHex(s[at + 1], x % 16)
  {
    if at + 1 < |s| {
      NibbleIsHex(s[at], x / 16);
      NibbleIsHex(s[at + 1], x % 16);
    }
  }

  // A text parses exactly if it spells the numbers out.
  lemma {:induction false} ParsesIffSpelt(s: string, at: nat, xs: seq<u8>)
    ensures ParseBytes(s, at, |xs|) == Some(xs) <==> Spelt(s, at, xs)
    decreases |xs|
  {
    if xs != [] {
      PairIsSpelt(s, at, xs[0]);
      var next := if |xs| == 1 then at + 2 else SkipSeparator(s, at + 2);
      ParsesIffSpelt(s, next, xs[1..]);
      assert xs == [xs[0]] + xs[1..];
    }
  }

  lemma SixNumbers(ys: seq<u8>, x: Address)
    requires |ys| == 6
    ensures Address(ys[0], ys[1], ys[2], ys[3], ys[4], ys[5]) == x <==> ys == [x.a, x.b, x.c, x.d, x.e, x.f]
  {
  }

  lemma AddressIffSpelt(s: string, at: nat, x: Address)
    ensures ParseAddress(s, at) == Some(x) <==> Spelt(s, at, [x.a, x.b, x.c, x.d, x.e, x.f])
  {
    var xs := [x.a, x.b, x.c, x.d, x.e, x.f];
    ParsesIffSpelt(s, at, xs);
    if ParseBytes(s, at, 6).Some? { SixNumbers(ParseBytes(s, at, 6).value, x); }
  }

  // Loading stops at the first text that is not an address: all before it, and nothing after.
  lemma {:induction false} LeadingStops<T>(cells: seq<Option<T>>)
    ensures var xs := Leading(cells);
            && |xs| <= |cells| && (forall k :: 0 <= k < |xs| ==> cells[k] == Some(xs[k]))
            && (|xs| < |cells| ==> cells[|xs|].None?)
  {
    if cells != [] && cells[0].Some? { LeadingStops(cells[1..]); }
  }

  lemma PairParses(s: string, at: nat, x: u8)
    requires at + 1 < |s| && s[at] == High(x) && s[at + 1] == Low(x)
    ensures ParsePair(s, at) == Some(x)
  {
    NibbleOfDigit(x / 16);
    NibbleOfDigit(x % 16);
  }

  predicate At(s: string, at: nat, c: char) { at < |s| && s[at] == c }

  predicate Colon(s: string, at: nat) { at < |s| && s[at] == ':' }

  predicate PairAt(s: string, at: nat, x: u8) { At(s, at, High(x)) && At(s, at + 1, Low(x)) }

  lemma TextStands(s: string, at: nat, x: Address)
    requires at + STRIDE - 1 <= |s| && s[at..at + STRIDE - 1] == Text(x)
    ensures PairAt(s, at, x.a) && Colon(s, at + 2) && PairAt(s, at + 3, x.b) && Colon(s, at + 5)
    ensures PairAt(s, at + 6, x.c) && Colon(s, at + 8) && PairAt(s, at + 9, x.d) && Colon(s, at + 11)
    ensures PairAt(s, at + 12, x.e) && Colon(s, at + 14) && PairAt(s, at + 15, x.f)
  {
    var t := s[at..at + STRIDE - 1];
    assert s[at] == t[0] && s[at + 1] == t[1] && s[at + 2] == t[2] && s[at + 3] == t[3] && s[at + 4] == t[4];
    assert s[at + 5] == t[5] && s[at + 6] == t[6] && s[at + 7] == t[7] && s[at + 8] == t[8] && s[at + 9] == t[9];
    assert s[at + 10] == t[10] && s[at + 11] == t[11] && s[at + 12] == t[12] && s[at + 13] == t[13];
    assert s[at + 14] == t[14] && s[at + 15] == t[15] && s[at + 16] == t[16];
  }

  // One number and, unless it is the last, the colon behind it.
  lemma NumberParses(s: string, at: nat, xs: seq<u8>)
    requires xs != [] && PairAt(s, at, xs[0])
    requires |xs| > 1 ==> Colon(s, at + 2) && ParseBytes(s, at + 3, |xs| - 1) == Some(xs[1..])
    ensures ParseBytes(s, at, |xs|) == Some(xs)
  {
    PairParses(s, at, xs[0]);
    assert xs == [xs[0]] + xs[1..];
  }

  lemma LastThreeParse(s: string, at: nat, d: u8, e: u8, f: u8)
    requires PairAt(s, at, d) && PairAt(s, at + 3, e) && PairAt(s, at + 6, f)
    requires Colon(s, at + 2) && Colon(s, at + 5)
    ensures ParseBytes(s, at, 3) == Some([d] + ([e] + [f]))
  {
    var one, two, three := [f], [e] + [f], [d] + ([e] + [f]);
    assert two[1..] == one && three[1..] == two;
    NumberParses(s, at + 6, one);
    NumberParses(s, at + 3, two);
    NumberParses(s, at, three);
  }

  lemma FirstThreeParse(s: string, at: nat, a: u8, b: u8, c: u8, rest: seq<u8>)
    requires |rest| == 3 && ParseBytes(s, at + 9, 3) == Some(rest)
    requires PairAt(s, at, a) && PairAt(s, at + 3, b) && PairAt(s, at + 6, c)
    requires Colon(s, at + 2) && Colon(s, at + 5) && Colon(s, at + 8)
    ensures ParseBytes(s, at, 6) == Some([a] + ([b] + ([c] + rest)))
  {
    var three, two, one := [c] + rest, [b] + ([c] + rest), [a] + ([b] + ([c] + rest));
    assert three[1..] == rest && two[1..] == three && one[1..] == two;
    NumberParses(s, at + 6, three);
    NumberParses(s, at + 3, two);
    NumberParses(s, at, one);
  }

  // The text of an address parses back to it wherever it stands.
  lemma TextParses(s: string, at: nat, x: Address)
    requires at + STRIDE - 1 <= |s| && s[at..at + STRIDE - 1] == Text(x)
    ensures ParseAddress(s, at) == Some(x)
  {
    TextStands(s, at, x);
    LastThreeParse(s, at + 9, x.d, x.e, x.f);
    FirstThreeParse(s, at, x.a, x.b, x.c, [x.d] + ([x.e] + [x.f]));
  }

  predicate AllLong(lines: seq<string>, n: nat) { forall i :: 0 <= i < |lines| ==> |lines[i]| == n }

  lemma {:induction false} JoinLength(lines: seq<string>, n: nat)
    requires AllLong(lines, n)
    ensures |Join(lines)| == n * |lines|
    decreases |lines|
  {
    if lines != [] {
      var m := |lines| - 1;
      JoinLength(lines[..m], n);
      assert n * |lines| == n * m + n;
    }
  }

  // The k-th of equally long lines starts at k times their length.
  lemma {:induction false} JoinAt(lines: seq<string>, n: nat, k: nat, at: nat)
    requires AllLong(lines, n) && k < |lines| && at == n * k
    ensures at + n <= |Join(lines)|
    ensures Join(lines)[at..at + n] == lines[k]
    ensures Join(lines)[..at] == Join(lines[..k])
    decreases |lines|
  {
    var m := |lines| - 1;
    var before := Join(lines[..m]);
    JoinLength(lines[..m], n);
    if k < m {
      JoinAt(lines[..m], n, k, at);
      assert lines[..m][..k] == lines[..k];
      assert Join(lines)[at..at + n] == before[at..at + n];
      assert Join(lines)[..at] == before[..at];
    } else {
      assert Join(lines)[at..at + n] == lines[m];
      assert Join(lines)[..at] == before;
    }
  }

  // A line of a text that is its own stride parses to its address.
  lemma LineParses(text: string, at: nat, x: Address)
    requires at + STRIDE <= |text| && text[at..at + STRIDE] == Line(x)
    ensures ParseAddress(text, at) == Some(x)
  {
    assert text[at..at + STRIDE - 1] == text[at..at + STRIDE][..STRIDE - 1] == Text(x);
    TextParses(text, at, x);
  }

  // Every stride of a printed list parses to its address.
  lemma CellsOfPrinted(xs: seq<Address>, k: nat)
    requires k < |xs|
    ensures var cells := Cells(Join(Lines(xs))); |cells| == |xs| && cells[k] == Some(xs[k])
  {
    var text, at := Join(Lines(xs)), STRIDE * k;
    JoinLength(Lines(xs), STRIDE);
    JoinAt(Lines(xs), STRIDE, k, at);
    LineParses(text, at, xs[k]);
  }

  lemma {:induction false} LeadingOfAll<T>(cells: seq<Option<T>>, xs: seq<T>)
    requires |cells| == |xs| && forall k :: 0 <= k < |xs| ==> cells[k] == Some(xs[k])
    ensures Leading(cells) == xs
    decreases |xs|
  {
    if xs != [] { LeadingOfAll(cells[1..], xs[1..]); }
  }

  lemma ParsesBack(xs: seq<Address>)
    ensures Leading(Cells(Join(Lines(xs)))) == xs
  {
    JoinLength(Lines(xs), STRIDE);
    var cells := Cells(Join(Lines(xs)));
    forall k | 0 <= k < |xs|
      ensures cells[k] == Some(xs[k])
    {
      CellsOfPrinted(xs, k);
    }
    LeadingOfAll(cells, xs);
  }

  // Used entries, then free ones.
  function Packed(xs: seq<Address>, size: nat): (r: seq<Address>)
    requires |xs| <= size
    ensures |r| == size
  {
    xs + Zeros(size - |xs|)
  }

  predicate AllUsed(xs: seq<Address>) { forall i :: 0 <= i < |xs| ==> xs[i] != ZERO }

  lemma {:induction false} UsedOfPacked(xs: seq<Address>, size: nat)
    requires |xs| <= size && AllUsed(xs)
    ensures Used(Packed(xs, size)) == xs
    decreases size
  {
    var p := Packed(xs, size);
    if size > |xs| {
      UsedOfPacked(xs, size - 1);
      assert p[..size - 1] == Packed(xs, size - 1);
    } else if size > 0 {
      UsedOfPacked(xs[..size - 1], size - 1);
      assert p[..size - 1] == Packed(xs[..size - 1], size - 1);
    }
  }

  lemma LastIsNew(list: seq<Address>)
    requires list != [] && NoneTwice(list) && list[|list| - 1] != ZERO
    ensures list[|list| - 1] !in list[..|list| - 1]
  {
    var n := |list| - 1;
    forall i | 0 <= i < n
      ensures list[..n][i] != list[n]
    {
      assert list[..n][i] == list[i];
    }
  }

  lemma {:induction false} UsedIsSound(list: seq<Address>)
    requires NoneTwice(list)
    ensures AllUsed(Used(list)) && NoneTwice(Used(list))
    ensures forall y: Address :: y in Used(list) <==> y in list && y != ZERO
  {
    if list != [] {
      var n := |list| - 1;
      UsedIsSound(list[..n]);
      assert list == list[..n] + [list[n]];
      if list[n] != ZERO { LastIsNew(list); }
    }
  }

  // Adding the next address to a packed list packs it behind the others.
  lemma AddPacks(xs: seq<Address>, k: nat, size: nat, stored: string)
    requires k < |xs| <= size && AllUsed(xs) && NoneTwice(xs)
    ensures Add(Store(Packed(xs[..k], size), stored), xs[k])
         == (Store(Packed(xs[..k + 1], size), Join(Lines(xs[..k + 1]))), true)
  {
    var p := Packed(xs[..k], size);
    assert p[k] == ZERO;
    var i := IndexOf(p, ZERO, 0).value;
    assert forall j :: 0 <= j < k ==> p[j] == xs[j];
    assert i == k;
    assert xs[k] !in p;
    assert p[k := xs[k]] == Packed(xs[..k + 1], size);
    UsedOfPacked(xs[..k + 1], size);
  }

  // The rest of a list, added behind its first k addresses.
  lemma {:induction false} AddsRest(xs: seq<Address>, k: nat, size: nat, stored: string)
    requires k <= |xs| <= size && AllUsed(xs) && NoneTwice(xs)
    requires stored == if k == 0 then Join(Lines(xs)) else Join(Lines(xs[..k]))
    ensures AddAll(Store(Packed(xs[..k], size), stored), xs[k..]) == Store(Packed(xs, size), Join(Lines(xs)))
    decreases |xs| - k
  {
    if k < |xs| {
      AddPacks(xs, k, size, stored);
      assert xs[k..][1..] == xs[k + 1..];
      AddsRest(xs, k + 1, size, Join(Lines(xs[..k + 1])));
    } else {
      assert xs[..k] == xs;
    }
  }

  // A list that was printed loads as the same addresses in the same order, packed to the front, and leaves the
  // stored text as it was.
  lemma PrintThenLoad(list: seq<Address>)
    requires NoneTwice(list)
    ensures Boot(|list|, Print(list)) == Store(Packed(Used(list), |list|), Print(list))
  {
    UsedIsSound(list);
    var xs := Used(list);
    ParsesBack(xs);
    assert Packed(xs[..0], |list|) == Zeros(|list|) && xs[0..] == xs;
    AddsRest(xs, 0, |list|, Print(list));
  }

  // Each address read is written back at once: while the list loads, the property holds only what has been
  // read so far.
  lemma WhileLoading(xs: seq<Address>, k: nat, size: nat, at: nat)
    requires 0 < k < |xs| <= size && AllUsed(xs) && NoneTwice(xs) && at == STRIDE * k
    ensures at < |Join(Lines(xs))|
    ensures Add(Store(Packed(xs[..k - 1], size), Join(Lines(xs))), xs[k - 1]).0.stored == Join(Lines(xs))[..at]
  {
    AddPacks(xs, k - 1, size, Join(Lines(xs)));
    JoinAt(Lines(xs), STRIDE, k, at);
    assert Lines(xs)[..k] == Lines(xs[..k]);
  }

  // Once anything was saved, the stored text is the printed list, through changes and reboots alike; so a
  // reboot keeps exactly the addresses on the list.
  ghost predicate Saved(s: Store) { NoneTwice(s.list) && s.stored == Print(s.list) }

  lemma RebootKeepsAddresses(s: Store)
    requires Saved(s)
    ensures var r := Boot(|s.list|, s.stored);
            Saved(r) && r.stored == s.stored && Used(r.list) == Used(s.list) && |r.list| == |s.list|
  {
    PrintThenLoad(s.list);
    UsedIsSound(s.list);
    UsedOfPacked(Used(s.list), |s.list|);
  }

  lemma {:induction false} StaysSaved(s: Store, ops: seq<Op>)
    requires Saved(s)
    ensures Saved(Run(s, ops))
    decreases |ops|
  {
    if ops != [] {
      match ops[0] {
        case OpAdd(x) => AddAdds(s, x);
        case OpRemove(x) => RemoveRemoves(s, x);
        case OpRemoveAll =>
        case OpReboot => RebootKeepsAddresses(s);
      }
      StaysSaved(Apply(s, ops[0]), ops[1..]);
    }
  }

  lemma PrintNext(list: seq<Address>, i: nat)
    requires i < |list|
    ensures Print(list[..i + 1]) == if list[i] == ZERO then Print(list[..i]) else Print(list[..i]) + Line(list[i])
  {
    var more := list[..i + 1];
    assert more[..i] == list[..i];
    if list[i] != ZERO {
      var before := Used(list[..i]);
      assert Used(more) == before + [list[i]];
      assert Lines(Used(more)) == Lines(before) + [Line(list[i])];
      assert Lines(Used(more))[..|before|] == Lines(before);
    }
  }

  // The text, and its terminator, fit the printer's buffer if and only if at most seven addresses are on the list.
  lemma Fits(list: seq<Address>)
    ensures |Print(list)| + 1 <= BUFFER <==> |Used(list)| <= 7
    ensures |list| <= 7 ==> |Print(list)| + 1 <= BUFFER - 1
  {
    JoinLength(Lines(Used(list)), STRIDE);
  }

  // ---------------------------------------------------------------------------
  // The code
  // ---------------------------------------------------------------------------

  class AllowList {
    const entries: array<Address>
    var property: string

    ghost function View(): Store
      reads this, entries
    {
      Store(entries[..], property)
    }

    constructor (size: nat, stored: string)
      ensures fresh(entries) && View() == Boot(size, stored)
    {
      entries := new Address[size](i => ZERO);
      property := stored;
      new;
      assert entries[..] == Zeros(size);
      FromProperty();
    }

    method ToProperty()
      modifies this`property
      ensures View() == Save(entries[..])
    {
      var str := "";
      var i := 0;
      while i < entries.Length
        invariant 0 <= i <= entries.Length && str == Print(entries[..i])
      {
        PrintNext(entries[..], i);
        assert entries[..][..i] == entries[..i] && entries[..][..i + 1] == entries[..i + 1];
        if entries[i] != ZERO {
          str := str + Text(entries[i]);
          str := str + ",";
        }
        i := i + 1;
      }
      assert entries[..i] == entries[..];
      property := str;
    }

    method Find(x: Address) returns (at: Option<nat>)
      ensures at == IndexOf(entries[..], x, 0)
    {
      var i := 0;
      while i < entries.Length
        invariant 0 <= i <= entries.Length && IndexOf(entries[..], x, 0) == IndexOf(entries[..], x, i)
      {
        if entries[i] == x { return Some(i); }
        i := i + 1;
      }
      return None;
    }

    method AddAddress(x: Address) returns (ok: bool)
      modifies this`property, entries
      ensures (View(), ok) == Add(old(View()), x)
    {
      var known := Find(x);
      if known.Some? { return false; }
      var free := Find(ZERO);
      if free.None? { return false; }
      entries[free.value] := x;
      assert entries[..] == old(entries[..])[free.value := x];
      ToProperty();
      return true;
    }

    method RemoveAddress(x: Address) returns (ok: bool)
      modifies this`property, entries
      ensures (View(), ok) == Remove(old(View()), x)
    {
      var known := Find(x);
      if known.None? { return false; }
      entries[known.value] := ZERO;
      assert entries[..] == old(entries[..])[known.value := ZERO];
      ToProperty();
      return true;
    }

    method Clear()
      modifies this`property, entries
      ensures View() == RemoveAll(old(View()))
    {
      var i := 0;
      while i < entries.Length
        invariant 0 <= i <= entries.Length && forall k :: 0 <= k < i ==> entries[k] == ZERO
      {
        entries[i] := ZERO;
        i := i + 1;
      }
      assert entries[..] == Zeros(entries.Length);
      ToProperty();
    }

    // The text is read once; adding rewrites the property under it.
    method FromProperty()
      modifies this`property, entries
      ensures View() == Load(old(View()), old(property))
    {
      var str := property;
      var offset := 0;
      ghost var before, cells, k := View(), Cells(str), 0;
      while offset < |str|
        invariant 0 <= k <= |cells| && offset == STRIDE * k
        invariant AddAll(before, Leading(cells)) == AddAll(View(), Leading(cells[k..]))
        decreases |str| - offset
      {
        var parsed := ParseAddress(str, offset);
        assert cells[k] == parsed;
        if parsed.None? { return; }
        assert Leading(cells[k..]) == [parsed.value] + Leading(cells[k + 1..]) by {
          assert cells[k..][1..] == cells[k + 1..];
        }
        var ok := AddAddress(parsed.value);
        offset := offset + STRIDE;
        k := k + 1;
      }
    }
  }
}
