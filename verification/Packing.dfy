/** Little-endian records: fixed-width words written one after another and read back in place. */
module Packing {
  import opened Wrappers

  type Byte = x: int | 0 <= x < 256

  /** A four-byte unsigned or signed integer, or an eight-byte word (an integer or the bits of a double). */
  datatype Kind = U4 | I4 | W8

  function Width(k: Kind): nat {
    if k.W8? then 8 else 4
  }

  function Range(width: nat): (r: nat)
    ensures r > 0
  {
    if width == 0 then 1 else 256 * Range(width - 1)
  }

  predicate Fits(k: Kind, x: int) {
    match k
    case U4 => 0 <= x < 0x1_0000_0000
    case I4 => -0x8000_0000 <= x < 0x8000_0000
    case W8 => 0 <= x < 0x1_0000_0000_0000_0000
  }

  function Little(x: nat, width: nat): (s: seq<Byte>)
    ensures |s| == width
  {
    if width == 0 then [] else [x % 256] + Little(x / 256, width - 1)
  }

  function FromLittle(s: seq<Byte>): nat {
    if s == [] then 0 else s[0] + 256 * FromLittle(s[1..])
  }

  lemma {:induction false} LittleRoundTrip(x: nat, width: nat)
    requires x < Range(width)
    ensures FromLittle(Little(x, width)) == x
  {
    if width > 0 {
      LittleRoundTrip(x / 256, width - 1);
      assert Little(x, width)[1..] == Little(x / 256, width - 1);
    }
  }

  function Bits(k: Kind, x: int): nat
    requires Fits(k, x)
  {
    if k.I4? && x < 0 then x + 0x1_0000_0000 else x
  }

  function FromBits(k: Kind, bits: nat): int {
    if k.I4? && bits >= 0x8000_0000 then bits - 0x1_0000_0000 else bits
  }

  function Write(k: Kind, x: int): (s: seq<Byte>)
    requires Fits(k, x)
    ensures |s| == Width(k)
  {
    Little(Bits(k, x), Width(k))
  }

  function Read(k: Kind, s: seq<Byte>): int
    requires |s| == Width(k)
  {
    FromBits(k, FromLittle(s))
  }

  lemma Ranges()
    ensures Range(4) == 0x1_0000_0000 && Range(8) == 0x1_0000_0000_0000_0000
  {
    assert Range(1) == 256 && Range(2) == 0x1_0000 && Range(3) == 0x100_0000 && Range(4) == 0x1_0000_0000;
    assert Range(5) == 0x100_0000_0000 && Range(6) == 0x1_0000_0000_0000 && Range(7) == 0x100_0000_0000_0000;
  }

  /** A word written and read back is the same word. */
  lemma ReadWrite(k: Kind, x: int)
    requires Fits(k, x)
    ensures Read(k, Write(k, x)) == x
  {
    hide Range, Little, FromLittle;
    Ranges();
    LittleRoundTrip(Bits(k, x), Width(k));
  }

  // ----- records

  predicate AllFit(kinds: seq<Kind>, values: seq<int>) {
    |kinds| == |values| && forall i :: 0 <= i < |kinds| ==> Fits(kinds[i], values[i])
  }

  function Size(kinds: seq<Kind>): nat {
    if kinds == [] then 0 else Width(kinds[0]) + Size(kinds[1..])
  }

  function Pack(kinds: seq<Kind>, values: seq<int>): (s: seq<Byte>)
    requires AllFit(kinds, values)
    ensures |s| == Size(kinds)
  {
    if kinds == [] then [] else Write(kinds[0], values[0]) + Pack(kinds[1..], values[1..])
  }

  /** The values of the record that starts at `offset`. */
  function Fields(kinds: seq<Kind>, s: seq<Byte>, offset: nat): (values: seq<int>)
    requires offset + Size(kinds) <= |s|
    ensures |values| == |kinds|
  {
    if kinds == [] then []
    else
      var next := offset + Width(kinds[0]);
      [Read(kinds[0], s[offset..next])] + Fields(kinds[1..], s, next)
  }

  /** `part` stands in `s` at `offset`. */
  ghost predicate Holds(s: seq<Byte>, offset: nat, part: seq<Byte>) {
    offset + |part| <= |s| && s[offset..offset + |part|] == part
  }

  lemma HoldsParts(s: seq<Byte>, offset: nat, a: seq<Byte>, b: seq<Byte>)
    requires Holds(s, offset, a + b)
    ensures Holds(s, offset, a) && Holds(s, offset + |a|, b)
  {
    var part := s[offset..offset + |a + b|];
    assert s[offset..offset + |a|] == part[..|a|] == a;
    assert s[offset + |a|..offset + |a| + |b|] == part[|a|..] == b;
  }

  /** Reading inverts writing wherever the record stands. */
  lemma {:induction false} FieldsOfPacked(kinds: seq<Kind>, values: seq<int>, s: seq<Byte>, offset: nat)
    requires AllFit(kinds, values) && Holds(s, offset, Pack(kinds, values))
    ensures Fields(kinds, s, offset) == values
    decreases |kinds|
  {
    hide Write, Read, Fits, Holds;
    if kinds != [] {
      HoldsParts(s, offset, Write(kinds[0], values[0]), Pack(kinds[1..], values[1..]));
      FieldsOfPacked(kinds[1..], values[1..], s, offset + Width(kinds[0]));
      WordOfWritten(kinds[0], values[0], s, offset);
      assert [values[0]] + values[1..] == values;
    }
  }

  lemma WordOfWritten(k: Kind, x: int, s: seq<Byte>, offset: nat)
    requires Fits(k, x) && Holds(s, offset, Write(k, x))
    ensures offset + Width(k) <= |s| && Read(k, s[offset..offset + Width(k)]) == x
  {
    hide Write, Read, Fits;
    ReadWrite(k, x);
  }

  /** Takes one word at `offset`, as the reader of a frame does, and reports when the frame is too short. */
  method Take(k: Kind, payload: seq<Byte>, offset: nat) returns (r: Option<int>, next: nat)
    requires offset <= |payload|
    ensures r.Some? <==> offset + Width(k) <= |payload|
    ensures next == if r.Some? then offset + Width(k) else offset
    ensures r.Some? ==> r.value == Read(k, payload[offset..next])
  {
    if offset + Width(k) > |payload| {
      return None, offset;
    }
    next := offset + Width(k);
    r := Some(Read(k, payload[offset..next]));
  }

  lemma OneField(kinds: seq<Kind>, i: nat, s: seq<Byte>, offset: nat)
    requires i < |kinds|
    ensures Size(kinds[i..]) == Width(kinds[i]) + Size(kinds[i + 1..])
    ensures offset + Size(kinds[i..]) <= |s| ==>
      Fields(kinds[i..], s, offset)
      == [Read(kinds[i], s[offset..offset + Width(kinds[i])])] + Fields(kinds[i + 1..], s, offset + Width(kinds[i]))
  {
    hide Read;
    assert kinds[i..][1..] == kinds[i + 1..] && kinds[i..][0] == kinds[i];
  }

  /** Takes the words of a record one after another. */
  method TakeAll(kinds: seq<Kind>, payload: seq<Byte>, offset: nat) returns (r: Option<seq<int>>, next: nat)
    requires offset <= |payload|
    ensures r.Some? <==> offset + Size(kinds) <= |payload|
    ensures r.Some? ==> r.value == Fields(kinds, payload, offset) && next == offset + Size(kinds)
  {
    hide Read, Fields, Size;
    var values: seq<int> := [];
    next := offset;
    ghost var fits := offset + Size(kinds) <= |payload|;
    ghost var all := if fits then Fields(kinds, payload, offset) else [];
    assert kinds[0..] == kinds;
    for i: nat := 0 to |kinds|
      invariant offset <= next <= |payload| && next + Size(kinds[i..]) == offset + Size(kinds)
      invariant fits ==> all == values + Fields(kinds[i..], payload, next)
    {
      OneField(kinds, i, payload, next);
      var word;
      word, next := Take(kinds[i], payload, next);
      if word.None? {
        return None, offset;
      }
      if fits {
        MoveOne(all, values, word.value, Fields(kinds[i + 1..], payload, next));
      }
      values := values + [word.value];
    }
    NoFields(kinds, payload, next);
    return Some(values), next;
  }

  lemma NoFields(kinds: seq<Kind>, s: seq<Byte>, offset: nat)
    ensures Size(kinds[|kinds|..]) == 0
    ensures offset <= |s| ==> Fields(kinds[|kinds|..], s, offset) == []
  {
  }

  lemma MoveOne(all: seq<int>, done: seq<int>, x: int, rest: seq<int>)
    requires all == done + ([x] + rest)
    ensures all == (done + [x]) + rest
  {
  }

  // ----- uniform records

  function Repeat(k: Kind, n: nat): (kinds: seq<Kind>)
    ensures |kinds| == n && forall i :: 0 <= i < n ==> kinds[i] == k
  {
    seq(n, _ => k)
  }

  lemma {:induction false} SizeRepeat(k: Kind, n: nat)
    ensures Size(Repeat(k, n)) == Width(k) * n
  {
    if n > 0 {
      SizeRepeat(k, n - 1);
      assert Repeat(k, n)[1..] == Repeat(k, n - 1);
    }
  }

  /** A stretch of eight-byte words. */
  predicate Words(values: seq<int>) {
    forall i :: 0 <= i < |values| ==> Fits(W8, values[i])
  }

  function PackWords(values: seq<int>): (s: seq<Byte>)
    requires Words(values)
    ensures |s| == Size(Repeat(W8, |values|))
  {
    Pack(Repeat(W8, |values|), values)
  }
}
