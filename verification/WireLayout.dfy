/**
 The frames of the kernel protocol byte by byte: where every field of a request and of a response stands, which of
 them the parser and the decoder refuse, and which 64-bit words are finite doubles.
 */
module WireLayout {
  import opened Wrappers
  import opened Packing
  import opened KernelProtocol
  import opened RequestRoundTrip

  // ----- words in place

  /** The unsigned number in the four bytes at `i`, the lowest first. */
  function U32(s: Bytes, i: nat): int
    requires i + 4 <= |s|
  {
    var a: int, b: int, c: int, d: int := s[i], s[i + 1], s[i + 2], s[i + 3];
    a + 256 * b + 65536 * c + 16777216 * d
  }

  /** The same in two's complement. */
  function I32(s: Bytes, i: nat): int
    requires i + 4 <= |s|
  {
    if s[i + 3] >= 128 then U32(s, i) - 4294967296 else U32(s, i)
  }

  function U64(s: Bytes, i: nat): int
    requires i + 8 <= |s|
  {
    U32(s, i) + 4294967296 * U32(s, i + 4)
  }

  lemma FourBytes(a: Byte, b: Byte, c: Byte, d: Byte)
    ensures FromLittle([a, b, c, d]) == a + 256 * b + 65536 * c + 16777216 * d
  {
    var s := [a, b, c, d];
    assert s[1..] == [b, c, d] && s[1..][1..] == [c, d] && s[1..][1..][1..] == [d];
    assert FromLittle([d]) == d;
    assert FromLittle([c, d]) == c + 256 * d;
    assert FromLittle([b, c, d]) == b + 256 * (c + 256 * d);
  }

  lemma {:induction false} FromLittleJoins(a: Bytes, b: Bytes)
    ensures FromLittle(a + b) == FromLittle(a) + Range(|a|) * FromLittle(b)
    decreases |a|
  {
    if a == [] {
      assert a + b == b;
    } else {
      FromLittleJoins(a[1..], b);
      assert (a + b)[1..] == a[1..] + b;
      LittleJoinTerms(a[0], FromLittle(a[1..]), Range(|a| - 1), FromLittle(b));
    }
  }

  lemma LittleJoinTerms(head: int, rest: int, range: int, high: int)
    ensures head + 256 * (rest + range * high) == (head + 256 * rest) + (256 * range) * high
  {
  }

  lemma ReadFour(s: Bytes, i: nat)
    requires i + 4 <= |s|
    ensures Read(U4, s[i..i + 4]) == U32(s, i) && Read(I4, s[i..i + 4]) == I32(s, i)
  {
    FourBytes(s[i], s[i + 1], s[i + 2], s[i + 3]);
    assert s[i..i + 4] == [s[i], s[i + 1], s[i + 2], s[i + 3]];
  }

  lemma ReadEight(s: Bytes, i: nat)
    requires i + 8 <= |s|
    ensures Read(W8, s[i..i + 8]) == U64(s, i)
  {
    var low, high := s[i..i + 4], s[i + 4..i + 8];
    assert s[i..i + 8] == low + high;
    FromLittleJoins(low, high);
    Ranges();
    FourBytes(s[i], s[i + 1], s[i + 2], s[i + 3]);
    FourBytes(s[i + 4], s[i + 5], s[i + 6], s[i + 7]);
    assert low == [s[i], s[i + 1], s[i + 2], s[i + 3]] && high == [s[i + 4], s[i + 5], s[i + 6], s[i + 7]];
  }

  /** The word of one kind that stands at `i`. */
  function WordAt(k: Kind, s: Bytes, i: nat): int
    requires i + Width(k) <= |s|
  {
    match k
    case U4 => U32(s, i)
    case I4 => I32(s, i)
    case W8 => U64(s, i)
  }

  lemma ReadsWord(k: Kind, s: Bytes, i: nat)
    requires i + Width(k) <= |s|
    ensures Read(k, s[i..i + Width(k)]) == WordAt(k, s, i)
  {
    hide Read, U32, I32, U64;
    if k.W8? {
      ReadEight(s, i);
    } else {
      ReadFour(s, i);
    }
  }

  // ----- fields in place

  lemma {:induction false} SizeJoins(a: seq<Kind>, b: seq<Kind>)
    ensures Size(a + b) == Size(a) + Size(b)
    decreases |a|
  {
    if a == [] {
      assert a + b == b;
    } else {
      SizeJoins(a[1..], b);
      assert (a + b)[1..] == a[1..] + b;
    }
  }

  lemma SizeUpTo(kinds: seq<Kind>, i: nat)
    requires i < |kinds|
    ensures Size(kinds[..i]) + Width(kinds[i]) + Size(kinds[i + 1..]) == Size(kinds)
  {
    SizeJoins(kinds[..i], kinds[i..]);
    assert kinds == kinds[..i] + kinds[i..];
    assert kinds[i..][1..] == kinds[i + 1..];
  }

  /** Field `i` of a record is the word behind the widths of the fields before it. */
  lemma {:induction false} FieldAt(kinds: seq<Kind>, s: Bytes, at: nat, i: nat)
    requires at + Size(kinds) <= |s| && i < |kinds|
    ensures at + Size(kinds[..i]) + Width(kinds[i]) <= |s|
    ensures Fields(kinds, s, at)[i] == WordAt(kinds[i], s, at + Size(kinds[..i]))
    decreases i
  {
    hide Read, WordAt;
    SizeUpTo(kinds, i);
    if i == 0 {
      assert kinds[..0] == [];
      ReadsWord(kinds[0], s, at);
    } else {
      FieldAt(kinds[1..], s, at + Width(kinds[0]), i - 1);
      assert kinds[..i][1..] == kinds[1..][..i - 1];
    }
  }

  lemma {:induction false} RepeatedField(n: nat, s: Bytes, at: nat, i: nat)
    requires at + 8 * n <= |s| && i < n
    ensures Size(Repeat(W8, n)) == 8 * n && Fields(Repeat(W8, n), s, at)[i] == U64(s, at + 8 * i)
  {
    hide Fields, Size, U64;
    SizeRepeat(W8, n);
    SizeRepeat(W8, i);
    FieldAt(Repeat(W8, n), s, at, i);
    assert Repeat(W8, n)[..i] == Repeat(W8, i);
  }

  // ----- finite doubles

  /** The word of a double with these three parts. */
  predicate Parts(word: int, sign: int, exponent: int, fraction: int) {
    && 0 <= sign < 2 && 0 <= exponent < 2048 && 0 <= fraction < 0x10_0000_0000_0000
    && word == sign * 0x8000_0000_0000_0000 + exponent * 0x10_0000_0000_0000 + fraction
  }

  /** A double is finite unless its exponent has all eleven bits set, and positive if its sign bit is clear and another
      bit is not. */
  lemma WordOfDouble(word: int, sign: int, exponent: int, fraction: int)
    requires Parts(word, sign, exponent, fraction)
    ensures Fits(W8, word)
    ensures Finite(word) <==> exponent != 2047
    ensures Positive(word) <==> sign == 0 && (exponent != 0 || fraction != 0)
  {
    var upper := sign * 2048 + exponent;
    assert word == upper * 0x10_0000_0000_0000 + fraction;
    assert word / 0x10_0000_0000_0000 == upper;
  }

  /** Every word has such parts. */
  lemma PartsOf(word: int) returns (sign: int, exponent: int, fraction: int)
    requires Fits(W8, word)
    ensures Parts(word, sign, exponent, fraction)
  {
    sign, exponent := word / 0x8000_0000_0000_0000, word / 0x10_0000_0000_0000 % 2048;
    fraction := word % 0x10_0000_0000_0000;
  }

  /** The double in the word is neither infinite nor a NaN. */
  ghost predicate IsFinite(word: int) {
    forall sign, exponent, fraction :: Parts(word, sign, exponent, fraction) ==> exponent != 2047
  }

  lemma FiniteIs(word: int)
    requires Fits(W8, word)
    ensures Finite(word) <==> IsFinite(word)
  {
    var sign, exponent, fraction := PartsOf(word);
    WordOfDouble(word, sign, exponent, fraction);
    forall a, b, c | Parts(word, a, b, c)
      ensures Finite(word) <==> b != 2047
    {
      WordOfDouble(word, a, b, c);
    }
    hide Parts, Finite;
  }

  // ----- identity strings

  /** The field holds a string: bytes from 32 on, at least one, and a zero behind them. */
  ghost predicate Text(s: Bytes, at: nat, size: nat)
    requires at + size <= |s|
  {
    exists n: nat :: 0 < n < size && IsText(s, at, n)
  }

  ghost predicate IsText(s: Bytes, at: nat, n: nat)
    requires at + n < |s|
  {
    s[at + n] == 0 && forall i :: at <= i < at + n ==> s[i] >= 32
  }

  lemma TextIs(s: Bytes, at: nat, size: nat)
    requires at + size <= |s|
    ensures ValidString(s[at..at + size]) <==> Text(s, at, size)
  {
    var id := s[at..at + size];
    var k := FirstNul(id);
    if ValidString(id) {
      forall i | at <= i < at + k
        ensures s[i] >= 32
      {
        assert id[..k][i - at] == s[i];
      }
      assert s[at + k] == id[k];
      assert IsText(s, at, k);
    }
    if Text(s, at, size) {
      var n: nat :| 0 < n < size && IsText(s, at, n);
      forall i | 0 <= i < n
        ensures id[i] >= 32
      {
        assert id[i] == s[at + i];
      }
      assert id[n] == s[at + n] == 0;
      assert k == n;
    }
  }

  /** The string in a field of `size` bytes. */
  ghost predicate Spells(s: Bytes, at: nat, size: nat, id: Bytes)
    requires at + size <= |s|
  {
    |id| < size && s[at..at + |id|] == id && s[at + |id|] == 0 && forall i :: 0 <= i < |id| ==> id[i] != 0
  }

  lemma SpellsIs(s: Bytes, at: nat, size: nat, id: Bytes)
    requires at + size <= |s| && ValidString(s[at..at + size])
    ensures StringValue(s[at..at + size]) == id <==> Spells(s, at, size, id)
  {
    var f := s[at..at + size];
    var k := FirstNul(f);
    assert f[..k] == s[at..at + k] && f[k] == s[at + k];
    if Spells(s, at, size, id) {
      assert id == s[at..at + |id|];
      assert f[|id|] == 0;
      forall i | 0 <= i < |id|
        ensures f[i] != 0
      {
        assert f[i] == id[i];
      }
      assert k == |id|;
    }
  }

  // ----- the prefix of a request

  lemma NextSize(kinds: seq<Kind>, i: nat)
    requires i < |kinds|
    ensures Size(kinds[..i + 1]) == Size(kinds[..i]) + Width(kinds[i])
  {
    SizeJoins(kinds[..i], [kinds[i]]);
    assert kinds[..i + 1] == kinds[..i] + [kinds[i]];
  }

  /** The first `i` fields of a record take `n` bytes. */
  ghost predicate Ends(kinds: seq<Kind>, i: nat, n: nat) {
    i <= |kinds| && Size(kinds[..i]) == n
  }

  lemma EndsNext(kinds: seq<Kind>, i: nat, n: nat)
    requires i < |kinds| && Ends(kinds, i, n)
    ensures Ends(kinds, i + 1, n + Width(kinds[i]))
  {
    hide Size;
    NextSize(kinds, i);
  }

  lemma EndsFirst(kinds: seq<Kind>)
    ensures Ends(kinds, 0, 0)
  {
  }

  lemma EndsWhole(kinds: seq<Kind>, n: nat)
    requires Ends(kinds, |kinds|, n)
    ensures Size(kinds) == n
  {
    hide Size;
    assert kinds[..|kinds|] == kinds;
  }

  lemma FieldOf(kinds: seq<Kind>, s: Bytes, at: nat, i: nat, n: nat)
    requires |s| >= at + Size(kinds) && i < |kinds| && Ends(kinds, i, n)
    ensures at + n + Width(kinds[i]) <= |s| && Fields(kinds, s, at)[i] == WordAt(kinds[i], s, at + n)
  {
    hide Size, Fields, WordAt;
    FieldAt(kinds, s, at, i);
  }

  lemma PrefixSizes()
    ensures Ends(PREFIX, 0, 0) && Ends(PREFIX, 1, 4) && Ends(PREFIX, 2, 8) && Ends(PREFIX, 3, 12)
    ensures Ends(PREFIX, 4, 16) && Ends(PREFIX, 5, 20) && Ends(PREFIX, 6, 28) && Ends(PREFIX, 7, 36)
    ensures Ends(PREFIX, 8, 44) && Ends(PREFIX, 9, 48) && Ends(PREFIX, 10, 52) && Ends(PREFIX, 11, 56)
    ensures Ends(PREFIX, 12, 60) && Ends(PREFIX, 13, 64) && Ends(PREFIX, 14, 72) && Ends(PREFIX, 15, 80)
  {
    hide Ends;
    EndsFirst(PREFIX);
    EndsNext(PREFIX, 0, 0);
    EndsNext(PREFIX, 1, 4);
    EndsNext(PREFIX, 2, 8);
    EndsNext(PREFIX, 3, 12);
    EndsNext(PREFIX, 4, 16);
    EndsNext(PREFIX, 5, 20);
    EndsNext(PREFIX, 6, 28);
    EndsNext(PREFIX, 7, 36);
    EndsNext(PREFIX, 8, 44);
    EndsNext(PREFIX, 9, 48);
    EndsNext(PREFIX, 10, 52);
    EndsNext(PREFIX, 11, 56);
    EndsNext(PREFIX, 12, 60);
    EndsNext(PREFIX, 13, 64);
    EndsNext(PREFIX, 14, 72);
  }

  /** The fifteen fields of the prefix. */
  lemma PrefixInBytes(s: Bytes)
    requires |s| >= 80
    ensures Size(PREFIX) == 80
    ensures Fields(PREFIX, s, 0) == [
      U32(s, 0), U32(s, 4), U32(s, 8), I32(s, 12), I32(s, 16), U64(s, 20), U64(s, 28), U64(s, 36),
      I32(s, 44), I32(s, 48), I32(s, 52), I32(s, 56), I32(s, 60), U64(s, 64), U64(s, 72)]
  {
    hide Ends, Size, Fields, U32, I32, U64;
    PrefixSizes();
    EndsWhole(PREFIX, 80);
    FieldOf(PREFIX, s, 0, 0, 0);
    FieldOf(PREFIX, s, 0, 1, 4);
    FieldOf(PREFIX, s, 0, 2, 8);
    FieldOf(PREFIX, s, 0, 3, 12);
    FieldOf(PREFIX, s, 0, 4, 16);
    FieldOf(PREFIX, s, 0, 5, 20);
    FieldOf(PREFIX, s, 0, 6, 28);
    FieldOf(PREFIX, s, 0, 7, 36);
    FieldOf(PREFIX, s, 0, 8, 44);
    FieldOf(PREFIX, s, 0, 9, 48);
    FieldOf(PREFIX, s, 0, 10, 52);
    FieldOf(PREFIX, s, 0, 11, 56);
    FieldOf(PREFIX, s, 0, 12, 60);
    FieldOf(PREFIX, s, 0, 13, 64);
    FieldOf(PREFIX, s, 0, 14, 72);
  }

  // ----- the model of a request

  /** Its thirteen doubles, two integers and positions. */
  lemma ModelInBytes(k: nat, s: Bytes, at: nat)
    requires at + 112 + 8 * k <= |s|
    ensures Size(ModelKinds(k)) == 112 + 8 * k
    ensures forall i: nat :: i < 13 ==> Fields(ModelKinds(k), s, at)[i] == U64(s, at + 8 * i)
    ensures Fields(ModelKinds(k), s, at)[13] == I32(s, at + 104)
    ensures Fields(ModelKinds(k), s, at)[14] == I32(s, at + 108)
    ensures forall j: nat :: j < k ==> Fields(ModelKinds(k), s, at)[15 + j] == U64(s, at + 112 + 8 * j)
  {
    ModelSize(k);
    forall i: nat | i < 13
      ensures Fields(ModelKinds(k), s, at)[i] == U64(s, at + 8 * i)
    {
      ModelField(k, s, at, i);
    }
    ModelField(k, s, at, 13);
    ModelField(k, s, at, 14);
    forall j: nat | j < k
      ensures Fields(ModelKinds(k), s, at)[15 + j] == U64(s, at + 112 + 8 * j)
    {
      ModelField(k, s, at, 15 + j);
    }
    hide Fields, Size, ModelKinds, U64, I32;
  }

  lemma ModelSize(k: nat)
    ensures Size(ModelKinds(k)) == 112 + 8 * k
  {
    SizeJoins(Repeat(W8, 13) + [I4, I4], Repeat(W8, k));
    SizeJoins(Repeat(W8, 13), [I4, I4]);
    SizeRepeat(W8, 13);
    SizeRepeat(W8, k);
    SizesOfSizes();
    hide Size;
  }

  lemma ModelField(k: nat, s: Bytes, at: nat, i: nat)
    requires at + 112 + 8 * k <= |s| && i < 15 + k && Size(ModelKinds(k)) == 112 + 8 * k
    ensures i < 13 ==> Fields(ModelKinds(k), s, at)[i] == U64(s, at + 8 * i)
    ensures i == 13 ==> Fields(ModelKinds(k), s, at)[i] == I32(s, at + 104)
    ensures i == 14 ==> Fields(ModelKinds(k), s, at)[i] == I32(s, at + 108)
    ensures i >= 15 ==> Fields(ModelKinds(k), s, at)[i] == U64(s, at + 112 + 8 * (i - 15))
  {
    ModelUpTo(k, i);
    hide Size, Fields, U64, I32;
    FieldAt(ModelKinds(k), s, at, i);
  }

  lemma ModelUpTo(k: nat, i: nat)
    requires i < 15 + k
    ensures Size(ModelKinds(k)[..i]) == if i <= 13 then 8 * i else if i == 14 then 108 else 112 + 8 * (i - 15)
  {
    hide Size, ModelKinds;
    WordsOfModel(k, if i <= 13 then i else 13);
    if i >= 14 {
      MiddleOfModel(k);
      if i >= 15 {
        PositionsOfModel(k, i - 15);
      }
    }
  }

  lemma WordsOfModel(k: nat, i: nat)
    requires i <= 13
    ensures Size(ModelKinds(k)[..i]) == 8 * i
  {
    SizeRepeat(W8, i);
    hide Size;
    assert ModelKinds(k)[..i] == Repeat(W8, i);
  }

  lemma MiddleOfModel(k: nat)
    ensures Size(ModelKinds(k)[..14]) == 108 && Size(ModelKinds(k)[..15]) == 112
  {
    WordsOfModel(k, 13);
    hide Size;
    assert ModelKinds(k)[13] == I4 && ModelKinds(k)[14] == I4;
    NextSize(ModelKinds(k), 13);
    NextSize(ModelKinds(k), 14);
  }

  lemma PositionsOfModel(k: nat, j: nat)
    requires j <= k
    ensures Size(ModelKinds(k)[..15 + j]) == 112 + 8 * j
  {
    MiddleOfModel(k);
    hide Size;
    SizeRepeat(W8, j);
    SizeJoins(ModelKinds(k)[..15], Repeat(W8, j));
    assert ModelKinds(k)[..15 + j] == ModelKinds(k)[..15] + Repeat(W8, j);
  }

  // ----- what the parser makes of a frame

  /** The checks on the prefix: schema and protocol 1, a sequence number, sizes, a finite time and a positive step. */
  ghost predicate SoundPrefix(s: Bytes)
    requires |s| >= 80
  {
    && U32(s, 0) == 1 && U32(s, 4) == 1 && U32(s, 8) != 0
    && I32(s, 48) >= 2 && I32(s, 44) == 6 * (I32(s, 48) + 1) && I32(s, 52) >= 1
    && (I32(s, 56) == 3 || I32(s, 56) == 5) && I32(s, 60) > 0
    && IsFinite(U64(s, 28)) && IsFinite(U64(s, 36)) && 0 < U64(s, 36) < 0x8000_0000_0000_0000
  }

  /** Where the model ends. */
  function ModelEnd(s: Bytes): int
    requires |s| >= 80
  {
    192 + 8 * I32(s, 52)
  }

  /** Behind the two sizes: a third one, if four more bytes hold zero or the dof. */
  predicate MassAt(s: Bytes, e: nat)
    requires |s| >= 80
  {
    e + 12 <= |s| && (I32(s, e + 8) == 0 || I32(s, e + 8) == I32(s, 44))
  }

  /** The return code of the part from the digest on: the arrays must fill the frame, under their digest, with finite
      words. */
  ghost function ArraysCode(sha: Bytes -> Bytes, s: Bytes, e: nat, d: nat, rows: int): nat
    requires 80 <= e <= |s| && d + 224 <= |s|
  {
    if |s| != d + 224 + 8 * (4 * I32(s, 44) + rows * rows + 3 * I32(s, 52)) then 8
    else if s[d + 192..d + 224] != sha(s[80..e] + s[d + 224..]) then 9
    else if exists i: nat :: d + 224 + 8 * i + 8 <= |s| && !IsFinite(U64(s, d + 224 + 8 * i)) then 9
    else 0
  }

  /** The return code of the part from the ids on: they stand at `d`, the digest 192 and the arrays 224 bytes on. */
  ghost function TailCode(sha: Bytes -> Bytes, s: Bytes, e: nat, d: nat, rows: int, expected: int,
                          latch: Option<Latch>): nat
    requires 80 <= e <= |s| && d <= |s|
  {
    if |s| < d + 224 then 6
    else if !(Text(s, d, 64) && Text(s, d + 64, 64) && Text(s, d + 128, 32) && Text(s, d + 160, 32)) then 7
    else if U32(s, 8) != expected then 13
    else if latch.Some? && !(Spells(s, d, 64, latch.value.run) && Spells(s, d + 64, 64, latch.value.case_)) then 14
    else ArraysCode(sha, s, e, d, rows)
  }

  /** The return code of the parser in the bytes of the frame; zero for a frame that is parsed. */
  ghost function Code(sha: Bytes -> Bytes, s: Bytes, expected: int, latch: Option<Latch>): nat {
    if |s| < 80 then 2
    else if !SoundPrefix(s) then 3
    else
      var e := ModelEnd(s);
      if |s| < e || I32(s, 184) != I32(s, 56) || I32(s, 188) != I32(s, 60) then 4
      else if |s| < e + 8 || I32(s, e) != I32(s, 44) || I32(s, e + 4) != 3 * I32(s, 52) then 5
      else if MassAt(s, e) then TailCode(sha, s, e, e + 12, I32(s, e + 8), expected, latch)
      else TailCode(sha, s, e, e + 8, 0, expected, latch)
  }

  /** `values` stand at `at`, eight bytes each. */
  predicate WordsStand(s: Bytes, at: nat, values: seq<int>) {
    at + 8 * |values| <= |s| && forall i: nat :: i < |values| ==> values[i] == U64(s, at + 8 * i)
  }

  predicate PrefixStands(s: Bytes, r: Request)
    requires |s| >= 80
  {
    && r.sequence == U32(s, 8) && r.globalStep == I32(s, 12) && r.bridgeStep == I32(s, 16) && r.tick == U64(s, 20)
    && r.time == U64(s, 28) && r.dt == U64(s, 36) && r.requestId == U64(s, 64) && r.transactionId == U64(s, 72)
    && r.model.elements == I32(s, 48) && r.model.slices == I32(s, 52)
    && r.model.gaussOrder == I32(s, 56) && r.model.maxNewton == I32(s, 60)
  }

  /** The thirteen doubles of the model and its positions. */
  predicate ModelStands(s: Bytes, m: Model) {
    && |m.words| == 13 && WordsStand(s, 80, m.words)
    && |m.positions| == m.slices && WordsStand(s, 192, m.positions)
  }

  ghost predicate IdsStandAt(s: Bytes, r: Request, d: nat)
    requires d + 224 <= |s|
  {
    && Spells(s, d, 64, r.run) && Spells(s, d + 64, 64, r.case_)
    && Spells(s, d + 128, 32, r.producer) && Spells(s, d + 160, 32, r.consumer)
  }

  /** The arrays fill the frame from `a` on; the mass matrix has `k` entries. */
  predicate ArraysStand(s: Bytes, r: Request, a: nat, k: nat) {
    var n := 6 * (r.model.elements + 1);
    && n >= 0 && |r.q| == |r.qdot| == |r.qddot| == |r.base| == n && |r.mass| == k && |r.force| == 3 * r.model.slices
    && WordsStand(s, a, r.q) && WordsStand(s, a + 8 * n, r.qdot) && WordsStand(s, a + 16 * n, r.qddot)
    && WordsStand(s, a + 24 * n, r.base) && WordsStand(s, a + 32 * n, r.mass)
    && WordsStand(s, a + 32 * n + 8 * k, r.force) && |s| == a + 32 * n + 8 * k + 24 * r.model.slices
  }

  /** Every field of the request stands in the frame: prefix, model, ids at `d`, and arrays behind the digest. */
  ghost predicate Stands(s: Bytes, r: Request, d: nat, k: nat) {
    && 192 <= d && d + 224 <= |s|
    && PrefixStands(s, r) && ModelStands(s, r.model) && IdsStandAt(s, r, d) && ArraysStand(s, r, d + 224, k)
  }

  lemma PrefixSound(s: Bytes)
    requires |s| >= 80 && Size(PREFIX) == 80
    ensures Header(Fields(PREFIX, s, 0)).Valid() <==> SoundPrefix(s)
  {
    hide Fields, U32, I32, U64, Finite, IsFinite, Size;
    PrefixInBytes(s);
    WordRange(s, 28);
    WordRange(s, 36);
    FiniteIs(U64(s, 28));
    FiniteIs(U64(s, 36));
  }

  lemma WordRange(s: Bytes, i: nat)
    requires i + 8 <= |s|
    ensures Fits(W8, U64(s, i))
  {
  }

  lemma ArraysFinite(s: Bytes, a: nat, count: nat)
    requires |s| == a + 8 * count
    ensures a + Size(Repeat(W8, count)) == |s|
    ensures WordsStand(s, a, Fields(Repeat(W8, count), s, a))
    ensures AllFinite(Fields(Repeat(W8, count), s, a))
      <==> !exists i: nat :: a + 8 * i + 8 <= |s| && !IsFinite(U64(s, a + 8 * i))
  {
    hide Fields, Size, U64, Finite, IsFinite;
    SizeRepeat(W8, count);
    forall i: nat | i < count
      ensures Fields(Repeat(W8, count), s, a)[i] == U64(s, a + 8 * i)
      ensures Finite(U64(s, a + 8 * i)) <==> IsFinite(U64(s, a + 8 * i))
    {
      RepeatedField(count, s, a, i);
      WordRange(s, a + 8 * i);
      FiniteIs(U64(s, a + 8 * i));
    }
  }

  ghost predicate Says(r: Result<Request, nat>, code: nat) {
    match r
    case Ok(_) => code == 0
    case Err(error) => error == code != 0
  }

  /** Header and model as they stand in the frame. */
  ghost predicate Reads(s: Bytes, h: Header, m: seq<int>, e: nat) {
    && |s| >= 80 && Size(PREFIX) == 80 && h.values == Fields(PREFIX, s, 0) && h.Valid()
    && e == 192 + 8 * h.values[10] <= |s| && Size(ModelKinds(h.values[10])) == e - 80
    && m == Fields(ModelKinds(h.values[10]), s, 80)
  }

  lemma ReadSizes(s: Bytes, h: Header, m: seq<int>, e: nat)
    requires Reads(s, h, m, e)
    ensures h.values[2] == U32(s, 8) && h.values[8] == I32(s, 44) && h.values[9] == I32(s, 48)
    ensures h.values[10] == I32(s, 52) && |m| == 15 + h.values[10]
  {
    hide Size, Fields, U32, I32, U64, ModelKinds, Finite;
    PrefixInBytes(s);
  }

  lemma IdsInBytes(s: Bytes, d: nat)
    requires d + 224 <= |s|
    ensures IdsAt(s, d) == RawIds(s[d..d + 64], s[d + 64..d + 128], s[d + 128..d + 160], s[d + 160..d + 192])
    ensures IdsAt(s, d).Valid() <==>
      Text(s, d, 64) && Text(s, d + 64, 64) && Text(s, d + 128, 32) && Text(s, d + 160, 32)
  {
    hide ValidString, Text;
    TextIs(s, d, 64);
    TextIs(s, d + 64, 64);
    TextIs(s, d + 128, 32);
    TextIs(s, d + 160, 32);
  }

  lemma LatchInBytes(s: Bytes, d: nat, latch: Latch)
    requires d + 224 <= |s| && IdsAt(s, d).Valid()
    ensures latch == Latch(StringValue(IdsAt(s, d).run), StringValue(IdsAt(s, d).case_))
      <==> Spells(s, d, 64, latch.run) && Spells(s, d + 64, 64, latch.case_)
  {
    hide ValidString, StringValue, Spells;
    IdsInBytes(s, d);
    SpellsIs(s, d, 64, latch.run);
    SpellsIs(s, d + 64, 64, latch.case_);
  }

  /** The part from the ids on is refused for the reasons, and with the codes, of the bytes. */
  lemma TailInBytes(sha: Bytes -> Bytes, s: Bytes, h: Header, m: seq<int>, e: nat, expected: int,
                    latch: Option<Latch>, rows: nat, d: nat)
    requires Reads(s, h, m, e) && |m| == 15 + h.values[10] && d <= |s|
    ensures Says(ParseTail(sha, s, h, s[80..e], m, expected, latch, rows, d),
                 TailCode(sha, s, e, d, rows, expected, latch))
  {
    hide Size, Fields, U32, I32, U64, ModelKinds, Finite, IsFinite, Text, Spells, ValidString, StringValue, IdsAt,
         RawIds.Valid, Arranged, AllFinite, Header.Valid;
    ReadSizes(s, h, m, e);
    if d + 224 <= |s| {
      IdsInBytes(s, d);
      if IdsAt(s, d).Valid() && latch.Some? {
        LatchInBytes(s, d, latch.value);
      }
      ArraysInBytes(sha, s, h, m, IdsAt(s, d), e, rows, d);
    }
  }

  lemma ArraysInBytes(sha: Bytes -> Bytes, s: Bytes, h: Header, m: seq<int>, ids: RawIds, e: nat, rows: nat, d: nat)
    requires Reads(s, h, m, e) && |m| == 15 + h.values[10] && d + 224 <= |s|
    ensures Says(ParseArrays(sha, s, h, s[80..e], m, ids, rows, d + 192), ArraysCode(sha, s, e, d, rows))
  {
    hide Size, Fields, U32, I32, U64, ModelKinds, Finite, IsFinite, Arranged, AllFinite;
    ReadSizes(s, h, m, e);
    var count := ArrayCount(h, rows);
    SizeRepeat(W8, count);
    if |s| == d + 224 + 8 * count {
      ArraysFinite(s, d + 224, count);
    }
  }

  /** A parsed tail takes its fields from the bytes. */
  lemma TailStands(sha: Bytes -> Bytes, s: Bytes, h: Header, m: seq<int>, e: nat, expected: int,
                   latch: Option<Latch>, rows: nat, d: nat)
    requires Reads(s, h, m, e) && |m| == 15 + h.values[10] && e <= d <= |s| && d >= 192
    requires m[13] == h.values[11] && m[14] == h.values[12]
    ensures var r := ParseTail(sha, s, h, s[80..e], m, expected, latch, rows, d);
      r.Ok? ==> Stands(s, r.value, d, Square(rows))
  {
    hide Size, Fields, ModelKinds, AllFinite, ValidString, StringValue, IdsAt, IdsStandAt, ArraysStand,
         Finite, ParseTail, ModelStands, PrefixStands, Arranged, ArrayCount, Header.Valid, RawIds.Valid;
    var r := ParseTail(sha, s, h, s[80..e], m, expected, latch, rows, d);
    if r.Ok? {
      TailArranges(sha, s, h, m, e, expected, latch, rows, d);
      var ids, x := IdsAt(s, d), Fields(Repeat(W8, ArrayCount(h, rows)), s, d + 224);
      IdsSpell(s, h, m, ids, x, rows, d);
      WordsOfArrays(s, h, rows, d + 224);
      PrefixArranged(s, h, m, ids, x, rows, e);
      ModelArranged(s, h, m, ids, x, rows, e);
      ArraysArranged(s, h, m, ids, x, rows, d + 224);
    }
  }

  lemma TailArranges(sha: Bytes -> Bytes, s: Bytes, h: Header, m: seq<int>, e: nat, expected: int,
                     latch: Option<Latch>, rows: nat, d: nat)
    requires Reads(s, h, m, e) && |m| == 15 + h.values[10] && e <= d <= |s|
    requires ParseTail(sha, s, h, s[80..e], m, expected, latch, rows, d).Ok?
    ensures d + 224 + Size(Repeat(W8, ArrayCount(h, rows))) == |s| && IdsAt(s, d).Valid()
    ensures AllFinite(Fields(Repeat(W8, ArrayCount(h, rows)), s, d + 224))
    ensures ParseTail(sha, s, h, s[80..e], m, expected, latch, rows, d)
      == Ok(Arranged(h, m, IdsAt(s, d), Fields(Repeat(W8, ArrayCount(h, rows)), s, d + 224), rows))
  {
    hide Size, Fields, ModelKinds, AllFinite, RawIds.Valid, StringValue, IdsAt, Arranged, ArrayCount, Header.Valid;
  }

  lemma IdsSpell(s: Bytes, h: Header, m: seq<int>, ids: RawIds, x: seq<int>, rows: nat, d: nat)
    requires d + 224 <= |s| && ids == IdsAt(s, d) && ids.Valid()
    requires h.Valid() && |m| == 15 + h.values[10] && |x| == ArrayCount(h, rows)
    ensures IdsStandAt(s, Arranged(h, m, ids, x, rows), d)
  {
    hide ValidString, StringValue, Spells, ArrayCount, Header.Valid;
    IdsInBytes(s, d);
    SpellsIs(s, d, 64, StringValue(ids.run));
    SpellsIs(s, d + 64, 64, StringValue(ids.case_));
    SpellsIs(s, d + 128, 32, StringValue(ids.producer));
    SpellsIs(s, d + 160, 32, StringValue(ids.consumer));
  }

  lemma WordsOfArrays(s: Bytes, h: Header, rows: nat, a: nat)
    requires h.Valid() && |s| == a + Size(Repeat(W8, ArrayCount(h, rows)))
    ensures |s| == a + 8 * ArrayCount(h, rows)
    ensures WordsStand(s, a, Fields(Repeat(W8, ArrayCount(h, rows)), s, a))
  {
    hide Size, Fields, U64, AllFinite, IsFinite, ArrayCount, Header.Valid;
    SizeRepeat(W8, ArrayCount(h, rows));
    ArraysFinite(s, a, ArrayCount(h, rows));
  }

  /** A stretch of the words that stand at `a` stands eight bytes further on for each word before it. */
  lemma StretchStands(s: Bytes, a: nat, values: seq<int>, i: nat, j: nat, at: nat)
    requires WordsStand(s, a, values) && i <= j <= |values| && at == a + 8 * i
    ensures WordsStand(s, at, values[i..j])
  {
    hide U64;
    forall l: nat | l < j - i
      ensures values[i..j][l] == U64(s, at + 8 * l)
    {
      assert values[i..j][l] == values[i + l];
    }
  }

  lemma PrefixArranged(s: Bytes, h: Header, m: seq<int>, ids: RawIds, x: seq<int>, rows: nat, e: nat)
    requires Reads(s, h, m, e) && |m| == 15 + h.values[10] && |x| == ArrayCount(h, rows)
    requires m[13] == h.values[11] && m[14] == h.values[12]
    ensures PrefixStands(s, Arranged(h, m, ids, x, rows))
  {
    hide Size, Fields, U32, I32, U64, ModelKinds, StringValue, Finite, ArrayCount;
    PrefixInBytes(s);
  }

  lemma ModelArranged(s: Bytes, h: Header, m: seq<int>, ids: RawIds, x: seq<int>, rows: nat, e: nat)
    requires Reads(s, h, m, e) && |m| == 15 + h.values[10] && |x| == ArrayCount(h, rows)
    ensures ModelStands(s, Arranged(h, m, ids, x, rows).model)
  {
    hide Size, Fields, I32, U64, ModelKinds, StringValue, Finite, ArrayCount;
    var k := h.values[10];
    ModelInBytes(k, s, 80);
    forall j: nat | j < k
      ensures m[15..][j] == U64(s, 192 + 8 * j)
    {
      assert m[15..][j] == m[15 + j];
    }
  }

  lemma ArraysArranged(s: Bytes, h: Header, m: seq<int>, ids: RawIds, x: seq<int>, rows: nat, a: nat)
    requires h.Valid() && |m| == 15 + h.values[10] && |x| == ArrayCount(h, rows)
    requires |s| == a + 8 * |x| && WordsStand(s, a, x)
    ensures ArraysStand(s, Arranged(h, m, ids, x, rows), a, Square(rows))
  {
    hide StringValue, WordsStand, Finite, Square;
    var n, k := h.values[8], Square(rows);
    StretchStands(s, a, x, 0, n, a);
    StretchStands(s, a, x, n, 2 * n, a + 8 * n);
    StretchStands(s, a, x, 2 * n, 3 * n, a + 16 * n);
    StretchStands(s, a, x, 3 * n, 4 * n, a + 24 * n);
    StretchStands(s, a, x, 4 * n, 4 * n + k, a + 32 * n);
    StretchStands(s, a, x, 4 * n + k, |x|, a + 32 * n + 8 * k);
    assert x[0..n] == x[..n] && x[4 * n + k..|x|] == x[4 * n + k..];
  }

  /** The parser returns the code that the bytes of the frame call for. */
  lemma ParseInBytes(sha: Bytes -> Bytes, s: Bytes, expected: int, latch: Option<Latch>)
    ensures Says(Parse(sha, s, expected, latch), Code(sha, s, expected, latch))
  {
    hide Fields, Size, U32, I32, U64, ModelKinds, Header.Valid, SoundPrefix, ParseTail, TailCode, PREFIX;
    SizeOfPrefix();
    if |s| >= 80 {
      PrefixSound(s);
      if SoundPrefix(s) {
        ModelInCode(sha, s, Header(Fields(PREFIX, s, 0)), expected, latch);
      }
    }
  }

  lemma SizeOfPrefix()
    ensures Size(PREFIX) == 80
  {
    hide Size, Ends;
    PrefixSizes();
    EndsWhole(PREFIX, 80);
  }

  lemma SizesInBytes(s: Bytes, e: nat)
    requires e + 8 <= |s|
    ensures Size([I4, I4]) == 8 && Fields([I4, I4], s, e) == [I32(s, e), I32(s, e + 4)]
  {
    hide Size, Fields, I32, Ends;
    SizesOfSizes();
    EndsFirst([I4, I4]);
    EndsNext([I4, I4], 0, 0);
    FieldOf([I4, I4], s, e, 0, 0);
    FieldOf([I4, I4], s, e, 1, 4);
  }

  lemma GuessInBytes(s: Bytes, e: nat)
    requires |s| >= 80 && e + 8 <= |s|
    ensures MassGuess(s, e + 8, I32(s, 44)) == if MassAt(s, e) then (I32(s, e + 8), e + 12) else (0, e + 8)
  {
    hide Read, I32;
    if e + 12 <= |s| {
      ReadFour(s, e + 8);
    }
  }

  /** Where the ids start, and how many rows the mass matrix has. */
  function IdsStart(s: Bytes): (r: (nat, nat))
    requires |s| >= 80 && ModelEnd(s) >= 0
  {
    var e: nat := ModelEnd(s);
    if MassAt(s, e) && I32(s, e + 8) >= 0 then (e + 12, I32(s, e + 8)) else (e + 8, 0)
  }

  /** Every field of the request stands where the sizes in the frame put it. */
  ghost predicate InFrame(s: Bytes, r: Request) {
    && |s| >= 80 && ModelEnd(s) >= 0 && Stands(s, r, IdsStart(s).0, IdsStart(s).1 * IdsStart(s).1)
  }

  lemma ModelReads(s: Bytes, h: Header)
    requires |s| >= 80 && Size(PREFIX) == 80 && h == Header(Fields(PREFIX, s, 0)) && h.Valid()
    ensures h.values[8] == I32(s, 44) && h.values[10] == I32(s, 52)
    ensures Size(ModelKinds(h.values[10])) == ModelEnd(s) - 80
    ensures ModelEnd(s) <= |s| ==>
      var m := Fields(ModelKinds(h.values[10]), s, 80);
      && Reads(s, h, m, ModelEnd(s)) && m[13] == I32(s, 184) && m[14] == I32(s, 188)
      && h.values[11] == I32(s, 56) && h.values[12] == I32(s, 60)
  {
    hide Fields, Size, U32, I32, U64, ModelKinds, Finite;
    PrefixInBytes(s);
    ModelSize(h.values[10]);
    if ModelEnd(s) <= |s| {
      ModelInBytes(h.values[10], s, 80);
    }
  }

  lemma ModelInCode(sha: Bytes -> Bytes, s: Bytes, h: Header, expected: int, latch: Option<Latch>)
    requires |s| >= 80 && Size(PREFIX) == 80 && h == Header(Fields(PREFIX, s, 0)) && h.Valid() && SoundPrefix(s)
    ensures Says(ParseModel(sha, s, h, 80, expected, latch), Code(sha, s, expected, latch))
    ensures var r := ParseModel(sha, s, h, 80, expected, latch);
      r.Ok? ==> InFrame(s, r.value)
  {
    hide Fields, Size, U32, I32, U64, ModelKinds, ParseTail, TailCode, MassGuess, Stands, Finite, IsFinite, Reads,
         SoundPrefix, ModelEnd;
    ModelReads(s, h);
    var e := ModelEnd(s);
    EndAhead(s);
    SizesOfSizes();
    if e + 8 <= |s| {
      var m := Fields(ModelKinds(h.values[10]), s, 80);
      SizesInBytes(s, e);
      GuessInBytes(s, e);
      TailInBytes(sha, s, h, m, e, expected, latch, IdsStart(s).1, IdsStart(s).0);
      if m[13] == h.values[11] && m[14] == h.values[12] {
        TailStands(sha, s, h, m, e, expected, latch, IdsStart(s).1, IdsStart(s).0);
      }
    }
  }

  lemma EndAhead(s: Bytes)
    requires |s| >= 80 && SoundPrefix(s)
    ensures ModelEnd(s) >= 200 && I32(s, 44) >= 0
  {
    hide U32, I32, U64, IsFinite;
  }

  /** A parsed request is what stands in the bytes of its frame. */
  lemma ParsedStands(sha: Bytes -> Bytes, s: Bytes, expected: int, latch: Option<Latch>)
    ensures Parse(sha, s, expected, latch).Ok? ==> InFrame(s, Parse(sha, s, expected, latch).value)
  {
    hide Fields, Size, U32, I32, U64, ModelKinds, Header.Valid, SoundPrefix, ParseModel, PREFIX, InFrame, Code;
    SizeOfPrefix();
    if |s| >= 80 {
      PrefixSound(s);
      if SoundPrefix(s) {
        ModelInCode(sha, s, Header(Fields(PREFIX, s, 0)), expected, latch);
      }
    }
  }

  // ----- which frames the finite words decide

  /** A frame that passes every other check is parsed exactly when no entry of its arrays is infinite or a NaN. */
  lemma FiniteDecides(sha: Bytes -> Bytes, r: Request, expected: int, latch: Option<Latch>)
    requires Fitting(r) && IsDigest(sha) && CleanIds(r) && ValidIds(r) && !Collides(r) && Admits(r, expected, latch)
    ensures var words := r.q + r.qdot + r.qddot + r.base + r.mass + r.force;
      Parse(sha, Payload(sha, r), expected, latch)
      == if forall i :: 0 <= i < |words| ==> IsFinite(words[i]) then Ok(r) else Err(9)
  {
    hide Parse, Payload, Fitting, Clean, Collides, Finite, IsFinite;
    FrameOutcome(sha, r, expected, latch);
    FittingWords(r);
    var words := ArrayValues(r);
    forall i | 0 <= i < |words|
      ensures Finite(words[i]) <==> IsFinite(words[i])
    {
      FiniteIs(words[i]);
    }
  }

  lemma FittingWords(r: Request)
    requires Fitting(r)
    ensures Words(ArrayValues(r))
  {
  }

  const ONE := 0x3FF0_0000_0000_0000
  const NAN := 0x7FF8_0000_0000_0000

  /** A two-element line at rest with one slice; entry 5 of its positions is the given word. */
  function Example(word: int): Request {
    var zeros := seq(18, _ => 0);
    Request(1, 0, 1, 0, 0, ONE, 1, 1, [82, 117, 110], [67], [80], [83],
            Model(2, 1, seq(13, _ => 0), 3, 20, [0]),
            seq(18, i => if i == 5 then word else 0), zeros, zeros, zeros, [], [0, 0, 0])
  }

  lemma ExampleFits(word: int)
    requires Fits(W8, word)
    ensures Fitting(Example(word)) && CleanIds(Example(word)) && !Collides(Example(word))
  {
    var r := Example(word);
    assert Fixed([82, 117, 110], 64)[..4] == [82, 117, 110, 0];
    FourBytes(82, 117, 110, 0);
  }

  lemma ExampleIsFinite(word: int)
    requires Fits(W8, word)
    ensures AllFinite(ArrayValues(Example(word))) <==> Finite(word)
  {
    var values := ArrayValues(Example(word));
    assert forall i :: 0 <= i < |values| ==> values[i] == if i == 5 then word else 0;
    assert values[5] == word && Finite(0);
  }

  /** Two printed frames that differ in one word: with 1.0 the frame is parsed, with a NaN it is refused. */
  lemma OneIsParsedNanIsNot(sha: Bytes -> Bytes)
    requires IsDigest(sha)
    ensures Fitting(Example(ONE)) && Fitting(Example(NAN))
    ensures Parse(sha, Payload(sha, Example(ONE)), 1, None) == Ok(Example(ONE))
    ensures Parse(sha, Payload(sha, Example(NAN)), 1, None) == Err(9)
  {
    hide Parse, Payload, Fitting, Clean, Collides, Finite;
    ExampleFits(ONE);
    ExampleFits(NAN);
    ExampleIsFinite(ONE);
    ExampleIsFinite(NAN);
    WordOfDouble(ONE, 0, 1023, 0);
    WordOfDouble(NAN, 0, 2047, 0x8_0000_0000_0000);
    FrameOutcome(sha, Example(ONE), 1, None);
    FrameOutcome(sha, Example(NAN), 1, None);
  }

  // ----- what is parsed could have been printed

  lemma WordFits(k: Kind, s: Bytes, i: nat)
    requires i + Width(k) <= |s|
    ensures Fits(k, WordAt(k, s, i))
  {
  }

  /** Whatever is read from a frame fits its place. */
  lemma {:induction false} FieldsFit(kinds: seq<Kind>, s: Bytes, at: nat)
    requires at + Size(kinds) <= |s|
    ensures AllFit(kinds, Fields(kinds, s, at))
    decreases |kinds|
  {
    hide Read, WordAt, Fits;
    if kinds != [] {
      ReadsWord(kinds[0], s, at);
      WordFits(kinds[0], s, at);
      FieldsFit(kinds[1..], s, at + Width(kinds[0]));
    }
  }

  /** Prefix and model of the arranged request are those that were read. */
  lemma HeadBack(s: Bytes, h: Header, m: seq<int>, e: nat, ids: RawIds, x: seq<int>, rows: nat)
    requires Reads(s, h, m, e) && |m| == 15 + h.values[10] && |x| == ArrayCount(h, rows)
    requires m[13] == h.values[11] && m[14] == h.values[12]
    ensures var r := Arranged(h, m, ids, x, rows);
      && PrefixValues(r) == h.values && AllFit(PREFIX, PrefixValues(r)) && ValidModel(r.model)
      && ModelValues(r.model) == m && AllFit(ModelKinds(r.model.slices), ModelValues(r.model))
  {
    hide Fields, Size, ModelKinds, StringValue, Finite, AllFit, ArrayCount, PREFIX;
    FieldsFit(PREFIX, s, 0);
    FieldsFit(ModelKinds(h.values[10]), s, 80);
    assert m == m[..13] + [m[13], m[14]] + m[15..];
    assert h.values == PrefixValues(Arranged(h, m, ids, x, rows));
  }

  /** So are its arrays. */
  lemma ArraysBack(s: Bytes, h: Header, m: seq<int>, ids: RawIds, x: seq<int>, rows: nat)
    requires h.Valid() && |m| == 15 + h.values[10] && |x| == ArrayCount(h, rows) && Words(x)
    requires rows == 0 || rows == h.values[8]
    ensures var r := Arranged(h, m, ids, x, rows);
      ArrayValues(r) == x && (ValidModel(r.model) ==> ValidArrays(r)) && (r.mass == [] <==> rows == 0)
  {
    hide StringValue, Finite;
    var n, k := h.values[8], Square(rows);
    assert rows > 0 ==> rows * rows > 0;
    assert x == x[..n] + x[n..2 * n] + x[2 * n..3 * n] + x[3 * n..4 * n] + x[4 * n..4 * n + k] + x[4 * n + k..];
  }

  lemma StringIsId(f: Bytes)
    requires ValidString(f)
    ensures ValidId(StringValue(f), |f|) && Clean(StringValue(f))
  {
  }

  lemma IdsBack(s: Bytes, h: Header, m: seq<int>, ids: RawIds, x: seq<int>, rows: nat)
    requires h.Valid() && |m| == 15 + h.values[10] && |x| == ArrayCount(h, rows) && ids.Sized() && ids.Valid()
    ensures ValidIds(Arranged(h, m, ids, x, rows)) && CleanIds(Arranged(h, m, ids, x, rows))
  {
    StringIsId(ids.run);
    StringIsId(ids.case_);
    StringIsId(ids.producer);
    StringIsId(ids.consumer);
    hide StringValue, ValidString, Clean, ArrayCount, Header.Valid;
  }

  lemma ArrangedIsComplete(s: Bytes, h: Header, m: seq<int>, e: nat, ids: RawIds, x: seq<int>, rows: nat)
    requires Reads(s, h, m, e) && |m| == 15 + h.values[10] && |x| == ArrayCount(h, rows) && Words(x) && AllFinite(x)
    requires m[13] == h.values[11] && m[14] == h.values[12] && (rows == 0 || rows == h.values[8])
    requires ids.Sized() && ids.Valid() && Fits(I4, h.values[8]) && Fits(I4, 3 * h.values[10]) && h.values[5] >= 0
    requires h.values[2] > 0 && h.values[3] >= 0 && h.values[4] > 0
    ensures Complete(Arranged(h, m, ids, x, rows)) && CleanIds(Arranged(h, m, ids, x, rows))
  {
    hide Fields, Size, ModelKinds, StringValue, Finite, AllFinite, ValidArrays, ValidModel, ValidIds, Clean, Words,
         ArrayCount, PREFIX, ArrayValues, Arranged, Fitting, AllFit, PrefixValues, ModelValues, SizeKinds, SizeValues,
         RawIds.Valid, RawIds.Sized, Positive;
    HeadBack(s, h, m, e, ids, x, rows);
    ArraysBack(s, h, m, ids, x, rows);
    IdsBack(s, h, m, ids, x, rows);
    SizesFit(h, m, ids, x, rows);
    FittingOf(Arranged(h, m, ids, x, rows), h);
  }

  lemma FittingOf(r: Request, h: Header)
    requires PrefixValues(r) == h.values && h.Valid() && ValidModel(r.model) && ValidArrays(r) && ValidIds(r)
    requires AllFit(PREFIX, PrefixValues(r)) && AllFit(ModelKinds(r.model.slices), ModelValues(r.model))
    requires AllFit(SizeKinds(r), SizeValues(r))
    requires h.values[2] > 0 && h.values[3] >= 0 && h.values[4] > 0 && h.values[5] >= 0
    ensures Fitting(r)
  {
    hide ModelKinds, Finite, ValidArrays, ValidModel, ValidIds, PREFIX, AllFit, ModelValues, SizeKinds, SizeValues;
  }

  lemma SizesFit(h: Header, m: seq<int>, ids: RawIds, x: seq<int>, rows: nat)
    requires h.Valid() && |m| == 15 + h.values[10] && |x| == ArrayCount(h, rows)
    requires Fits(I4, h.values[8]) && Fits(I4, 3 * h.values[10])
    ensures AllFit(SizeKinds(Arranged(h, m, ids, x, rows)), SizeValues(Arranged(h, m, ids, x, rows)))
  {
    hide StringValue, Finite, ArrayCount;
  }

  /** A parsed request that has a step number from zero and a bridge number from one could have been printed: it is
      complete, and its ids are clean. */
  lemma ParsedIsPrintable(sha: Bytes -> Bytes, s: Bytes, expected: int, latch: Option<Latch>, r: Request)
    requires Parse(sha, s, expected, latch) == Ok(r) && r.globalStep >= 0 && r.bridgeStep > 0
    ensures Complete(r) && CleanIds(r)
  {
    hide Fields, Size, U32, I32, U64, ModelKinds, ParseTail, MassGuess, Finite, AllFinite, SoundPrefix, ModelEnd,
         Arranged, Complete, PREFIX, MassAt;
    SizeOfPrefix();
    SizesOfSizes();
    var h := Header(Fields(PREFIX, s, 0));
    PrefixSound(s);
    ModelReads(s, h);
    EndAhead(s);
    var e := ModelEnd(s);
    SizesInBytes(s, e);
    GuessInBytes(s, e);
    TailIsComplete(sha, s, h, Fields(ModelKinds(h.values[10]), s, 80), e, expected, latch, r);
  }

  lemma TailIsComplete(sha: Bytes -> Bytes, s: Bytes, h: Header, m: seq<int>, e: nat, expected: int,
                       latch: Option<Latch>, r: Request)
    requires Reads(s, h, m, e) && |m| == 15 + h.values[10] && e + 8 <= |s| && e == ModelEnd(s)
    requires m[13] == h.values[11] && m[14] == h.values[12] && I32(s, e + 4) == 3 * I32(s, 52)
    requires IdsStart(s).0 <= |s|
    requires ParseTail(sha, s, h, s[80..e], m, expected, latch, IdsStart(s).1, IdsStart(s).0) == Ok(r)
    requires r.globalStep >= 0 && r.bridgeStep > 0
    ensures Complete(r) && CleanIds(r)
  {
    hide Fields, Size, ModelKinds, ParseTail, Finite, AllFinite, Complete, PREFIX, StringValue, Clean, U64, U32;
    var (d, rows) := IdsStart(s);
    ReadSizes(s, h, m, e);
    TailArranges(sha, s, h, m, e, expected, latch, rows, d);
    var x := Fields(Repeat(W8, ArrayCount(h, rows)), s, d + 224);
    FieldsFit(Repeat(W8, ArrayCount(h, rows)), s, d + 224);
    WordsFit(x);
    PrefixSigns(s, h);
    WordFits(I4, s, 44);
    WordFits(I4, s, e + 4);
    ArrangedIsComplete(s, h, m, e, IdsAt(s, d), x, rows);
  }

  lemma WordsFit(x: seq<int>)
    requires AllFit(Repeat(W8, |x|), x)
    ensures Words(x)
  {
  }

  lemma PrefixSigns(s: Bytes, h: Header)
    requires |s| >= 80 && Size(PREFIX) == 80 && h.values == Fields(PREFIX, s, 0)
    ensures h.values[2] >= 0 && h.values[5] >= 0
  {
    hide Fields, Size, I32, PREFIX;
    PrefixInBytes(s);
  }
}
