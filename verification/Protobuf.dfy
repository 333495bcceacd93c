/**
 * The protobuf codec of the authz messages: varints, marshalling that fills a buffer of the
 * computed size from its end, and parsing that accepts any byte string and never leaves it.
 */
module Protobuf {
  import opened Base

  // ---------------------------------------------------------------- varints

  /** Seven bits a byte, lowest first; the high bit says that more follow. */
  function Varint(v: nat): (b: bytes)
    ensures |b| > 0
  {
    if v < 128 then [v] else [v % 128 + 128] + Varint(v / 128)
  }

  /** bits.Len64 */
  function BitLen(n: nat): (r: nat) {
    if n == 0 then 0 else 1 + BitLen(n / 2)
  }

  /** sovAuthz, with x | 1 written out. */
  function Sov(x: nat): (n: nat) {
    (BitLen(x - x % 2 + 1) + 6) / 7
  }

  lemma BitLenShift(n: nat)
    requires n >= 128
    ensures BitLen(n) == 7 + BitLen(n / 128)
  {
    assert BitLen(n) == 1 + BitLen(n / 2);
    assert BitLen(n / 2) == 1 + BitLen(n / 4);
    assert BitLen(n / 4) == 1 + BitLen(n / 8);
    assert BitLen(n / 8) == 1 + BitLen(n / 16);
    assert BitLen(n / 16) == 1 + BitLen(n / 32);
    assert BitLen(n / 32) == 1 + BitLen(n / 64);
    assert BitLen(n / 64) == 1 + BitLen(n / 128);
  }

  lemma BitLenOr1(x: nat)
    requires x > 0
    ensures BitLen(x - x % 2 + 1) == BitLen(x)
  {
    assert (x - x % 2 + 1) / 2 == x / 2;
  }

  lemma BitLenSmall(x: nat)
    requires 0 < x < 128
    ensures 1 <= BitLen(x) <= 7
  {
    BitLenAtMost(x, 7, 128);
  }

  lemma {:induction false} BitLenAtMost(x: nat, k: nat, p: nat)
    requires x < p && p == Pow2(k)
    ensures BitLen(x) <= k
    decreases k
  {
    if k > 0 && x > 0 { BitLenAtMost(x / 2, k - 1, p / 2); }
  }

  function Pow2(k: nat): (p: nat)
    ensures p > 0
  {
    if k == 0 then 1 else 2 * Pow2(k - 1)
  }

  /** The size computed up front is the number of bytes written. */
  lemma {:induction false} SovIsLength(v: nat)
    ensures Sov(v) == |Varint(v)|
  {
    if v == 0 {
      assert Sov(0) == (BitLen(1) + 6) / 7 && BitLen(1) == 1 + BitLen(0);
    } else if v < 128 {
      BitLenOr1(v);
      BitLenSmall(v);
    } else {
      SovIsLength(v / 128);
      BitLenOr1(v);
      BitLenOr1(v / 128);
      BitLenShift(v);
    }
  }

  datatype Failed = IntOverflow | UnexpectedEOF | InvalidLength | EndGroup | IllegalTag | WrongWireType | IllegalWireType | UnexpectedEndOfGroup

  /** One more byte or-ed in above the bits read so far, so by addition; what leaves the word is lost. */
  function ShiftIn(acc: u64, b: byte, shift: nat): (r: u64)
    requires acc < Pow2(shift)
    ensures r < Pow2(shift + 7)
  {
    ShiftInBound(acc, b, Pow2(shift));
    Pow2By7(shift);
    (acc + b % 128 * Pow2(shift)) % TWO64
  }

  lemma ShiftInBound(acc: nat, b: byte, p: nat)
    requires acc < p
    ensures (acc + b % 128 * p) % TWO64 <= acc + b % 128 * p < 128 * p
  {
    assert b % 128 * p <= 127 * p;
  }

  /** A varint at position i and the position behind it. */
  function Read(b: bytes, i: nat, shift: nat, acc: u64): (r: Result<(u64, nat), Failed>)
    requires i <= |b| && acc < Pow2(shift)
    ensures r.Success? ==> i < r.value.1 <= |b|
    decreases |b| - i
  {
    if shift >= 64 then Failure(IntOverflow)
    else if i == |b| then Failure(UnexpectedEOF)
    else
      var v := ShiftIn(acc, b[i], shift);
      if b[i] < 128 then Success((v, i + 1)) else Read(b, i + 1, shift + 7, v)
  }

  method ReadVarint(b: bytes, start: nat) returns (r: Result<(u64, nat), Failed>)
    requires start <= |b|
    ensures r == Read(b, start, 0, 0)
  {
    var i, shift, v: u64 := start, 0, 0;
    while true
      invariant start <= i <= |b| && v < Pow2(shift) && Read(b, start, 0, 0) == Read(b, i, shift, v)
      decreases |b| - i
    {
      if shift >= 64 { return Failure(IntOverflow); }
      if i >= |b| { return Failure(UnexpectedEOF); }
      v := ShiftIn(v, b[i], shift);
      i := i + 1;
      if b[i - 1] < 128 { return Success((v, i)); }
      shift := shift + 7;
    }
  }

  lemma Pow2By7(k: nat)
    ensures Pow2(k + 7) == 128 * Pow2(k)
  {
    assert Pow2(k + 1) == 2 * Pow2(k) && Pow2(k + 2) == 4 * Pow2(k) && Pow2(k + 3) == 8 * Pow2(k);
    assert Pow2(k + 4) == 16 * Pow2(k) && Pow2(k + 5) == 32 * Pow2(k) && Pow2(k + 6) == 64 * Pow2(k);
  }

  lemma {:induction false} Pow2Grows(j: nat, k: nat)
    requires j <= k
    ensures Pow2(j) <= Pow2(k)
    decreases k
  {
    if j < k { Pow2Grows(j, k - 1); }
  }

  lemma Pow2Word()
    ensures Pow2(64) == TWO64
  {
    Pow2By7(0);
    Pow2By7(7);
    Pow2By7(14);
    Pow2By7(21);
    assert Pow2(28) == 0x1000_0000;
    Pow2By7(28);
    Pow2By7(35);
    Pow2By7(42);
    assert Pow2(49) == 0x2_0000_0000_0000;
    Pow2By7(49);
    Pow2By7(56);
    assert Pow2(64) == 2 * Pow2(63);
  }

  /** A number that fits behind the shift leaves the shift below the word size. */
  lemma ShiftFits(shift: nat, q: nat)
    requires q > 0 && q * Pow2(shift) < TWO64
    ensures shift < 64
  {
    if shift >= 64 {
      Pow2Word();
      Pow2Grows(64, shift);
      assert q * Pow2(shift) >= Pow2(shift) by { Scaled(q, Pow2(shift)); }
    }
  }

  lemma Scaled(q: nat, p: nat)
    requires q > 0
    ensures q * p >= p
  {
    assert q * p == p + (q - 1) * p;
  }

  lemma Regroup(v: nat, p: nat)
    ensures v % 128 * p + v / 128 * (128 * p) == v * p
  {
    assert v == v % 128 + v / 128 * 128;
    assert v * p == v % 128 * p + v / 128 * 128 * p;
  }

  lemma Slices<T>(b: seq<T>, i: nat, n: nat, j: nat, k: nat)
    requires j <= k <= n && i + n <= |b|
    ensures b[i..i + n][j..k] == b[i + j..i + k]
  {
    var part := b[i..i + n];
    assert forall x :: j <= x < k ==> part[x] == b[i + x];
    assert |part[j..k]| == k - j && forall x :: 0 <= x < k - j ==> part[j..k][x] == b[i + j + x];
  }

  lemma ShiftInExact(acc: u64, v: nat, shift: nat)
    requires acc < Pow2(shift) && acc + v * Pow2(shift) < TWO64
    ensures ShiftIn(acc, v % 128 + 128, shift) == acc + v % 128 * Pow2(shift)
    ensures v < 128 ==> ShiftIn(acc, v, shift) == acc + v * Pow2(shift)
  {
    Regroup(v, Pow2(shift));
    assert v / 128 * (128 * Pow2(shift)) >= 0;
    assert (v % 128 + 128) % 128 == v % 128;
  }

  /** Reading a varint that stands at i gives its number. */
  lemma {:induction false} ReadsBack(b: bytes, i: nat, v: nat, shift: nat, acc: nat)
    requires shift < 64 && acc < Pow2(shift) && acc + v * Pow2(shift) < TWO64
    requires i + |Varint(v)| <= |b| && b[i..i + |Varint(v)|] == Varint(v)
    ensures Read(b, i, shift, acc) == Success((acc + v * Pow2(shift), i + |Varint(v)|))
    decreases v
  {
    assert b[i] == b[i..i + |Varint(v)|][0] == Varint(v)[0];
    ShiftInExact(acc, v, shift);
    if v >= 128 {
      var acc' := ShiftIn(acc, b[i], shift);
      Regroup(v, Pow2(shift));
      Pow2By7(shift);
      ShiftFits(shift + 7, v / 128);
      Slices(b, i, |Varint(v)|, 1, |Varint(v)|);
      assert Varint(v)[1..] == Varint(v / 128);
      ReadsBack(b, i + 1, v / 128, shift + 7, acc');
    }
  }

  /** Every word survives the varint encoding, whatever follows it. */
  lemma VarintRoundTrip(b: bytes, i: nat, v: u64)
    requires i + |Varint(v)| <= |b| && b[i..i + |Varint(v)|] == Varint(v)
    ensures Read(b, i, 0, 0) == Success((v, i + |Varint(v)|))
  {
    assert Pow2(0) == 1;
    ReadsBack(b, i, v, 0, 0);
  }

  /** encodeVarintAuthz: the bytes end right before offset. */
  method EncodeVarint(a: array<byte>, offset: nat, value: u64) returns (base: nat)
    requires Sov(value) <= offset <= a.Length
    modifies a
    ensures base == offset - Sov(value) && a[base..offset] == Varint(value)
    ensures a[..base] == old(a[..base]) && a[offset..] == old(a[offset..])
  {
    SovIsLength(value);
    base := offset - Sov(value);
    var i, v := base, value;
    while v >= 128
      invariant base <= i && 0 <= v < TWO64 && i + |Varint(v)| == offset
      invariant a[base..i] + Varint(v) == Varint(value)
      invariant a[..base] == old(a[..base]) && a[offset..] == old(a[offset..])
      decreases v
    {
      a[i] := v % 128 + 128;
      assert a[base..i + 1] == a[base..i] + [v % 128 + 128];
      v := v / 128;
      i := i + 1;
    }
    a[i] := v;
    assert a[base..i + 1] == a[base..i] + [v];
  }

  // ---------------------------------------------------------------- machine integers

  const MIN_NEG: nat := 0x8000_0000_0000_0000

  /** What fits in memory: positions are signed words. */
  type Buffer = b: bytes | |b| < MIN_NEG

  /** uint64 to int */
  function AsInt(v: u64): (n: int) { if v >= MIN_NEG then v - TWO64 else v }

  /** Signed addition of two positions, wrapping around. */
  function Plus(i: nat, n: nat): (r: int)
    requires i < MIN_NEG && n < MIN_NEG
    ensures r == i + n < MIN_NEG || (r < 0 && i + n >= MIN_NEG)
  {
    if i + n >= MIN_NEG then i + n - TWO64 else i + n
  }

  /** int32 of the field part of a tag */
  function FieldNumber(wire: u64): (n: int) {
    var m := wire / 8 % TWO32;
    if m >= 0x8000_0000 then m - TWO32 else m
  }

  // ---------------------------------------------------------------- skipping unknown fields

  /** Position and group depth behind one field body that starts at j. */
  function SkipBody(b: Buffer, j: nat, wireType: nat, depth: nat): (r: Result<(nat, nat), Failed>)
    requires j <= |b|
    ensures r.Success? ==> j <= r.value.0
  {
    if wireType == 0 then
      match Read(b, j, 0, 0)
      case Failure(e) => Failure(e)
      case Success((_, k)) => Success((k, depth))
    else if wireType == 1 then Landing(Plus(j, 8), depth)
    else if wireType == 2 then
      match Read(b, j, 0, 0)
      case Failure(e) => Failure(e)
      case Success((v, k)) => if AsInt(v) < 0 then Failure(InvalidLength) else Landing(Plus(k, AsInt(v)), depth)
    else if wireType == 3 then Success((j, depth + 1))
    else if wireType == 4 then if depth == 0 then Failure(UnexpectedEndOfGroup) else Success((j, depth - 1))
    else if wireType == 5 then Landing(Plus(j, 4), depth)
    else Failure(IllegalWireType)
  }

  function Landing(n: int, depth: nat): (r: Result<(nat, nat), Failed>) {
    if n < 0 then Failure(InvalidLength) else Success((n, depth))
  }

  /** skipAuthz from position i on; the result may lie behind the end, which the caller checks. */
  function SkipFrom(b: Buffer, i: nat, depth: nat): (r: Result<nat, Failed>)
    ensures r.Success? ==> i < r.value
    decreases if i < |b| then |b| - i else 0
  {
    if i >= |b| then Failure(UnexpectedEOF)
    else
      match Read(b, i, 0, 0)
      case Failure(e) => Failure(e)
      case Success((wire, j)) =>
        match SkipBody(b, j, wire % 8, depth)
        case Failure(e) => Failure(e)
        case Success((k, depth')) => if depth' == 0 then Success(k) else SkipFrom(b, k, depth')
  }

  method Skip(b: Buffer) returns (r: Result<nat, Failed>)
    ensures r == SkipFrom(b, 0, 0)
  {
    var i, depth := 0, 0;
    while i < |b|
      invariant SkipFrom(b, i, depth) == SkipFrom(b, 0, 0)
      decreases |b| - i
    {
      var tag := ReadVarint(b, i);
      if tag.Failure? { return Failure(tag.error); }
      var body := SkipBody(b, tag.value.1, tag.value.0 % 8, depth);
      if body.Failure? { return Failure(body.error); }
      i, depth := body.value.0, body.value.1;
      if depth == 0 { return Success(i); }
    }
    r := Failure(UnexpectedEOF);
  }

  // ---------------------------------------------------------------- fields

  /** A tag at i: field number, wire type and the position behind it. */
  function ReadTag(b: Buffer, i: nat): (r: Result<(int, nat, nat), Failed>)
    requires i < |b|
    ensures r.Success? ==> i < r.value.2 <= |b| && r.value.0 > 0
  {
    match Read(b, i, 0, 0)
    case Failure(e) => Failure(e)
    case Success((wire, j)) =>
      if wire % 8 == 4 then Failure(EndGroup)
      else if FieldNumber(wire) <= 0 then Failure(IllegalTag)
      else Success((FieldNumber(wire), wire % 8, j))
  }

  /** A length-delimited field at j: its bytes are b[k..post]. */
  function ReadBytes(b: Buffer, j: nat): (r: Result<(nat, nat), Failed>)
    requires j <= |b|
    ensures r.Success? ==> j < r.value.0 <= r.value.1 <= |b|
  {
    match Read(b, j, 0, 0)
    case Failure(e) => Failure(e)
    case Success((v, k)) =>
      if AsInt(v) < 0 then Failure(InvalidLength)
      else if Plus(k, AsInt(v)) < 0 then Failure(InvalidLength)
      else if Plus(k, AsInt(v)) > |b| then Failure(UnexpectedEOF)
      else Success((k, Plus(k, AsInt(v))))
  }

  /** The position behind an unknown field at i. */
  function PassOver(b: Buffer, i: nat): (r: Result<nat, Failed>)
    requires i < |b|
    ensures r.Success? ==> i < r.value <= |b|
  {
    match SkipFrom(b[i..], 0, 0)
    case Failure(e) => Failure(e)
    case Success(n) =>
      if n >= MIN_NEG || Plus(i, n) < 0 then Failure(InvalidLength)
      else if Plus(i, n) > |b| then Failure(UnexpectedEOF)
      else Success(i + n)
  }

  // ---------------------------------------------------------------- MaxCallsLimit

  function EncodeCalls(n: u64): (b: bytes) { if n == 0 then [] else [0x08] + Varint(n) }

  function SizeCalls(n: u64): (r: nat) { if n == 0 then 0 else 1 + Sov(n) }

  /** Marshal: the buffer has the computed size and is filled completely. */
  method MarshalCalls(n: u64) returns (a: array<byte>)
    ensures fresh(a) && a.Length == SizeCalls(n) && a[..] == EncodeCalls(n)
  {
    a := new byte[SizeCalls(n)](_ => 0);
    if n != 0 {
      var i := EncodeVarint(a, a.Length, n);
      i := i - 1;
      a[i] := 0x08;
      assert i == 0;
      assert a[..] == [a[0]] + a[1..a.Length];
    }
  }

  function ParseCalls(b: Buffer, i: nat, n: u64): (r: Result<u64, Failed>)
    requires i <= |b|
    decreases |b| - i
  {
    if i == |b| then Success(n)
    else
      match ReadTag(b, i)
      case Failure(e) => Failure(e)
      case Success((field, wireType, j)) =>
        if field == 1 then
          if wireType != 0 then Failure(WrongWireType)
          else
            match Read(b, j, 0, 0)
            case Failure(e) => Failure(e)
            case Success((v, k)) => ParseCalls(b, k, v)
        else
          match PassOver(b, i)
          case Failure(e) => Failure(e)
          case Success(k) => ParseCalls(b, k, n)
  }

  method UnmarshalCalls(b: Buffer) returns (r: Result<u64, Failed>)
    ensures r == ParseCalls(b, 0, 0)
  {
    var i, n: u64 := 0, 0;
    while i < |b|
      invariant i <= |b| && ParseCalls(b, i, n) == ParseCalls(b, 0, 0)
      decreases |b| - i
    {
      var tag := ReadTag(b, i);
      if tag.Failure? { return Failure(tag.error); }
      if tag.value.0 == 1 {
        if tag.value.1 != 0 { return Failure(WrongWireType); }
        var v := ReadVarint(b, tag.value.2);
        if v.Failure? { return Failure(v.error); }
        n, i := v.value.0, v.value.1;
      } else {
        var k := PassOver(b, i);
        if k.Failure? { return Failure(k.error); }
        i := k.value;
      }
    }
    r := Success(n);
  }

  lemma TagAt(b: Buffer, i: nat, tag: nat)
    requires i < |b| && b[i] == tag && (tag == 0x08 || tag == 0x0a)
    ensures ReadTag(b, i) == Success((1, tag % 8, i + 1))
  {
    assert b[i..i + 1] == [tag] == Varint(tag);
    VarintRoundTrip(b, i, tag);
  }

  lemma {:induction false} VarintShort(v: nat, k: nat)
    requires k > 0 && v < Pow2(7 * k)
    ensures |Varint(v)| <= k
    decreases k
  {
    if v >= 128 {
      assert k > 1 by { if k == 1 { Pow2By7(0); } }
      Pow2By7(7 * (k - 1));
      VarintShort(v / 128, k - 1);
    }
  }

  lemma CallsFit(n: u64)
    ensures |EncodeCalls(n)| <= 11
  {
    Pow2Word();
    Pow2Grows(64, 70);
    VarintShort(n, 10);
  }

  /** Any number of calls survives marshalling, zero included: it is not written at all. */
  lemma CallsRoundTrip(n: u64)
    ensures |EncodeCalls(n)| <= 11 && ParseCalls(EncodeCalls(n), 0, 0) == Success(n)
  {
    CallsFit(n);
    if n != 0 {
      var b := EncodeCalls(n);
      TagAt(b, 0, 0x08);
      assert b[1..1 + |Varint(n)|] == Varint(n);
      VarintRoundTrip(b, 1, n);
    }
  }

  // ---------------------------------------------------------------- lists of strings or byte strings

  /** One element of AcceptedMessageKeysFilter.Keys or AcceptedMessagesFilter.Messages. */
  function EncodeItem(x: bytes): (b: bytes) { [0x0a] + Varint(|x|) + x }

  function EncodeList(xs: seq<bytes>): (b: bytes) {
    if xs == [] then [] else EncodeItem(xs[0]) + EncodeList(xs[1..])
  }

  function SizeList(xs: seq<bytes>): (n: nat) {
    if xs == [] then 0 else 1 + |xs[0]| + Sov(|xs[0]|) + SizeList(xs[1..])
  }

  method ComputeSize(xs: seq<bytes>) returns (n: nat)
    ensures n == SizeList(xs)
  {
    n := 0;
    assert xs[0..] == xs;
    for i := 0 to |xs|
      invariant n + SizeList(xs[i..]) == SizeList(xs)
    {
      assert xs[i..][0] == xs[i] && xs[i..][1..] == xs[i + 1..];
      n := n + 1 + |xs[i]| + Sov(|xs[i]|);
    }
    assert xs[|xs|..] == [];
  }

  lemma {:induction false} SizeIsLength(xs: seq<bytes>)
    ensures SizeList(xs) == |EncodeList(xs)|
  {
    if xs != [] {
      SovIsLength(|xs[0]|);
      SizeIsLength(xs[1..]);
    }
  }

  lemma {:induction false} EncodeConcat(xs: seq<bytes>, ys: seq<bytes>)
    ensures EncodeList(xs + ys) == EncodeList(xs) + EncodeList(ys)
  {
    if xs == [] {
      assert xs + ys == ys;
    } else {
      assert (xs + ys)[1..] == xs[1..] + ys;
      EncodeConcat(xs[1..], ys);
    }
  }

  lemma EncodeOne(x: bytes)
    ensures EncodeList([x]) == EncodeItem(x)
  {
    var one: seq<bytes> := [x];
    assert one[1..] == [];
  }

  /** One turn of the marshal loop: the item is written right before position i. */
  method MarshalItem(a: array<byte>, end: nat, x: bytes) returns (start: nat)
    requires |EncodeItem(x)| <= end <= a.Length && |x| < TWO64
    modifies a
    ensures start == end - |EncodeItem(x)| && a[start..end] == EncodeItem(x)
    ensures a[end..] == old(a[end..])
  {
    SovIsLength(|x|);
    var i := end - |x|;
    for k := 0 to |x|
      invariant a[i..i + k] == x[..k] && a[end..] == old(a[end..])
    {
      a[i + k] := x[k];
      assert a[i..i + k + 1] == a[i..i + k] + [x[k]] && x[..k + 1] == x[..k] + [x[k]];
    }
    assert x[..|x|] == x && a[i..end] == x;
    ghost var tail := a[i..];
    assert tail[..|x|] == x && tail[|x|..] == a[end..];
    start := MarshalPrefix(a, i, |x|);
    Joined(a[..], start, i, end);
    assert a[i..end] == tail[..|x|] && a[end..] == tail[|x|..];
  }

  lemma Joined<T>(b: seq<T>, i: nat, j: nat, k: nat)
    requires i <= j <= k <= |b|
    ensures b[i..k] == b[i..j] + b[j..k]
  {}

  method MarshalPrefix(a: array<byte>, i: nat, n: u64) returns (start: nat)
    requires 1 + Sov(n) <= i <= a.Length
    modifies a
    ensures start == i - 1 - Sov(n) && a[start..i] == [0x0a] + Varint(n) && a[i..] == old(a[i..])
  {
    var j := EncodeVarint(a, i, n);
    start := j - 1;
    ghost var rest := a[j..];
    a[start] := 0x0a;
    assert a[j..] == rest && a[j..i] == rest[..i - j] && a[start..i] == [a[start]] + a[j..i];
    assert a[i..] == rest[i - j..];
  }

  /** MarshalToSizedBuffer: back to front, into a buffer of the computed size. */
  method MarshalList(xs: seq<bytes>) returns (a: array<byte>)
    requires forall k :: 0 <= k < |xs| ==> |xs[k]| < TWO64
    ensures fresh(a) && a.Length == SizeList(xs) && a[..] == EncodeList(xs)
  {
    var size := ComputeSize(xs);
    a := new byte[size](_ => 0);
    SizeIsLength(xs);
    var i, k := size, |xs|;
    assert xs[|xs|..] == [] && xs[..|xs|] == xs;
    while k > 0
      invariant 0 <= k <= |xs| && i == |EncodeList(xs[..k])| <= a.Length == size && a[i..] == EncodeList(xs[k..])
    {
      k := k - 1;
      assert xs[..k + 1] == xs[..k] + [xs[k]];
      EncodeConcat(xs[..k], [xs[k]]);
      EncodeOne(xs[k]);
      ghost var end := i;
      i := MarshalItem(a, i, xs[k]);
      assert a[i..] == a[i..end] + a[end..];
      assert xs[k..][0] == xs[k] && xs[k..][1..] == xs[k + 1..];
    }
    assert xs[0..] == xs && a[0..] == a[..];
  }

  function ParseList(b: Buffer, i: nat, xs: seq<bytes>): (r: Result<seq<bytes>, Failed>)
    requires i <= |b|
    decreases |b| - i
  {
    if i == |b| then Success(xs)
    else
      match ReadTag(b, i)
      case Failure(e) => Failure(e)
      case Success((field, wireType, j)) =>
        if field == 1 then
          if wireType != 2 then Failure(WrongWireType)
          else
            match ReadBytes(b, j)
            case Failure(e) => Failure(e)
            case Success((k, post)) => ParseList(b, post, xs + [b[k..post]])
        else
          match PassOver(b, i)
          case Failure(e) => Failure(e)
          case Success(k) => ParseList(b, k, xs)
  }

  /** Any byte string is parsed to its end or refused; no position outside it is read. */
  method UnmarshalList(b: Buffer) returns (r: Result<seq<bytes>, Failed>)
    ensures r == ParseList(b, 0, [])
  {
    var i, xs: seq<bytes> := 0, [];
    while i < |b|
      invariant i <= |b| && ParseList(b, i, xs) == ParseList(b, 0, [])
      decreases |b| - i
    {
      var tag := ReadTag(b, i);
      if tag.Failure? { return Failure(tag.error); }
      if tag.value.0 == 1 {
        if tag.value.1 != 2 { return Failure(WrongWireType); }
        var field := ReadBytes(b, tag.value.2);
        if field.Failure? { return Failure(field.error); }
        var (k, post) := field.value;
        xs := xs + [b[k..post]];
        i := post;
      } else {
        var k := PassOver(b, i);
        if k.Failure? { return Failure(k.error); }
        i := k.value;
      }
    }
    r := Success(xs);
  }

  lemma ItemParts(x: bytes)
    ensures var item, n := EncodeItem(x), |Varint(|x|)|;
            |item| == 1 + n + |x| && item[0] == 0x0a && item[1..1 + n] == Varint(|x|) && item[1 + n..] == x
  {}

  lemma BytesAt(b: Buffer, i: nat, x: bytes)
    requires i + |Varint(|x|)| + |x| <= |b| && b[i..i + |Varint(|x|)|] == Varint(|x|)
    ensures ReadBytes(b, i) == Success((i + |Varint(|x|)|, i + |Varint(|x|)| + |x|))
  {
    VarintRoundTrip(b, i, |x|);
  }

  lemma ItemAt(b: Buffer, i: nat, x: bytes, k: nat, post: nat)
    requires k == i + 1 + |Varint(|x|)| && post == k + |x| && post <= |b| && b[i..post] == EncodeItem(x)
    ensures ReadTag(b, i) == Success((1, 2, i + 1)) && ReadBytes(b, i + 1) == Success((k, post)) && b[k..post] == x
  {
    ItemSlices(b, i, x, k, post);
    TagAt(b, i, 0x0a);
    BytesAt(b, i + 1, x);
  }

  lemma ItemSlices(b: bytes, i: nat, x: bytes, k: nat, post: nat)
    requires k == i + 1 + |Varint(|x|)| && post == k + |x| && post <= |b| && b[i..post] == EncodeItem(x)
    ensures b[i] == 0x0a && b[i + 1..k] == Varint(|x|) && b[k..post] == x
  {
    ItemParts(x);
    assert b[i] == b[i..post][0];
    Slices(b, i, post - i, 1, k - i);
    Slices(b, i, post - i, k - i, post - i);
  }

  lemma ParseItem(b: Buffer, i: nat, xs: seq<bytes>, x: bytes, next: nat)
    requires i <= next <= |b| && b[i..next] == EncodeItem(x)
    ensures ParseList(b, i, xs) == ParseList(b, next, xs + [x])
  {
    ItemParts(x);
    ItemAt(b, i, x, i + 1 + |Varint(|x|)|, next);
  }

  lemma ParseStep(b: Buffer, i: nat, xs: seq<bytes>, ys: seq<bytes>, next: nat)
    requires i <= |b| && ys != [] && b[i..] == EncodeList(ys) && next == i + |EncodeItem(ys[0])|
    ensures next <= |b| && b[next..] == EncodeList(ys[1..]) && ParseList(b, i, xs) == ParseList(b, next, xs + [ys[0]])
  {
    HeadOfList(b, i, EncodeItem(ys[0]), EncodeList(ys[1..]), next);
    ParseItem(b, i, xs, ys[0], next);
  }

  lemma {:induction false} ParsesBack(b: Buffer, i: nat, xs: seq<bytes>, ys: seq<bytes>, all: seq<bytes>)
    requires i <= |b| && b[i..] == EncodeList(ys) && all == xs + ys
    ensures ParseList(b, i, xs) == Success(all)
    decreases |ys|
  {
    if ys == [] {
      assert |b[i..]| == 0 && xs + ys == xs;
    } else {
      var next := i + |EncodeItem(ys[0])|;
      ParseStep(b, i, xs, ys, next);
      Regrouped(xs, ys[0], ys[1..], ys);
      ParsesBack(b, next, xs + [ys[0]], ys[1..], all);
    }
  }

  lemma Regrouped<T>(xs: seq<T>, y: T, rest: seq<T>, ys: seq<T>)
    requires ys == [y] + rest
    ensures (xs + [y]) + rest == xs + ys
  {}

  lemma HeadOfList(b: bytes, i: nat, item: bytes, rest: bytes, next: nat)
    requires i <= |b| && b[i..] == item + rest && next == i + |item|
    ensures next <= |b| && b[i..next] == item && b[next..] == rest
  {
    assert (item + rest)[..|item|] == item && (item + rest)[|item|..] == rest;
    assert b[i..i + (|b| - i)] == b[i..];
    Slices(b, i, |b| - i, 0, |item|);
    Slices(b, i, |b| - i, |item|, |b| - i);
  }

  /** Unmarshalling what was marshalled gives the same list, for any number of elements of any length. */
  lemma ListRoundTrip(xs: seq<bytes>)
    requires |EncodeList(xs)| < MIN_NEG
    ensures ParseList(EncodeList(xs), 0, []) == Success(xs)
  {
    var b: Buffer := EncodeList(xs);
    var none: seq<bytes> := [];
    assert b[0..] == b && none + xs == xs;
    ParsesBack(b, 0, none, xs, xs);
  }

  // ---------------------------------------------------------------- fields of other versions

  /** Any field a newer sender may write, groups nested to any depth. */
  datatype Field =
    | VarintField(num: nat, v: u64)
    | Fixed64Field(num: nat, word: bytes)
    | BytesField(num: nat, x: bytes)
    | GroupField(num: nat, fields: seq<Field>)
    | Fixed32Field(num: nat, word: bytes)

  /** Field numbers fit in 29 bits, fixed words have their size. */
  predicate WellFormed(f: Field) {
    && 0 < f.num < 0x2000_0000
    && (match f
        case Fixed64Field(_, word) => |word| == 8
        case Fixed32Field(_, word) => |word| == 4
        case GroupField(_, fields) => forall k :: 0 <= k < |fields| ==> WellFormed(fields[k])
        case _ => true)
  }

  /** Field number and wire type of a field in one word. */
  function Tag(f: Field): (t: nat) {
    f.num * 8 + (match f
                 case VarintField(_, _) => 0
                 case Fixed64Field(_, _) => 1
                 case BytesField(_, _) => 2
                 case GroupField(_, _) => 3
                 case Fixed32Field(_, _) => 5)
  }

  function EncodeField(f: Field): (b: bytes)
    decreases f, 1
  {
    Varint(Tag(f)) + EncodeBody(f)
  }

  function EncodeBody(f: Field): (b: bytes)
    decreases f, 0
  {
    match f
    case VarintField(_, v) => Varint(v)
    case Fixed64Field(_, word) => word
    case BytesField(_, x) => Varint(|x|) + x
    case GroupField(num, fields) => EncodeFields(fields) + Varint(num * 8 + 4)
    case Fixed32Field(_, word) => word
  }

  function EncodeFields(fs: seq<Field>): (b: bytes)
    decreases fs, 2
  {
    if fs == [] then [] else EncodeField(fs[0]) + EncodeFields(fs[1..])
  }

  /** b holds x at i. */
  predicate Holds(b: bytes, i: nat, x: bytes) {
    i + |x| <= |b| && b[i..i + |x|] == x
  }

  lemma HoldsBoth(b: bytes, i: nat, x: bytes, y: bytes)
    requires Holds(b, i, x + y)
    ensures Holds(b, i, x) && Holds(b, i + |x|, y)
  {
    Slices(b, i, |x + y|, 0, |x|);
    Slices(b, i, |x + y|, |x|, |x + y|);
    assert (x + y)[..|x|] == x && (x + y)[|x|..] == y;
  }

  /** Where a skip goes on: done at depth zero, else with the next field. */
  function Onward(b: Buffer, i: nat, depth: nat): (r: Result<nat, Failed>) {
    if depth == 0 then Success(i) else SkipFrom(b, i, depth)
  }

  lemma SkipStep(b: Buffer, i: nat, tag: u64, j: nat, depth: nat, k: nat, depth': nat)
    requires i < |b| && Read(b, i, 0, 0) == Success((tag, j)) && SkipBody(b, j, tag % 8, depth) == Success((k, depth'))
    ensures SkipFrom(b, i, depth) == Onward(b, k, depth')
  {}

  /** The body of a field without groups is skipped exactly. */
  lemma SkipsBody(b: Buffer, j: nat, f: Field, depth: nat)
    requires WellFormed(f) && !f.GroupField? && Holds(b, j, EncodeBody(f))
    ensures SkipBody(b, j, Tag(f) % 8, depth) == Success((j + |EncodeBody(f)|, depth))
  {
    match f
    case VarintField(_, v) => VarintRoundTrip(b, j, v);
    case BytesField(_, x) =>
      HoldsBoth(b, j, Varint(|x|), x);
      VarintRoundTrip(b, j, |x|);
    case _ =>
  }

  /** A group goes one level down and ends at its end tag at m, one level up. */
  lemma GroupSkip(b: Buffer, i: nat, tag: u64, j: nat, m: nat, end: u64, next: nat, depth: nat)
    requires i < |b| && Read(b, i, 0, 0) == Success((tag, j)) && tag % 8 == 3
    requires m < |b| && Read(b, m, 0, 0) == Success((end, next)) && end % 8 == 4
    requires SkipFrom(b, j, depth + 1) == SkipFrom(b, m, depth + 1)
    ensures SkipFrom(b, i, depth) == Onward(b, next, depth)
  {
    SkipStep(b, i, tag, j, depth, j, depth + 1);
    SkipStep(b, m, end, next, depth + 1, next, depth);
  }

  /** A varint is read where it is held. */
  lemma ReadsHeld(b: bytes, i: nat, v: u64, j: nat)
    requires Holds(b, i, Varint(v)) && j == i + |Varint(v)|
    ensures i < j <= |b| && Read(b, i, 0, 0) == Success((v, j))
  {
    VarintRoundTrip(b, i, v);
  }

  /** Where tag and body of a field are. */
  lemma FieldAt(b: bytes, i: nat, f: Field, tag: u64, j: nat)
    requires WellFormed(f) && Holds(b, i, EncodeField(f)) && tag == Tag(f) && j == i + |Varint(tag)|
    ensures i < j <= |b| && Read(b, i, 0, 0) == Success((tag, j))
    ensures Holds(b, j, EncodeBody(f)) && i + |EncodeField(f)| == j + |EncodeBody(f)|
  {
    HoldsBoth(b, i, Varint(tag), EncodeBody(f));
    ReadsHeld(b, i, tag, j);
  }

  lemma GroupAt(b: bytes, j: nat, inner: bytes, end: u64, m: nat, next: nat)
    requires Holds(b, j, inner + Varint(end)) && m == j + |inner| && next == j + |inner + Varint(end)|
    ensures Holds(b, j, inner) && m < next <= |b| && Read(b, m, 0, 0) == Success((end, next))
  {
    HoldsBoth(b, j, inner, Varint(end));
    ReadsHeld(b, m, end, next);
  }

  lemma FlatSkip(b: Buffer, i: nat, f: Field, depth: nat, next: nat)
    requires WellFormed(f) && !f.GroupField? && Holds(b, i, EncodeField(f)) && next == i + |EncodeField(f)|
    ensures SkipFrom(b, i, depth) == Onward(b, next, depth)
  {
    var tag := Tag(f);
    var j := i + |Varint(tag)|;
    FieldAt(b, i, f, tag, j);
    SkipsBody(b, j, f, depth);
    SkipStep(b, i, tag, j, depth, next, depth);
  }

  /** Where the parts of a group are. */
  lemma GroupParts(b: bytes, i: nat, f: Field, j: nat, m: nat, next: nat) returns (tag: u64, end: u64)
    requires WellFormed(f) && f.GroupField? && Holds(b, i, EncodeField(f)) && next == i + |EncodeField(f)|
    requires j == i + |Varint(Tag(f))| && m == j + |EncodeFields(f.fields)|
    ensures i < j <= |b| && Read(b, i, 0, 0) == Success((tag, j)) && tag % 8 == 3 && Holds(b, j, EncodeFields(f.fields))
    ensures m < next <= |b| && Read(b, m, 0, 0) == Success((end, next)) && end % 8 == 4
  {
    tag, end := Tag(f), f.num * 8 + 4;
    FieldAt(b, i, f, tag, j);
    GroupAt(b, j, EncodeFields(f.fields), end, m, next);
  }

  /** A field is skipped exactly, however deep its groups are nested. */
  lemma {:induction false} SkipsField(b: Buffer, i: nat, f: Field, depth: nat, next: nat)
    requires WellFormed(f) && Holds(b, i, EncodeField(f)) && next == i + |EncodeField(f)|
    ensures SkipFrom(b, i, depth) == Onward(b, next, depth)
    decreases f, 0
  {
    if f.GroupField? {
      var j := i + |Varint(Tag(f))|;
      var m := j + |EncodeFields(f.fields)|;
      var tag, end := GroupParts(b, i, f, j, m, next);
      SkipsFields(b, j, f.fields, depth + 1, m);
      GroupSkip(b, i, tag, j, m, end, next, depth);
    } else {
      FlatSkip(b, i, f, depth, next);
    }
  }

  lemma {:induction false} SkipsFields(b: Buffer, i: nat, fs: seq<Field>, depth: nat, next: nat)
    requires depth > 0 && (forall k :: 0 <= k < |fs| ==> WellFormed(fs[k]))
    requires Holds(b, i, EncodeFields(fs)) && next == i + |EncodeFields(fs)|
    ensures SkipFrom(b, i, depth) == SkipFrom(b, next, depth)
    decreases fs, |fs|
  {
    if fs != [] {
      var mid := i + |EncodeField(fs[0])|;
      HoldsBoth(b, i, EncodeField(fs[0]), EncodeFields(fs[1..]));
      SkipsField(b, i, fs[0], depth, mid);
      SkipsFields(b, mid, fs[1..], depth, next);
    }
  }

  lemma NumberOf(f: Field)
    requires WellFormed(f)
    ensures FieldNumber(Tag(f)) == f.num && Tag(f) % 8 != 4
  {}

  lemma TagOf(b: Buffer, i: nat, f: Field)
    requires WellFormed(f) && Holds(b, i, EncodeField(f)) && i < |b|
    ensures ReadTag(b, i).Success? && ReadTag(b, i).value.0 == f.num
  {
    var tag := Tag(f);
    FieldAt(b, i, f, tag, i + |Varint(tag)|);
    NumberOf(f);
  }

  /** The parser goes on behind a field it does not know. */
  lemma PassesField(b: Buffer, i: nat, f: Field, next: nat)
    requires WellFormed(f) && i < next <= |b| && b[i..next] == EncodeField(f)
    ensures PassOver(b, i) == Success(next)
  {
    assert b[i..][0..next - i] == b[i..next];
    SkipsField(b[i..], 0, f, 0, next - i);
  }

  /** What a sender of any version writes: list elements and other fields, in any order. */
  datatype Piece = Known(x: bytes) | Other(f: Field)

  predicate Foreign(p: Piece) {
    p.Other? ==> WellFormed(p.f) && p.f.num != 1
  }

  function EncodePiece(p: Piece): (b: bytes) {
    match p
    case Known(x) => EncodeItem(x)
    case Other(f) => EncodeField(f)
  }

  function EncodePieces(ps: seq<Piece>): (b: bytes) {
    if ps == [] then [] else EncodePiece(ps[0]) + EncodePieces(ps[1..])
  }

  function Elements(ps: seq<Piece>): (xs: seq<bytes>) {
    if ps == [] then [] else (if ps[0].Known? then [ps[0].x] else []) + Elements(ps[1..])
  }

  lemma OtherStep(b: Buffer, i: nat, xs: seq<bytes>, f: Field, next: nat)
    requires WellFormed(f) && f.num != 1 && i < next <= |b| && b[i..next] == EncodeField(f)
    ensures ParseList(b, i, xs) == ParseList(b, next, xs)
  {
    TagOf(b, i, f);
    PassesField(b, i, f, next);
  }

  lemma {:induction false} PiecesParse(b: Buffer, i: nat, xs: seq<bytes>, ps: seq<Piece>, all: seq<bytes>)
    requires i <= |b| && b[i..] == EncodePieces(ps) && all == xs + Elements(ps)
    requires forall k :: 0 <= k < |ps| ==> Foreign(ps[k])
    ensures ParseList(b, i, xs) == Success(all)
    decreases |ps|
  {
    if ps == [] {
      assert |b[i..]| == 0 && xs + Elements(ps) == xs;
    } else {
      var p, rest := ps[0], ps[1..];
      var next := i + |EncodePiece(p)|;
      HeadOfList(b, i, EncodePiece(p), EncodePieces(rest), next);
      if p.Known? {
        ParseItem(b, i, xs, p.x, next);
        Regrouped(xs, p.x, Elements(rest), Elements(ps));
        PiecesParse(b, next, xs + [p.x], rest, all);
      } else {
        assert [] + Elements(rest) == Elements(rest);
        OtherStep(b, i, xs, p.f, next);
        PiecesParse(b, next, xs, rest, all);
      }
    }
  }

  /** Fields of other numbers change nothing, wherever they stand between the elements. */
  lemma UnknownFieldsAreIgnored(ps: seq<Piece>)
    requires |EncodePieces(ps)| < MIN_NEG && forall k :: 0 <= k < |ps| ==> Foreign(ps[k])
    ensures ParseList(EncodePieces(ps), 0, []) == Success(Elements(ps))
  {
    var b: Buffer := EncodePieces(ps);
    var none: seq<bytes> := [];
    assert b[0..] == b && none + Elements(ps) == Elements(ps);
    PiecesParse(b, 0, none, ps, Elements(ps));
  }
}
