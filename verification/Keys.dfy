/** Big-endian words, the byte order of the store, and every key x/wasm builds. */
module Keys {
  import opened Base
  import opened Types

  // ---------------------------------------------------------------- big-endian words

  function Pow256(n: nat): (r: nat) {
    if n == 0 then 1 else 256 * Pow256(n - 1)
  }

  /** The len low bytes of n, most significant first. */
  function ToBE(n: nat, len: nat): (b: bytes)
    ensures |b| == len
    decreases len
  {
    if len == 0 then [] else ToBE(n / 256, len - 1) + [n % 256]
  }

  function FromBE(b: bytes): (n: nat)
    decreases |b|
  {
    if b == [] then 0 else FromBE(b[..|b| - 1]) * 256 + b[|b| - 1]
  }

  lemma {:induction false} FromTo(n: nat, len: nat)
    requires n < Pow256(len)
    ensures FromBE(ToBE(n, len)) == n
    decreases len
  {
    if len > 0 {
      var b := ToBE(n, len);
      assert b[..|b| - 1] == ToBE(n / 256, len - 1);
      FromTo(n / 256, len - 1);
    }
  }

  lemma {:induction false} ToFrom(b: bytes)
    ensures FromBE(b) < Pow256(|b|)
    ensures ToBE(FromBE(b), |b|) == b
    decreases |b|
  {
    if b != [] {
      ToFrom(b[..|b| - 1]);
      assert b == b[..|b| - 1] + [b[|b| - 1]];
    }
  }

  lemma Pow256Words()
    ensures Pow256(4) == TWO32 && Pow256(8) == TWO64
  {
    assert Pow256(1) == 256 && Pow256(2) == 0x1_0000 && Pow256(3) == 0x100_0000 && Pow256(4) == TWO32;
    assert Pow256(5) == 0x100_0000_0000 && Pow256(6) == 0x1_0000_0000_0000;
    assert Pow256(7) == 0x100_0000_0000_0000 && Pow256(8) == TWO64;
  }

  const WORD: nat := 8

  function BE8(n: u64): (b: bytes)
    ensures |b| == 8
  {
    ToBE(n, WORD)
  }

  function FromBE8(b: bytes): (n: u64)
    requires |b| == 8
  {
    Pow256Words();
    ToFrom(b);
    FromBE(b)
  }

  lemma BE8RoundTrip(n: u64)
    ensures FromBE8(BE8(n)) == n
  {
    Pow256Words();
    FromTo(n, 8);
  }

  lemma BE8Onto(b: bytes)
    requires |b| == 8
    ensures BE8(FromBE8(b)) == b
  {
    ToFrom(b);
  }

  lemma BE8Injective(m: u64, n: u64)
    requires BE8(m) == BE8(n)
    ensures m == n
  {
    BE8RoundTrip(m);
    BE8RoundTrip(n);
  }

  // ---------------------------------------------------------------- the order of the store

  /** Byte-wise lexicographic order; a proper prefix comes first. */
  predicate Before(a: bytes, b: bytes)
    decreases |a|
  {
    if b == [] then false
    else if a == [] then true
    else if a[0] != b[0] then a[0] < b[0]
    else Before(a[1..], b[1..])
  }

  lemma {:induction false} BeforeIrreflexive(a: bytes)
    ensures !Before(a, a)
    decreases |a|
  {
    if a != [] { BeforeIrreflexive(a[1..]); }
  }

  lemma {:induction false} BeforeTotal(a: bytes, b: bytes)
    ensures Before(a, b) || a == b || Before(b, a)
    decreases |a|
  {
    if a != [] && b != [] && a[0] == b[0] {
      BeforeTotal(a[1..], b[1..]);
      assert a == [a[0]] + a[1..] && b == [b[0]] + b[1..];
    }
  }

  lemma {:induction false} BeforeTransitive(a: bytes, b: bytes, c: bytes)
    requires Before(a, b) && Before(b, c)
    ensures Before(a, c)
    decreases |a|
  {
    if a != [] && a[0] == b[0] == c[0] { BeforeTransitive(a[1..], b[1..], c[1..]); }
  }

  /** A common prefix does not matter to the order. */
  lemma {:induction false} BeforePrefixed(p: bytes, a: bytes, b: bytes)
    ensures Before(p + a, p + b) == Before(a, b)
    decreases |p|
  {
    if p == [] {
      assert p + a == a && p + b == b;
    } else {
      assert (p + a)[1..] == p[1..] + a && (p + b)[1..] == p[1..] + b;
      BeforePrefixed(p[1..], a, b);
    }
  }

  lemma {:induction false} BeforeLast(a: bytes, b: bytes, x: byte, y: byte)
    requires |a| == |b|
    ensures Before(a + [x], b + [y]) <==> Before(a, b) || (a == b && x < y)
    decreases |a|
  {
    if a == [] {
      assert a + [x] == [x] && b + [y] == [y];
    } else {
      assert (a + [x])[1..] == a[1..] + [x] && (b + [y])[1..] == b[1..] + [y];
      BeforeLast(a[1..], b[1..], x, y);
      assert a == b <==> a[0] == b[0] && a[1..] == b[1..] by {
        assert a == [a[0]] + a[1..] && b == [b[0]] + b[1..];
      }
    }
  }

  /** Big-endian words of one width sort like the numbers they stand for. */
  lemma {:induction false} OrderPreserving(m: nat, n: nat, len: nat)
    requires m < Pow256(len) && n < Pow256(len)
    ensures Before(ToBE(m, len), ToBE(n, len)) <==> m < n
    decreases len
  {
    if len > 0 {
      OrderPreserving(m / 256, n / 256, len - 1);
      BeforeLast(ToBE(m / 256, len - 1), ToBE(n / 256, len - 1), m % 256, n % 256);
      FromTo(m / 256, len - 1);
      FromTo(n / 256, len - 1);
    }
  }

  lemma BE8Order(m: u64, n: u64)
    ensures Before(BE8(m), BE8(n)) <==> m < n
  {
    Pow256Words();
    OrderPreserving(m, n, 8);
  }

  // ---------------------------------------------------------------- key builders

  const LAST_CODE_ID: bytes := [0x6c, 0x61, 0x73, 0x74, 0x43, 0x6f, 0x64, 0x65, 0x49, 0x64]
  const LAST_CONTRACT_ID: bytes := [0x6c, 0x61, 0x73, 0x74, 0x43, 0x6f, 0x6e, 0x74, 0x72, 0x61, 0x63, 0x74, 0x49, 0x64]

  const KeySequenceCodeID: bytes := [0x04] + LAST_CODE_ID
  const KeySequenceInstanceID: bytes := [0x04] + LAST_CONTRACT_ID
  const TxCounterKey: bytes := [0x08]
  const ParamsKey: bytes := [0x10]

  function CodeKey(id: u64): (k: bytes) { [0x01] + BE8(id) }
  function ContractKey(a: Addr): (k: bytes) { [0x02] + a }
  function StatePrefix(a: Addr): (k: bytes) { [0x03] + a }
  function StateKey(a: Addr, key: bytes): (k: bytes) { StatePrefix(a) + key }
  function HistoryPrefix(a: Addr): (k: bytes) { [0x05] + a }
  function HistoryKey(a: Addr, pos: u64): (k: bytes) { HistoryPrefix(a) + BE8(pos) }
  function PositionBytes(p: Position): (b: bytes) ensures |b| == 16 { BE8(p.height) + BE8(p.index) }
  function CodeIndexPrefix(code: u64): (k: bytes) { [0x06] + BE8(code) }
  function CodeIndexKey(code: u64, p: Position, a: Addr): (k: bytes) { CodeIndexPrefix(code) + PositionBytes(p) + a }
  function PinKey(id: u64): (k: bytes) { [0x07] + BE8(id) }
  /** A non-empty address behind its length. */
  function CreatorPrefix(c: Account): (k: bytes) { [0x09, |c|] + c }
  function CreatorIndexKey(c: Account, p: Position, a: Addr): (k: bytes) { CreatorPrefix(c) + PositionBytes(p) + a }

  /** The channel part is length-prefixed with a 32-bit word, the port part is not. */
  function PacketKey(channel: bytes, sequence: u64): (k: bytes) { ToBE(|channel| % TWO32, 4) + channel + BE8(sequence) }
  function PacketId(port: bytes, channel: bytes, sequence: u64): (k: bytes) { port + PacketKey(channel, sequence) }
  function AsyncKey(port: bytes, channel: bytes, sequence: u64): (k: bytes) { [0x11] + PacketId(port, channel, sequence) }

  // Other modules' stores: core IBC's receipts and acknowledgements, and everything else.
  function ReceiptKey(port: bytes, channel: bytes, sequence: u64): (k: bytes) { [0x81] + PacketId(port, channel, sequence) }
  function AckKey(port: bytes, channel: bytes, sequence: u64): (k: bytes) { [0x82] + PacketId(port, channel, sequence) }
  function ForeignKey(key: bytes): (k: bytes) { [0xF0] + key }

  // ---------------------------------------------------------------- building keys in a buffer

  /** copy(r[at:], src): everything before `at` stays. */
  method CopyInto(r: array<byte>, at: nat, src: bytes)
    requires at + |src| <= r.Length
    modifies r
    ensures r[..at + |src|] == old(r[..at]) + src
  {
    for i := 0 to |src|
      invariant r[..at + i] == old(r[..at]) + src[..i]
    {
      r[at + i] := src[i];
      assert r[..at + i + 1] == r[..at + i] + [src[i]];
      assert src[..i + 1] == src[..i] + [src[i]];
    }
    assert src[..|src|] == src;
  }

  /** Three parts copied one behind the other into a buffer made for them. */
  method Fill(a: bytes, b: bytes, c: bytes) returns (r: array<byte>)
    ensures fresh(r) && r[..] == a + b + c
  {
    r := new byte[|a| + |b| + |c|](_ => 0);
    CopyInto(r, 0, a);
    CopyInto(r, |a|, b);
    CopyInto(r, |a| + |b|, c);
    assert r[..] == r[..|a| + |b| + |c|];
  }

  method BuildHistoryKey(a: Addr, pos: u64) returns (r: array<byte>)
    ensures fresh(r) && r[..] == HistoryKey(a, pos)
  {
    r := Fill([0x05], a, BE8(pos));
  }

  method BuildCodeIndexKey(a: Addr, entry: HistoryEntry) returns (r: array<byte>)
    ensures fresh(r) && r[..] == CodeIndexKey(entry.codeID, entry.updated, a)
  {
    r := Fill(CodeIndexPrefix(entry.codeID), PositionBytes(entry.updated), a);
  }

  method BuildCreatorIndexKey(creator: Account, p: Position, a: Addr) returns (r: array<byte>)
    ensures fresh(r) && r[..] == CreatorIndexKey(creator, p, a)
  {
    r := Fill(CreatorPrefix(creator), PositionBytes(p), a);
  }

  // ---------------------------------------------------------------- reading keys back

  lemma PositionBytesInjective(p: Position, q: Position)
    requires PositionBytes(p) == PositionBytes(q)
    ensures p == q
  {
    assert PositionBytes(p)[..8] == BE8(p.height) && PositionBytes(q)[..8] == BE8(q.height);
    assert PositionBytes(p)[8..] == BE8(p.index) && PositionBytes(q)[8..] == BE8(q.index);
    BE8Injective(p.height, q.height);
    BE8Injective(p.index, q.index);
  }

  lemma Assoc<T>(a: seq<T>, b: seq<T>, c: seq<T>)
    ensures (a + b) + c == a + (b + c)
  {}

  lemma {:induction false} SplitEqual<T>(a: seq<T>, b: seq<T>, c: seq<T>, d: seq<T>)
    requires a + b == c + d && |a| == |c|
    ensures a == c && b == d
  {
    assert a == (a + b)[..|a|] && c == (c + d)[..|c|];
    assert b == (a + b)[|a|..] && d == (c + d)[|c|..];
  }

  lemma HistoryKeyInjective(a: Addr, p: u64, b: Addr, q: u64)
    requires HistoryKey(a, p) == HistoryKey(b, q)
    ensures a == b && p == q
  {
    SplitEqual(HistoryPrefix(a), BE8(p), HistoryPrefix(b), BE8(q));
    SplitEqual([0x05], a, [0x05], b);
    BE8Injective(p, q);
  }

  lemma CodeIndexKeyInjective(c: u64, p: Position, a: Addr, d: u64, q: Position, b: Addr)
    requires CodeIndexKey(c, p, a) == CodeIndexKey(d, q, b)
    ensures c == d && p == q && a == b
  {
    SplitEqual(CodeIndexPrefix(c) + PositionBytes(p), a, CodeIndexPrefix(d) + PositionBytes(q), b);
    SplitEqual(CodeIndexPrefix(c), PositionBytes(p), CodeIndexPrefix(d), PositionBytes(q));
    SplitEqual([0x06], BE8(c), [0x06], BE8(d));
    BE8Injective(c, d);
    PositionBytesInjective(p, q);
  }

  lemma CreatorIndexKeyInjective(c: Account, p: Position, a: Addr, d: Account, q: Position, b: Addr)
    requires CreatorIndexKey(c, p, a) == CreatorIndexKey(d, q, b)
    ensures c == d && p == q && a == b
  {
    assert CreatorIndexKey(c, p, a)[1] == |c| && CreatorIndexKey(d, q, b)[1] == |d|;
    SplitEqual(CreatorPrefix(c) + PositionBytes(p), a, CreatorPrefix(d) + PositionBytes(q), b);
    SplitEqual(CreatorPrefix(c), PositionBytes(p), CreatorPrefix(d), PositionBytes(q));
    SplitEqual([0x09, |c|], c, [0x09, |d|], d);
    PositionBytesInjective(p, q);
  }

  /** The first zero byte of a packet id ends the port: the length word of a channel starts with zero. */
  lemma PacketIdZero(port: PortId, channel: ChannelId, sequence: u64)
    ensures var k := PacketId(port, channel, sequence);
            |port| < |k| && k[|port|] == 0 && k[..|port|] == port
  {
    var n := |channel|;
    assert n % TWO32 == n;
    var word := ToBE(n, 4);
    assert word[0] == 0 by {
      assert word == ToBE(n / 256, 3) + [n % 256];
      assert ToBE(n / 256, 3) == ToBE(n / 256 / 256, 2) + [n / 256 % 256];
      assert ToBE(n / 256 / 256, 2) == ToBE(n / 256 / 256 / 256, 1) + [n / 256 / 256 % 256];
      assert ToBE(n / 256 / 256 / 256, 1) == ToBE(0, 0) + [n / 256 / 256 / 256 % 256];
    }
    assert PacketId(port, channel, sequence)[|port|] == word[0];
  }

  /** Zero-free ports and channels below 2^24 bytes keep packet ids apart, with no length prefix on the port. */
  lemma PacketIdInjective(p: PortId, c: ChannelId, s: u64, q: PortId, d: ChannelId, t: u64)
    requires PacketId(p, c, s) == PacketId(q, d, t)
    ensures p == q && c == d && s == t
  {
    PacketIdZero(p, c, s);
    PacketIdZero(q, d, t);
    assert |p| == |q|;
    SplitEqual(p, PacketKey(c, s), q, PacketKey(d, t));
    SplitEqual(ToBE(|c| % TWO32, 4) + c, BE8(s), ToBE(|d| % TWO32, 4) + d, BE8(t));
    SplitEqual(ToBE(|c| % TWO32, 4), c, ToBE(|d| % TWO32, 4), d);
    BE8Injective(s, t);
  }

  /** The length word of a channel: four bytes, the first of them zero. */
  function LengthWord(n: nat): (w: bytes)
    requires n < 0x100_0000
    ensures |w| == 4 && w[0] == 0 && w == ToBE(n % TWO32, 4)
  {
    WordParts(n);
    ToBE(n, 4)
  }

  lemma WordParts(n: nat)
    requires n < 0x100_0000
    ensures n % TWO32 == n && ToBE(n, 4) == [0, n / 65536, n / 256 % 256, n % 256]
  {
    Word4(n, 0, n / 65536, n / 256 % 256, n % 256);
  }

  /** The number whose four big-endian bytes begin with x, zeros behind it. */
  function Leading(x: bytes): (n: nat)
    requires x != []
  {
    var y := x + [0, 0, 0];
    var a: int, b: int, c: int, d: int := y[0], y[1], y[2], y[3];
    ((a * 256 + b) * 256 + c) * 256 + d
  }

  /** The port q goes on where p ends with bytes that can be read as the length of a long enough channel. */
  predicate ReadsOn(p: bytes, q: bytes) {
    |p| < |q| && p <= q && q[|p|] == 0 && Leading(q[|p|..]) >= |q| - |p|
  }

  /** For ports of any bytes: two of them share a packet key exactly when one reads on into the other. */
  lemma PortsCollide(p: bytes, q: bytes)
    requires p != q
    ensures (exists c: ChannelId, s: u64, d: ChannelId, t: u64 :: AsyncKey(p, c, s) == AsyncKey(q, d, t)) <==> ReadsOn(p, q) || ReadsOn(q, p)
  {
    if ReadsOn(p, q) { var c, d := SharedKey(p, q); }
    if ReadsOn(q, p) { var c, d := SharedKey(q, p); }
    forall c: ChannelId, s: u64, d: ChannelId, t: u64 | AsyncKey(p, c, s) == AsyncKey(q, d, t) ensures ReadsOn(p, q) || ReadsOn(q, p) {
      SplitEqual([0x11], PacketId(p, c, s), [0x11], PacketId(q, d, t));
      if |p| <= |q| { MeansReadsOn(p, c, s, q, d, t); } else { MeansReadsOn(q, d, t, p, c, s); }
    }
  }

  /** So zero bytes in a port let two different packets share a key. */
  lemma AsyncKeysCollide()
    ensures exists c: ChannelId, s: u64, d: ChannelId, t: u64 :: AsyncKey([], c, s) == AsyncKey([0, 0, 1], d, t)
  {
    var q: bytes := [0, 0, 1];
    assert q[0..] == q && (q + [0, 0, 0])[3] == 0;
    PortsCollide([], q);
  }

  /** What is in front of the two channels, seen from the end of the shorter port. */
  lemma MeansReadsOn(p: bytes, c: ChannelId, s: u64, q: bytes, d: ChannelId, t: u64)
    requires p != q && |p| <= |q| && PacketId(p, c, s) == PacketId(q, d, t)
    ensures ReadsOn(p, q)
  {
    var x := q[|p|..];
    LongerPort(p, PacketKey(c, s), q, PacketKey(d, t));
    FrontOf(c, s, []);
    FrontOf(d, t, x);
    assert [] + PacketKey(c, s) == PacketKey(c, s) && [] + LengthWord(|c|) == LengthWord(|c|);
    LeadingOf(x, |d|);
  }

  lemma LongerPort(p: bytes, k: bytes, q: bytes, l: bytes)
    requires |p| <= |q| && p + k == q + l
    ensures p <= q && q == p + q[|p|..] && k == q[|p|..] + l
  {
    assert (p + k)[..|p|] == p && (q + l)[..|q|] == q;
    assert (p + k)[|p|..] == k && (q + l)[|p|..] == q[|p|..] + l;
  }

  lemma FrontOf(c: ChannelId, s: u64, x: bytes)
    ensures |PacketKey(c, s)| == |c| + 12 && (x + PacketKey(c, s))[..4] == (x + LengthWord(|c|))[..4]
  {}

  lemma LeadingOf(x: bytes, n: nat)
    requires x != [] && |x| + n < 0x100_0000 && LengthWord(|x| + n) == (x + LengthWord(n))[..4]
    ensures x[0] == 0 && Leading(x) >= |x|
  {
    var w, v := LengthWord(|x| + n), LengthWord(n);
    var y := x + v;
    assert w[0] == y[0] && w[1] == y[1] && w[2] == y[2] && w[3] == y[3];
    if |x| == 1 { ShortOne(n, w, v); }
    if |x| == 2 { ShortTwo(n, w, v, x[1]); }
  }

  lemma ShortOne(n: nat, w: bytes, v: bytes)
    requires n + 1 < 0x100_0000 && w == LengthWord(n + 1) && v == LengthWord(n)
    ensures !(w[1] == v[0] && w[2] == v[1] && w[3] == v[2])
  {
    WordParts(n + 1);
    WordParts(n);
  }

  lemma ShortTwo(n: nat, w: bytes, v: bytes, m: byte)
    requires n + 2 < 0x100_0000 && w == LengthWord(n + 2) && v == LengthWord(n) && w[1] == m && w[2] == v[0] && w[3] == v[1]
    ensures m > 0
  {
    WordParts(n + 2);
    WordParts(n);
  }

  /** A length for the channel behind the longer port. */
  function InnerLength(x: bytes): (n: nat)
    requires x != [] && x[0] == 0 && Leading(x) >= |x|
  {
    if |x| != 2 then Leading(x) - |x|
    else
      var m: int := x[1];
      if m == 1 then 65534 else m * 65536 + m - 2
  }

  predicate Fits(x: bytes, n: nat) {
    |x| + n < 0x100_0000 && LengthWord(|x| + n) == (x + LengthWord(n))[..4]
  }

  lemma InnerFits(x: bytes)
    requires x != [] && x[0] == 0 && Leading(x) >= |x|
    ensures Fits(x, InnerLength(x))
  {
    if |x| == 1 { LeadingOne(x); }
    if |x| == 2 { LeadingTwo(x); TwoFit(x, x[1]); }
    if |x| == 3 { LeadingThree(x); ThreeFit(x, x[1], x[2]); }
    if |x| > 3 { FourFit(x, InnerLength(x)); }
  }

  lemma LeadingOne(x: bytes)
    requires |x| == 1 && x[0] == 0
    ensures Leading(x) == 0
  {}

  lemma LeadingTwo(x: bytes)
    requires |x| == 2 && x[0] == 0 && Leading(x) >= 2
    ensures x == [0, x[1]] && x[1] > 0
  {}

  lemma LeadingThree(x: bytes)
    requires |x| == 3 && x[0] == 0 && Leading(x) >= 3
    ensures x == [0, x[1], x[2]] && (x[1] > 0 || x[2] > 0)
  {}

  lemma TwoFit(x: bytes, m: byte)
    requires x == [0, m] && m > 0
    ensures Fits(x, InnerLength(x))
  {
    var n, k := InnerLength(x), m - 2;
    if m == 1 {
      Word4(65536, 0, 1, 0, 0);
      Word4(65534, 0, 0, 255, 254);
    } else {
      Word4(2 + n, 0, m, 0, m);
      Word4(n, 0, m, 0, k);
    }
  }

  lemma ThreeFit(x: bytes, a: byte, b: byte)
    requires x == [0, a, b] && (a > 0 || b > 0)
    ensures Fits(x, InnerLength(x))
  {
    var n, w := InnerLength(x), LengthWord(InnerLength(x));
    Word4(3 + n, 0, a, b, 0);
    assert (x + w)[..4] == [0, a, b, w[0]];
  }

  lemma FourFit(x: bytes, n: nat)
    requires |x| > 3 && x[0] == 0 && |x| + n == Leading(x)
    ensures Fits(x, n)
  {
    LeadingFour(x);
    Word4(|x| + n, 0, x[1], x[2], x[3]);
    assert (x + LengthWord(n))[..4] == [0, x[1], x[2], x[3]];
  }

  lemma LeadingFour(x: bytes)
    requires |x| > 3 && x[0] == 0
    ensures var b: int, c: int, d: int := x[1], x[2], x[3]; Leading(x) == (b * 256 + c) * 256 + d
  {}

  lemma SharedKey(p: bytes, q: bytes) returns (c: ChannelId, d: ChannelId)
    requires ReadsOn(p, q)
    ensures AsyncKey(p, c, 0) == AsyncKey(q, d, 0)
  {
    var x := q[|p|..];
    var n := InnerLength(x);
    InnerFits(x);
    d := seq(n, _ => 0);
    var y := x + LengthWord(n) + d;
    c := y[4..];
    assert y[..4] == LengthWord(|c|) && y == y[..4] + c && q == p + x;
    assert PacketId(p, c, 0) == p + (y + BE8(0));
    Assoc(x, LengthWord(n) + d, BE8(0));
    assert PacketId(q, d, 0) == q + (LengthWord(n) + d + BE8(0));
    Assoc(p, x, LengthWord(n) + d + BE8(0));
    Assoc(x, LengthWord(n), d);
  }

  lemma Word4(n: nat, a: byte, b: byte, c: byte, d: byte)
    requires n == ((a * 256 + b) * 256 + c) * 256 + d
    ensures ToBE(n, 4) == [a, b, c, d]
  {
    assert ToBE(n, 4) == ToBE(n / 256, 3) + [n % 256];
    assert ToBE(n / 256, 3) == ToBE(n / 256 / 256, 2) + [n / 256 % 256];
    assert ToBE(n / 256 / 256, 2) == ToBE(n / 256 / 256 / 256, 1) + [n / 256 / 256 % 256];
    assert ToBE(n / 256 / 256 / 256, 1) == ToBE(n / 256 / 256 / 256 / 256, 0) + [n / 256 / 256 / 256 % 256];
  }

  /**
   * Contract state is keyed by the address followed by the contract's own key. Two contracts
   * can reach a common key exactly when one address begins with the other.
   */
  lemma StateKeysOverlap(a: Addr, b: Addr)
    ensures (exists k: bytes, l: bytes :: StateKey(a, k) == StateKey(b, l) && k != [] && l != []) <==> a <= b || b <= a
  {
    if a <= b {
      ReachBelow(a, b);
    } else if b <= a {
      ReachBelow(b, a);
    }
    forall k: bytes, l: bytes | StateKey(a, k) == StateKey(b, l) ensures a <= b || b <= a {
      assert a + k == StateKey(a, k)[1..] && b + l == StateKey(b, l)[1..];
      CommonPrefix(a, k, b, l);
    }
  }

  lemma ReachBelow(a: Addr, b: Addr)
    requires a <= b
    ensures StateKey(a, b[|a|..] + [0]) == StateKey(b, [0])
  {
    assert b == a + b[|a|..];
  }

  lemma CommonPrefix(a: bytes, k: bytes, b: bytes, l: bytes)
    requires a + k == b + l
    ensures a <= b || b <= a
  {
    if |a| <= |b| {
      assert a == (a + k)[..|a|] && b[..|a|] == (b + l)[..|a|];
    } else {
      assert b == (b + l)[..|b|] && a[..|b|] == (a + k)[..|b|];
    }
  }

  // ---------------------------------------------------------------- the whole key space

  /** Everything x/wasm keeps in its store. */
  datatype Record =
    | CodeRec(id: u64)
    | ContractRec(addr: Addr)
    | StateRec(addr: Addr, key: bytes)
    | CodeSequenceRec
    | InstanceSequenceRec
    | HistoryRec(addr: Addr, pos: u64)
    | CodeIndexRec(code: u64, at: Position, addr: Addr)
    | PinRec(id: u64)
    | TxCounterRec
    | CreatorIndexRec(creator: Account, at: Position, addr: Addr)
    | ParamsRec
    | AsyncRec(port: PortId, channel: ChannelId, sequence: u64)

  function KeyOf(r: Record): (k: bytes) {
    match r
    case CodeRec(id) => CodeKey(id)
    case ContractRec(a) => ContractKey(a)
    case StateRec(a, k) => StateKey(a, k)
    case CodeSequenceRec => KeySequenceCodeID
    case InstanceSequenceRec => KeySequenceInstanceID
    case HistoryRec(a, p) => HistoryKey(a, p)
    case CodeIndexRec(c, p, a) => CodeIndexKey(c, p, a)
    case PinRec(id) => PinKey(id)
    case TxCounterRec => TxCounterKey
    case CreatorIndexRec(c, p, a) => CreatorIndexKey(c, p, a)
    case ParamsRec => ParamsKey
    case AsyncRec(port, channel, s) => AsyncKey(port, channel, s)
  }

  function TagOf(r: Record): (t: byte) {
    match r
    case CodeRec(_) => 0x01
    case ContractRec(_) => 0x02
    case StateRec(_, _) => 0x03
    case CodeSequenceRec => 0x04
    case InstanceSequenceRec => 0x04
    case HistoryRec(_, _) => 0x05
    case CodeIndexRec(_, _, _) => 0x06
    case PinRec(_) => 0x07
    case TxCounterRec => 0x08
    case CreatorIndexRec(_, _, _) => 0x09
    case ParamsRec => 0x10
    case AsyncRec(_, _, _) => 0x11
  }

  lemma KeyTag(r: Record)
    ensures |KeyOf(r)| > 0 && KeyOf(r)[0] == TagOf(r)
  {}

  /** Distinct records never share a key, given contract addresses of one length for contract state. */
  lemma KeySpaceInjective(r: Record, r': Record)
    requires KeyOf(r) == KeyOf(r')
    requires r.StateRec? && r'.StateRec? ==> |r.addr| == |r'.addr|
    ensures r == r'
  {
    KeyTag(r);
    KeyTag(r');
    match r
    case CodeRec(id) =>
      SplitEqual([0x01], BE8(id), [0x01], BE8(r'.id));
      BE8Injective(id, r'.id);
    case PinRec(id) =>
      SplitEqual([0x07], BE8(id), [0x07], BE8(r'.id));
      BE8Injective(id, r'.id);
    case ContractRec(a) => SplitEqual([0x02], a, [0x02], r'.addr);
    case StateRec(a, k) =>
      SplitEqual(StatePrefix(a), k, StatePrefix(r'.addr), r'.key);
      SplitEqual([0x03], a, [0x03], r'.addr);
    case CodeSequenceRec => assert |KeySequenceCodeID| == 11 && |KeySequenceInstanceID| == 15;
    case InstanceSequenceRec => assert |KeySequenceCodeID| == 11 && |KeySequenceInstanceID| == 15;
    case HistoryRec(a, p) => HistoryKeyInjective(a, p, r'.addr, r'.pos);
    case CodeIndexRec(c, p, a) => CodeIndexKeyInjective(c, p, a, r'.code, r'.at, r'.addr);
    case CreatorIndexRec(c, p, a) => CreatorIndexKeyInjective(c, p, a, r'.creator, r'.at, r'.addr);
    case TxCounterRec =>
    case ParamsRec =>
    case AsyncRec(port, channel, s) =>
      SplitEqual([0x11], PacketId(port, channel, s), [0x11], PacketId(r'.port, r'.channel, r'.sequence));
      PacketIdInjective(port, channel, s, r'.port, r'.channel, r'.sequence);
  }

  // ---------------------------------------------------------------- address preimages

  function ClassicPreimage(codeID: u64, instanceID: u64): (b: bytes) ensures |b| == 16 { BE8(codeID) + BE8(instanceID) }

  /** Go slices: their length is a word. */
  type Slice = b: bytes | |b| < TWO64

  function LengthPrefixed(b: Slice): (r: bytes) { BE8(|b|) + b }

  function PredictablePreimage(checksum: Slice, creator: Slice, salt: Slice, msg: Slice): (r: bytes) {
    LengthPrefixed(checksum) + (LengthPrefixed(creator) + (LengthPrefixed(salt) + LengthPrefixed(msg)))
  }

  method BuildPredictablePreimage(checksum: Slice, creator: Slice, salt: Slice, msg: Slice) returns (key: array<byte>)
    ensures fresh(key) && key[..] == PredictablePreimage(checksum, creator, salt, msg)
  {
    var a, b, c, d := LengthPrefixed(checksum), LengthPrefixed(creator), LengthPrefixed(salt), LengthPrefixed(msg);
    key := Fill4(a, b, c, d);
    Assoc(a + b, c, d);
    Assoc(a, b, c + d);
  }

  method Fill4(a: bytes, b: bytes, c: bytes, d: bytes) returns (r: array<byte>)
    ensures fresh(r) && r[..] == a + b + c + d
  {
    r := new byte[|a| + |b| + |c| + |d|](_ => 0);
    CopyInto(r, 0, a);
    CopyInto(r, |a|, b);
    CopyInto(r, |a| + |b|, c);
    assert r[..|a| + |b| + |c|] == a + b + c;
    CopyInto(r, |a| + |b| + |c|, d);
    assert r[..] == r[..|a| + |b| + |c| + |d|];
  }

  lemma PeelPrefixed(a: Slice, x: bytes, b: Slice, y: bytes)
    requires LengthPrefixed(a) + x == LengthPrefixed(b) + y
    ensures a == b && x == y
  {
    Assoc(BE8(|a|), a, x);
    Assoc(BE8(|b|), b, y);
    SplitEqual(BE8(|a|), a + x, BE8(|b|), b + y);
    BE8Injective(|a|, |b|);
    SplitEqual(a, x, b, y);
  }

  /** Predictable addresses feed the hash distinct preimages for distinct inputs, none of them a classic one. */
  lemma PreimagesInjective(c: Slice, k: Slice, s: Slice, m: Slice, c': Slice, k': Slice, s': Slice, m': Slice)
    requires PredictablePreimage(c, k, s, m) == PredictablePreimage(c', k', s', m')
    ensures c == c' && k == k' && s == s' && m == m'
    ensures |PredictablePreimage(c, k, s, m)| > 16
  {
    PeelPrefixed(c, LengthPrefixed(k) + (LengthPrefixed(s) + LengthPrefixed(m)),
                 c', LengthPrefixed(k') + (LengthPrefixed(s') + LengthPrefixed(m')));
    PeelPrefixed(k, LengthPrefixed(s) + LengthPrefixed(m), k', LengthPrefixed(s') + LengthPrefixed(m'));
    PeelPrefixed(s, LengthPrefixed(m), s', LengthPrefixed(m'));
    assert LengthPrefixed(m) + [] == LengthPrefixed(m) && LengthPrefixed(m') + [] == LengthPrefixed(m');
    PeelPrefixed(m, [], m', []);
  }

  lemma ClassicInjective(c: u64, i: u64, c': u64, i': u64)
    requires ClassicPreimage(c, i) == ClassicPreimage(c', i')
    ensures c == c' && i == i'
  {
    SplitEqual(BE8(c), BE8(i), BE8(c'), BE8(i'));
    BE8Injective(c, c');
    BE8Injective(i, i');
  }
}
