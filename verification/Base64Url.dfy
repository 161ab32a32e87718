/**
 * Unpadded base64url (RFC 4648, section 5) as the client's native code computes it: 24-bit blocks
 * when encoding, a 32-bit buffer that wraps when decoding.  Shifts and masks of unsigned words are
 * written as products, quotients and remainders of powers of two.
 */
module Base64Url {
  import opened Wrappers

  predicate IsSextet(v: int) {
    0 <= v < 64
  }

  predicate AreBytes(b: seq<int>) {
    forall i :: 0 <= i < |b| ==> 0 <= b[i] < 256
  }

  predicate AreSextets(v: seq<int>) {
    forall i :: 0 <= i < |v| ==> IsSextet(v[i])
  }

  const WORD := 0x1_0000_0000

  /** The entry v of the alphabet table: A-Z, a-z, 0-9, - and _. */
  function Letter(v: int): char
    requires IsSextet(v)
  {
    if v < 26 then ('A' as int + v) as char
    else if v < 52 then ('a' as int + v - 26) as char
    else if v < 62 then ('0' as int + v - 52) as char
    else if v == 62 then '-'
    else '_'
  }

  /** Base64Value: -1 for a character outside the alphabet. */
  function Base64Value(c: char): (v: int)
    ensures -1 <= v < 64
    ensures v >= 0 ==> Letter(v) == c
  {
    if 'A' <= c <= 'Z' then c as int - 'A' as int
    else if 'a' <= c <= 'z' then c as int - 'a' as int + 26
    else if '0' <= c <= '9' then c as int - '0' as int + 52
    else if c == '-' then 62
    else if c == '_' then 63
    else -1
  }

  lemma LetterHasValue(v: int)
    requires IsSextet(v)
    ensures Base64Value(Letter(v)) == v
  {
  }

  // ----- quotients and remainders

  lemma RemainderOf(x: int, d: int, q: int, r: int)
    requires d > 0 && 0 <= r < d && x == d * q + r
    ensures x % d == r
  {
    var k := x / d - q;
    assert d * k == r - x % d;
    assert k >= 1 ==> d * k >= d;
    assert k <= -1 ==> d * k <= -d;
  }

  lemma QuotientOf(x: int, d: int, q: int, r: int)
    requires d > 0 && 0 <= r < d && x == d * q + r
    ensures x / d == q
  {
    RemainderOf(x, d, q, r);
    assert d * (x / d - q) == 0;
  }

  // ----- the code of RFC 4648, quantum by quantum

  function FirstSextet(a: int): int {
    a / 4
  }

  function SecondSextet(a: int, b: int): int {
    a % 4 * 16 + b / 16
  }

  function ThirdSextet(b: int, c: int): int {
    b % 16 * 4 + c / 64
  }

  function FourthSextet(c: int): int {
    c % 64
  }

  function FirstByte(h: int, i: int): int {
    h * 4 + i / 16
  }

  function SecondByte(i: int, j: int): int {
    i % 16 * 16 + j / 4
  }

  function ThirdByte(j: int, k: int): int {
    j % 4 * 64 + k
  }

  function Sextets(b: seq<int>): (v: seq<int>)
    requires AreBytes(b)
    ensures AreSextets(v)
    decreases |b|
  {
    if b == [] then []
    else if |b| == 1 then [FirstSextet(b[0]), SecondSextet(b[0], 0)]
    else if |b| == 2 then [FirstSextet(b[0]), SecondSextet(b[0], b[1]), ThirdSextet(b[1], 0)]
    else [FirstSextet(b[0]), SecondSextet(b[0], b[1]), ThirdSextet(b[1], b[2]), FourthSextet(b[2])]
         + Sextets(b[3..])
  }

  /** What n sextets carry: bits that do not fill a byte are dropped. */
  function Bytes(v: seq<int>): (b: seq<int>)
    requires AreSextets(v)
    ensures AreBytes(b)
    decreases |v|
  {
    if |v| <= 1 then []
    else if |v| == 2 then [FirstByte(v[0], v[1])]
    else if |v| == 3 then [FirstByte(v[0], v[1]), SecondByte(v[1], v[2])]
    else [FirstByte(v[0], v[1]), SecondByte(v[1], v[2]), ThirdByte(v[2], v[3])] + Bytes(v[4..])
  }

  function Letters(v: seq<int>): (s: string)
    requires AreSextets(v)
    ensures |s| == |v|
    ensures forall i :: 0 <= i < |v| ==> s[i] == Letter(v[i])
  {
    seq(|v|, i requires 0 <= i < |v| => Letter(v[i]))
  }

  predicate InAlphabet(s: string) {
    forall c <- s :: Base64Value(c) >= 0
  }

  function Values(s: string): (v: seq<int>)
    requires InAlphabet(s)
    ensures |v| == |s| && AreSextets(v)
    ensures forall i :: 0 <= i < |s| ==> v[i] == Base64Value(s[i])
  {
    seq(|s|, i requires 0 <= i < |s| => assert s[i] in s; Base64Value(s[i]))
  }

  function Encoded(b: seq<int>): string
    requires AreBytes(b)
  {
    Letters(Sextets(b))
  }

  /** None is the exception for a character outside the alphabet. */
  function Decoded(s: string): Option<seq<int>> {
    if InAlphabet(s) then Some(Bytes(Values(s))) else None
  }

  // ----- encoding

  /** (block >> n) & 0x3F, with unit the n-th power of two. */
  function Masked(block: int, unit: int): (v: int)
    requires unit > 0
    ensures IsSextet(v)
  {
    block / unit % 64
  }

  /** The four sextets of a block, by shifting and masking. */
  lemma Cut(h: int, i: int, j: int, k: int)
    requires IsSextet(h) && IsSextet(i) && IsSextet(j) && IsSextet(k)
    ensures var block := h * 0x4_0000 + i * 0x1000 + j * 0x40 + k;
      && Masked(block, 0x4_0000) == h && Masked(block, 0x1000) == i
      && Masked(block, 64) == j && Masked(block, 1) == k
  {
    var block := h * 0x4_0000 + i * 0x1000 + j * 0x40 + k;
    QuotientOf(block, 0x4_0000, h, i * 0x1000 + j * 0x40 + k);
    RemainderOf(h, 64, 0, h);
    QuotientOf(block, 0x1000, h * 64 + i, j * 64 + k);
    RemainderOf(h * 64 + i, 64, h, i);
    QuotientOf(block, 64, h * 0x1000 + i * 64 + j, k);
    RemainderOf(h * 0x1000 + i * 64 + j, 64, h * 64 + i, j);
    QuotientOf(block, 1, block, 0);
    RemainderOf(block, 64, h * 0x1000 + i * 64 + j, k);
  }

  lemma SextetRanges(a: int, b: int, c: int)
    requires 0 <= a < 256 && 0 <= b < 256 && 0 <= c < 256
    ensures IsSextet(FirstSextet(a)) && IsSextet(SecondSextet(a, b))
    ensures IsSextet(ThirdSextet(b, c)) && IsSextet(FourthSextet(c))
  {
  }

  lemma BlockOfSextets(a: int, b: int, c: int)
    ensures a * 0x1_0000 + b * 0x100 + c ==
            FirstSextet(a) * 0x4_0000 + SecondSextet(a, b) * 0x1000 + ThirdSextet(b, c) * 0x40 + FourthSextet(c)
  {
    var a1, a0, b1, b0, c1, c0 := a / 4, a % 4, b / 16, b % 16, c / 64, c % 64;
    assert a == 4 * a1 + a0;
    assert b == 16 * b1 + b0;
    assert c == 64 * c1 + c0;
  }

  lemma CutBytes(a: int, b: int, c: int)
    requires 0 <= a < 256 && 0 <= b < 256 && 0 <= c < 256
    ensures var block := a * 0x1_0000 + b * 0x100 + c;
      && Masked(block, 0x4_0000) == FirstSextet(a)
      && Masked(block, 0x1000) == SecondSextet(a, b)
      && Masked(block, 64) == ThirdSextet(b, c)
      && Masked(block, 1) == FourthSextet(c)
  {
    hide Masked, FirstSextet, SecondSextet, ThirdSextet, FourthSextet;
    SextetRanges(a, b, c);
    BlockOfSextets(a, b, c);
    Cut(FirstSextet(a), SecondSextet(a, b), ThirdSextet(b, c), FourthSextet(c));
  }

  /** What is left of the spec when index bytes are done. */
  function Rest(bytes: seq<int>, index: nat): (v: seq<int>)
    requires AreBytes(bytes) && index <= |bytes|
    ensures AreSextets(v)
  {
    Sextets(bytes[index..])
  }

  lemma RestFull(bytes: seq<int>, index: nat)
    requires AreBytes(bytes) && index + 3 <= |bytes|
    ensures var block := bytes[index] * 0x1_0000 + bytes[index + 1] * 0x100 + bytes[index + 2];
      Rest(bytes, index) == [Masked(block, 0x4_0000)] + [Masked(block, 0x1000)]
                            + [Masked(block, 64)] + [Masked(block, 1)] + Rest(bytes, index + 3)
  {
    hide Masked, FirstByte, SecondByte, ThirdByte, FirstSextet, SecondSextet, ThirdSextet, FourthSextet;
    CutBytes(bytes[index], bytes[index + 1], bytes[index + 2]);
    assert bytes[index..][3..] == bytes[index + 3..];
  }

  lemma RestOne(bytes: seq<int>, index: nat)
    requires AreBytes(bytes) && index + 1 == |bytes|
    ensures var block := bytes[index] * 0x1_0000;
      Rest(bytes, index) == [Masked(block, 0x4_0000)] + [Masked(block, 0x1000)]
  {
    hide Masked, FirstByte, SecondByte, ThirdByte, FirstSextet, SecondSextet, ThirdSextet, FourthSextet;
    CutBytes(bytes[index], 0, 0);
  }

  lemma RestTwo(bytes: seq<int>, index: nat)
    requires AreBytes(bytes) && index + 2 == |bytes|
    ensures var block := bytes[index] * 0x1_0000 + bytes[index + 1] * 0x100;
      Rest(bytes, index) == [Masked(block, 0x4_0000)] + [Masked(block, 0x1000)] + [Masked(block, 64)]
  {
    hide Masked, FirstByte, SecondByte, ThirdByte, FirstSextet, SecondSextet, ThirdSextet, FourthSextet;
    CutBytes(bytes[index], bytes[index + 1], 0);
  }

  lemma LettersJoin(v: seq<int>, w: seq<int>)
    requires AreSextets(v) && AreSextets(w)
    ensures AreSextets(v + w) && Letters(v + w) == Letters(v) + Letters(w)
  {
  }

  /** The letter of six bits of a block. */
  method Push(result: string, block: int, unit: int) returns (longer: string)
    requires unit > 0
    ensures longer == result + Letters([Masked(block, unit)])
  {
    longer := result + [Letter(Masked(block, unit))];
  }

  /** The letters of a full block. */
  method PushBlock(result: string, block: int) returns (longer: string)
    ensures longer == result + Letters([Masked(block, 0x4_0000)] + [Masked(block, 0x1000)]
                                       + [Masked(block, 64)] + [Masked(block, 1)])
  {
    hide Masked;
    longer := Push(result, block, 0x4_0000);
    longer := Push(longer, block, 0x1000);
    longer := Push(longer, block, 64);
    longer := Push(longer, block, 1);
  }

  method Encode(bytes: seq<int>) returns (result: string)
    requires AreBytes(bytes)
    ensures result == Encoded(bytes)
  {
    hide Masked, Sextets, Letters;
    result := "";
    ghost var sextets: seq<int> := [];
    var index := 0;
    assert bytes[0..] == bytes;
    while index + 3 <= |bytes|
      invariant 0 <= index <= |bytes| && AreSextets(sextets)
      invariant result == Letters(sextets)
      invariant Sextets(bytes) == sextets + Rest(bytes, index)
    {
      var block := bytes[index] * 0x1_0000 + bytes[index + 1] * 0x100 + bytes[index + 2];
      RestFull(bytes, index);
      result := PushBlock(result, block);
      ghost var four := [Masked(block, 0x4_0000)] + [Masked(block, 0x1000)] + [Masked(block, 64)] + [Masked(block, 1)];
      LettersJoin(sextets, four);
      sextets := sextets + four;
      index := index + 3;
    }
    var remaining := |bytes| - index;
    if remaining == 1 {
      RestOne(bytes, index);
      var block := bytes[index] * 0x1_0000;
      result := Push(result, block, 0x4_0000);
      LettersJoin(sextets, [Masked(block, 0x4_0000)]);
      result := Push(result, block, 0x1000);
      LettersJoin(sextets + [Masked(block, 0x4_0000)], [Masked(block, 0x1000)]);
      sextets := sextets + [Masked(block, 0x4_0000)] + [Masked(block, 0x1000)];
    } else if remaining == 2 {
      RestTwo(bytes, index);
      var block := bytes[index] * 0x1_0000 + bytes[index + 1] * 0x100;
      result := Push(result, block, 0x4_0000);
      LettersJoin(sextets, [Masked(block, 0x4_0000)]);
      result := Push(result, block, 0x1000);
      LettersJoin(sextets + [Masked(block, 0x4_0000)], [Masked(block, 0x1000)]);
      result := Push(result, block, 64);
      LettersJoin(sextets + [Masked(block, 0x4_0000)] + [Masked(block, 0x1000)], [Masked(block, 64)]);
      sextets := sextets + [Masked(block, 0x4_0000)] + [Masked(block, 0x1000)] + [Masked(block, 64)];
    } else {
      RestNone(bytes);
    }
    assert sextets == Sextets(bytes);
  }

  lemma RestNone(bytes: seq<int>)
    requires AreBytes(bytes)
    ensures Rest(bytes, |bytes|) == []
  {
  }

  // ----- decoding

  function PowerOfTwo(bits: int): (p: int)
    ensures p > 0
  {
    match bits
    case 0 => 1
    case 2 => 4
    case 4 => 16
    case _ => 64
  }

  /** The bits of a started quantum that have not been output. */
  function Leftover(v: seq<int>): int {
    match |v| % 4
    case 0 => 0
    case 1 => v[|v| - 1]
    case 2 => Below(v[|v| - 1], 16)
    case _ => Below(v[|v| - 1], 4)
  }

  function PendingBits(n: nat): int {
    match n % 4
    case 0 => 0
    case 1 => 6
    case 2 => 4
    case _ => 2
  }

  /** (buffer << 6) | v in 32 bits. */
  function NextBuffer(buffer: int, v: int): int {
    buffer * 64 % WORD + v
  }

  /** (x >> n) & 0xFF, with unit the n-th power of two. */
  function ByteAt(x: int, unit: int): int
    requires unit > 0
  {
    x / unit % 256
  }

  /** The bits of x below the unit. */
  function Below(x: int, unit: int): int
    requires unit > 0
  {
    x % unit
  }

  /** The byte a sextet completes, if it completes one. */
  function Completed(v: seq<int>, last: int): seq<int> {
    match |v| % 4
    case 0 => []
    case 1 => [FirstByte(v[|v| - 1], last)]
    case 2 => [SecondByte(v[|v| - 1], last)]
    case _ => [ThirdByte(v[|v| - 1], last)]
  }

  lemma SextetsAppend(v: seq<int>, last: int)
    requires AreSextets(v) && IsSextet(last)
    ensures AreSextets(v + [last])
  {
  }

  lemma StartedQuantum(v: seq<int>, last: int)
    requires AreSextets(v) && AreSextets(v + [last]) && |v| < 3
    ensures Bytes(v + [last]) == Bytes(v) + Completed(v, last)
  {
    hide FirstByte, SecondByte, ThirdByte, FirstSextet, SecondSextet, ThirdSextet, FourthSextet, AreSextets, AreBytes;
  }

  lemma WholeQuantum(v: seq<int>, last: int)
    requires AreSextets(v) && AreSextets(v + [last]) && |v| == 3
    ensures Bytes(v + [last]) == Bytes(v) + Completed(v, last)
  {
    hide FirstByte, SecondByte, ThirdByte, FirstSextet, SecondSextet, ThirdSextet, FourthSextet, AreSextets, AreBytes;
    assert (v + [last])[4..] == [];
  }

  /** One more sextet completes a byte except at the start of a quantum. */
  lemma {:induction false} BytesAppend(v: seq<int>, last: int)
    requires AreSextets(v) && IsSextet(last)
    ensures AreSextets(v + [last])
    ensures Bytes(v + [last]) == Bytes(v) + Completed(v, last)
    decreases |v|
  {
    SextetsAppend(v, last);
    if |v| < 3 {
      StartedQuantum(v, last);
    } else if |v| == 3 {
      WholeQuantum(v, last);
    } else {
      BytesAppend(v[4..], last);
      LaterQuantum(v, last);
    }
  }

  lemma LaterQuantum(v: seq<int>, last: int)
    requires AreSextets(v) && AreSextets(v + [last]) && |v| >= 4 && AreSextets(v[4..] + [last])
    requires Bytes(v[4..] + [last]) == Bytes(v[4..]) + Completed(v[4..], last)
    ensures Bytes(v + [last]) == Bytes(v) + Completed(v, last)
  {
    hide FirstByte, SecondByte, ThirdByte, FirstSextet, SecondSextet, ThirdSextet, FourthSextet;
    hide AreSextets, AreBytes, Completed;
    assert (v + [last])[4..] == v[4..] + [last];
    assert Completed(v[4..], last) == Completed(v, last) by { CompletedLater(v, last); }
  }

  lemma CompletedLater(v: seq<int>, last: int)
    requires |v| >= 4
    ensures Completed(v[4..], last) == Completed(v, last)
  {
    assert |v[4..]| % 4 == |v| % 4;
  }

  lemma ByteInPlace(pending: int, unit: int, byte: int, rest: int)
    requires unit > 0 && 0 <= rest < unit && 0 <= byte < 256 && pending == unit * byte + rest
    ensures ByteAt(pending, unit) == byte
  {
    QuotientOf(pending, unit, byte, rest);
    RemainderOf(byte, 256, 0, byte);
  }

  /** The same byte, cut from the pending bits and the new sextet. */
  lemma CompletedFromBits(v: seq<int>, last: int)
    requires AreSextets(v) && IsSextet(last)
    ensures Completed(v, last) ==
            if |v| % 4 == 0 then []
            else [ByteAt(Leftover(v) * 64 + last, PowerOfTwo(PendingBits(|v| + 1)))]
  {
    hide ByteAt;
    if |v| % 4 == 1 {
      var h := v[|v| - 1];
      ByteInPlace(h * 64 + last, 16, FirstByte(h, last), last % 16);
    } else if |v| % 4 == 2 {
      var h := v[|v| - 1];
      ByteInPlace(h % 16 * 64 + last, 4, SecondByte(h, last), last % 4);
    } else if |v| % 4 == 3 {
      var h := v[|v| - 1];
      ByteInPlace(h % 4 * 64 + last, 1, ThirdByte(h, last), 0);
    }
  }

  lemma ModOfMultiple(x: int, m: int, k: int)
    requires m > 0 && k > 0 && m * k > 0
    ensures x % (m * k) % m == x % m
  {
    var q := x / (m * k);
    assert (m * k) * q == m * (k * q);
    assert m * (x / m - k * q) == m * (x / m) - m * (k * q);
    RemainderOf(x % (m * k), m, x / m - k * q, x % m);
  }

  /** Reducing to 32 bits first does not change the low bits. */
  lemma ModOfProduct(buffer: int, power: int)
    requires 0 <= buffer && power in {1, 4, 16, 64}
    ensures (buffer * 64 % WORD) % (64 * power) == buffer % power * 64
  {
    var words := if power == 1 then WORD / 64 else if power == 4 then WORD / 256
                 else if power == 16 then WORD / 1024 else WORD / 4096;
    assert WORD == (64 * power) * words;
    ModOfMultiple(buffer * 64, 64 * power, words);
    assert buffer * 64 == (64 * power) * (buffer / power) + buffer % power * 64;
    RemainderOf(buffer * 64, 64 * power, buffer / power, buffer % power * 64);
  }

  /** The low bits of the wrapped buffer are all that matters. */
  lemma BufferStep(buffer: int, power: int, v: int)
    requires 0 <= buffer < WORD && power in {1, 4, 16, 64} && IsSextet(v)
    ensures var next := buffer * 64 % WORD + v;
      && 0 <= next < WORD
      && next % (64 * power) == buffer % power * 64 + v
  {
    var shifted := buffer * 64 % WORD;
    ModOfProduct(buffer, 1);
    ModOfProduct(buffer, power);
    RemainderOf(shifted + v, 64 * power, shifted / (64 * power), buffer % power * 64 + v);
  }

  /** The byte under the mask is the byte of the pending bits, and the bits below it stay. */
  lemma ByteUnderMask(next: int, pending: int, unit: int)
    requires 0 <= next && 0 <= pending < 256 * unit && unit in {1, 4, 16}
    requires next % (256 * unit) == pending
    ensures next / unit % 256 == pending / unit
    ensures next % unit == pending % unit
  {
    var q, s, t := next / (256 * unit), pending / unit, pending % unit;
    assert next == unit * (256 * q + s) + t;
    QuotientOf(next, unit, 256 * q + s, t);
    RemainderOf(next, unit, 256 * q + s, t);
    assert s < 256 by { assert unit * s <= pending; }
    RemainderOf(256 * q + s, 256, q, s);
  }

  /** What is kept of the pending bits is what the spec keeps of the sextet. */
  lemma KeptBits(left: int, v: int)
    ensures Below(left * 64 + v, 16) == Below(v, 16)
    ensures Below(left * 64 + v, 4) == Below(v, 4)
    ensures Below(left * 64 + v, 1) == 0
  {
    RemainderOf(left * 64 + v, 16, left * 4 + v / 16, v % 16);
    RemainderOf(left * 64 + v, 4, left * 16 + v / 4, v % 4);
  }

  lemma LeftoverNext(seen: seq<int>, v: int)
    requires IsSextet(v)
    ensures Leftover(seen + [v]) ==
            if |seen| % 4 == 0 then v
            else Below(Leftover(seen) * 64 + v, PowerOfTwo(PendingBits(|seen| + 1)))
  {
    hide Below;
    KeptBits(Leftover(seen), v);
  }

  predicate IsUnit(unit: int) {
    unit in {1, 4, 16}
  }

  lemma PowersMatch(n: nat)
    ensures n % 4 == 0 ==> PowerOfTwo(PendingBits(n)) == 1 && PowerOfTwo(PendingBits(n + 1)) == 64
                           && PendingBits(n) == 0 && PendingBits(n + 1) == 6
    ensures n % 4 != 0 ==> PowerOfTwo(PendingBits(n)) == 4 * PowerOfTwo(PendingBits(n + 1))
                           && IsUnit(PowerOfTwo(PendingBits(n + 1)))
                           && PendingBits(n) >= 2 && PendingBits(n + 1) == PendingBits(n) - 2
  {
  }

  lemma ByteFits(pending: int, unit: int)
    requires 0 <= pending < 256 * unit && unit in {1, 4, 16}
    ensures 0 <= pending / unit < 256 && pending / unit % 256 == pending / unit
  {
  }

  lemma TurnArithmetic(buffer: int, left: int, v: int, power: int, unit: int)
    requires 0 <= buffer < WORD && IsSextet(v)
    requires IsUnit(unit) && power == 4 * unit && Below(buffer, power) == left
    ensures var next := NextBuffer(buffer, v);
      && 0 <= next < WORD
      && ByteAt(next, unit) == ByteAt(left * 64 + v, unit)
      && Below(next, unit) == Below(left * 64 + v, unit)
  {
    BufferStep(buffer, power, v);
    ByteUnderMask(buffer * 64 % WORD + v, left * 64 + v, unit);
    ByteFits(left * 64 + v, unit);
  }

  lemma FirstTurn(buffer: int, v: int)
    requires 0 <= buffer < WORD && IsSextet(v)
    ensures 0 <= NextBuffer(buffer, v) < WORD && Below(NextBuffer(buffer, v), 64) == v
  {
    BufferStep(buffer, 1, v);
  }

  lemma QuantumStarts(seen: seq<int>, buffer: int, v: int)
    requires AreSextets(seen) && IsSextet(v) && 0 <= buffer < WORD && |seen| % 4 == 0
    ensures var next := NextBuffer(buffer, v);
      && 0 <= next < WORD
      && Bytes(seen + [v]) == Bytes(seen)
      && PendingBits(|seen|) == 0 && PendingBits(|seen| + 1) == 6
      && Below(next, PowerOfTwo(PendingBits(|seen| + 1))) == Leftover(seen + [v])
  {
    hide Bytes, PowerOfTwo, PendingBits, Leftover, NextBuffer, ByteAt, Below;
    BytesAppend(seen, v);
    LeftoverNext(seen, v);
    PowersMatch(|seen|);
    FirstTurn(buffer, v);
  }

  lemma ByteCompletes(seen: seq<int>, buffer: int, v: int)
    requires AreSextets(seen) && IsSextet(v) && 0 <= buffer < WORD && |seen| % 4 != 0
    requires Below(buffer, PowerOfTwo(PendingBits(|seen|))) == Leftover(seen)
    ensures var next := NextBuffer(buffer, v);
            var unit := PowerOfTwo(PendingBits(|seen| + 1));
      && 0 <= next < WORD
      && Bytes(seen + [v]) == Bytes(seen) + [ByteAt(next, unit)]
      && PendingBits(|seen|) >= 2 && PendingBits(|seen| + 1) == PendingBits(|seen|) - 2
      && Below(next, unit) == Leftover(seen + [v])
  {
    hide Bytes, PowerOfTwo, PendingBits, Leftover, Completed, NextBuffer, ByteAt, Below, IsUnit, AreSextets, AreBytes;
    var power, unit := PowerOfTwo(PendingBits(|seen|)), PowerOfTwo(PendingBits(|seen| + 1));
    PowersMatch(|seen|);
    TurnArithmetic(buffer, Leftover(seen), v, power, unit);
    BytesAppend(seen, v);
    CompletedFromBits(seen, v);
    LeftoverNext(seen, v);
  }

  /** One turn of the decoding loop: the byte it outputs, if any, and the bits it keeps. */
  lemma DecodeTurn(seen: seq<int>, buffer: int, v: int)
    requires AreSextets(seen) && IsSextet(v) && 0 <= buffer < WORD
    requires Below(buffer, PowerOfTwo(PendingBits(|seen|))) == Leftover(seen)
    ensures var next := NextBuffer(buffer, v);
            var bits := PendingBits(|seen|) + 6;
      && 0 <= next < WORD
      && AreSextets(seen + [v])
      && Bytes(seen + [v]) ==
         Bytes(seen) + (if bits >= 8 then [ByteAt(next, PowerOfTwo(bits - 8))] else [])
      && PendingBits(|seen| + 1) == (if bits >= 8 then bits - 8 else bits)
      && Below(next, PowerOfTwo(PendingBits(|seen| + 1))) == Leftover(seen + [v])
  {
    hide Bytes, PowerOfTwo, PendingBits, Leftover, NextBuffer, ByteAt, Below;
    if |seen| % 4 == 0 {
      QuantumStarts(seen, buffer, v);
    } else {
      ByteCompletes(seen, buffer, v);
    }
  }

  lemma StartOfDecoding()
    ensures PendingBits(0) == 0 && Bytes([]) == [] && Below(0, PowerOfTwo(0)) == Leftover([])
  {
  }

  method Decode(value: string) returns (result: Option<seq<int>>)
    ensures result == Decoded(value)
  {
    hide PowerOfTwo, PendingBits, Leftover, Bytes, NextBuffer, ByteAt, Below;
    var bytes := [];
    var buffer := 0;
    var bits := 0;
    StartOfDecoding();
    for index := 0 to |value|
      invariant InAlphabet(value[..index])
      invariant bytes == Bytes(Values(value[..index]))
      invariant bits == PendingBits(index)
      invariant 0 <= buffer < WORD
      invariant Below(buffer, PowerOfTwo(bits)) == Leftover(Values(value[..index]))
    {
      var decoded := Base64Value(value[index]);
      ghost var seen := Values(value[..index]);
      if decoded < 0 {
        assert value[index] in value;
        return None;
      }
      assert value[..index + 1] == value[..index] + [value[index]];
      assert Values(value[..index + 1]) == seen + [decoded];
      DecodeTurn(seen, buffer, decoded);
      buffer := NextBuffer(buffer, decoded);
      bits := bits + 6;
      if bits >= 8 {
        bits := bits - 8;
        bytes := bytes + [ByteAt(buffer, PowerOfTwo(bits))];
      }
    }
    assert value[..|value|] == value;
    return Some(bytes);
  }

  // ----- round trips

  lemma {:induction false} SextetsLength(b: seq<int>)
    requires AreBytes(b)
    ensures |Sextets(b)| == (4 * |b| + 2) / 3
    decreases |b|
  {
    if |b| >= 3 { SextetsLength(b[3..]); }
  }

  lemma JoinBytes(a: int, b: int, c: int)
    requires 0 <= a < 256 && 0 <= b < 256 && 0 <= c < 256
    ensures FirstByte(FirstSextet(a), SecondSextet(a, b)) == a
    ensures SecondByte(SecondSextet(a, b), ThirdSextet(b, c)) == b
    ensures ThirdByte(ThirdSextet(b, c), FourthSextet(c)) == c
  {
    QuotientOf(SecondSextet(a, b), 16, a % 4, b / 16);
    RemainderOf(SecondSextet(a, b), 16, a % 4, b / 16);
    QuotientOf(ThirdSextet(b, c), 4, b % 16, c / 64);
    RemainderOf(ThirdSextet(b, c), 4, b % 16, c / 64);
  }

  lemma FirstQuantum(b: seq<int>)
    requires AreBytes(b) && |b| >= 3
    ensures var v := Sextets(b);
      && v[4..] == Sextets(b[3..]) && |v| >= 4
      && v[0] == FirstSextet(b[0]) && v[1] == SecondSextet(b[0], b[1])
      && v[2] == ThirdSextet(b[1], b[2]) && v[3] == FourthSextet(b[2])
  {
    hide FirstByte, SecondByte, ThirdByte, FirstSextet, SecondSextet, ThirdSextet, FourthSextet;
  }

  lemma FirstBytes(v: seq<int>)
    requires AreSextets(v) && |v| >= 4
    ensures var b := Bytes(v);
      && |b| >= 3 && b[3..] == Bytes(v[4..])
      && b[0] == FirstByte(v[0], v[1]) && b[1] == SecondByte(v[1], v[2]) && b[2] == ThirdByte(v[2], v[3])
  {
    hide FirstByte, SecondByte, ThirdByte, FirstSextet, SecondSextet, ThirdSextet, FourthSextet;
  }

  lemma SameFrom(a: seq<int>, b: seq<int>, n: nat)
    requires |a| >= n && |b| >= n && a[n..] == b[n..] && forall i :: 0 <= i < n ==> a[i] == b[i]
    ensures a == b
  {
    assert a == a[..n] + a[n..] && b == b[..n] + b[n..];
  }

  lemma OneByte(a: int)
    requires 0 <= a < 256
    ensures Bytes(Sextets([a])) == [a]
  {
    hide FirstByte, SecondByte, ThirdByte, FirstSextet, SecondSextet, ThirdSextet, FourthSextet;
    JoinBytes(a, 0, 0);
    assert Sextets([a]) == [FirstSextet(a), SecondSextet(a, 0)];
  }

  lemma TwoBytes(a: int, b: int)
    requires 0 <= a < 256 && 0 <= b < 256
    ensures Bytes(Sextets([a, b])) == [a, b]
  {
    hide FirstByte, SecondByte, ThirdByte, FirstSextet, SecondSextet, ThirdSextet, FourthSextet;
    JoinBytes(a, b, 0);
  }

  lemma {:induction false} BytesOfSextets(b: seq<int>)
    requires AreBytes(b)
    ensures Bytes(Sextets(b)) == b
    decreases |b|
  {
    if b == [] {
    } else if |b| == 1 {
      assert b == [b[0]];
      OneByte(b[0]);
    } else if |b| == 2 {
      assert b == [b[0], b[1]];
      TwoBytes(b[0], b[1]);
    } else {
      FullBytes(b);
      BytesOfSextets(b[3..]);
      hide *;
      SameFrom(Bytes(Sextets(b)), b, 3);
    }
  }

  lemma FullBytes(b: seq<int>)
    requires AreBytes(b) && |b| >= 3
    ensures var c := Bytes(Sextets(b));
      && |c| >= 3 && c[3..] == Bytes(Sextets(b[3..])) && forall i :: 0 <= i < 3 ==> c[i] == b[i]
  {
    hide FirstByte, SecondByte, ThirdByte, FirstSextet, SecondSextet, ThirdSextet, FourthSextet, Bytes, Sextets;
    JoinBytes(b[0], b[1], b[2]);
    FirstQuantum(b);
    FirstBytes(Sextets(b));
  }

  lemma ValuesOfLetters(v: seq<int>)
    requires AreSextets(v)
    ensures InAlphabet(Letters(v)) && Values(Letters(v)) == v
  {
    forall i | 0 <= i < |v| ensures Base64Value(Letters(v)[i]) == v[i] { LetterHasValue(v[i]); }
  }

  /** Decoding what was encoded gives the bytes back, and the encoding has (4n + 2) / 3 letters. */
  lemma DecodeEncode(b: seq<int>)
    requires AreBytes(b)
    ensures Decoded(Encoded(b)) == Some(b)
    ensures |Encoded(b)| == (4 * |b| + 2) / 3
  {
    ValuesOfLetters(Sextets(b));
    BytesOfSextets(b);
    SextetsLength(b);
  }

  /** No lone letter at the end, and the unused bits of the last one are zero: section 3.5. */
  predicate CanonicalValues(v: seq<int>) {
    && |v| % 4 != 1
    && (|v| % 4 == 2 ==> v[|v| - 1] % 16 == 0)
    && (|v| % 4 == 3 ==> v[|v| - 1] % 4 == 0)
  }

  predicate Canonical(s: string) {
    InAlphabet(s) && CanonicalValues(Values(s))
  }

  lemma SplitSextets(h: int, i: int, j: int, k: int)
    requires IsSextet(h) && IsSextet(i) && IsSextet(j) && IsSextet(k)
    ensures FirstSextet(FirstByte(h, i)) == h
    ensures SecondSextet(FirstByte(h, i), SecondByte(i, j)) == i
    ensures ThirdSextet(SecondByte(i, j), ThirdByte(j, k)) == j
    ensures FourthSextet(ThirdByte(j, k)) == k
    ensures SecondSextet(FirstByte(h, i), 0) == i - i % 16
    ensures ThirdSextet(SecondByte(i, j), 0) == j - j % 4
  {
    QuotientOf(FirstByte(h, i), 4, h, i / 16);
    RemainderOf(FirstByte(h, i), 4, h, i / 16);
    QuotientOf(SecondByte(i, j), 16, i % 16, j / 4);
    RemainderOf(SecondByte(i, j), 16, i % 16, j / 4);
    QuotientOf(ThirdByte(j, k), 64, j % 4, k);
    RemainderOf(ThirdByte(j, k), 64, j % 4, k);
  }

  lemma QuantumAgain(v: seq<int>)
    requires AreSextets(v) && |v| >= 4
    ensures var w := Sextets(Bytes(v));
      && |w| >= 4 && w[4..] == Sextets(Bytes(v[4..])) && forall i :: 0 <= i < 4 ==> w[i] == v[i]
  {
    SplitSextets(v[0], v[1], v[2], v[3]);
    hide FirstByte, SecondByte, ThirdByte, FirstSextet, SecondSextet, ThirdSextet, FourthSextet, Bytes, Sextets;
    FirstBytes(v);
    FirstQuantum(Bytes(v));
  }

  lemma CanonicalTail(v: seq<int>)
    requires |v| >= 4
    ensures CanonicalValues(v) <==> CanonicalValues(v[4..])
  {
    assert |v[4..]| % 4 == |v| % 4;
  }

  lemma TwoAgain(h: int, i: int)
    requires IsSextet(h) && IsSextet(i)
    ensures Sextets(Bytes([h, i])) == [h, i] <==> i % 16 == 0
  {
    hide FirstByte, SecondByte, ThirdByte, FirstSextet, SecondSextet, ThirdSextet, FourthSextet;
    SplitSextets(h, i, 0, 0);
  }

  lemma ThreeAgain(h: int, i: int, j: int)
    requires IsSextet(h) && IsSextet(i) && IsSextet(j)
    ensures Sextets(Bytes([h, i, j])) == [h, i, j] <==> j % 4 == 0
  {
    hide FirstByte, SecondByte, ThirdByte, FirstSextet, SecondSextet, ThirdSextet, FourthSextet;
    SplitSextets(h, i, j, 0);
  }

  lemma {:induction false} SextetsOfBytes(v: seq<int>)
    requires AreSextets(v)
    ensures Sextets(Bytes(v)) == v <==> CanonicalValues(v)
    decreases |v|
  {
    if |v| <= 1 {
    } else if |v| == 2 {
      assert v == [v[0], v[1]];
      TwoAgain(v[0], v[1]);
    } else if |v| == 3 {
      assert v == [v[0], v[1], v[2]];
      ThreeAgain(v[0], v[1], v[2]);
    } else {
      QuantumAgain(v);
      CanonicalTail(v);
      SextetsOfBytes(v[4..]);
      var w, rest := Sextets(Bytes(v)), Sextets(Bytes(v[4..]));
      hide *;
      if rest == v[4..] { SameFrom(w, v, 4); }
      else { assert w[4..] != v[4..]; }
    }
  }

  lemma {:induction false} LettersOfValues(s: string)
    requires InAlphabet(s)
    ensures Letters(Values(s)) == s
  {
  }

  /** Encoding what was decoded gives the text back exactly for canonical texts. */
  lemma EncodeDecode(s: string)
    requires Decoded(s).Some?
    ensures Encoded(Decoded(s).value) == s <==> Canonical(s)
  {
    LettersOfValues(s);
    SextetsOfBytes(Values(s));
    ValuesOfLetters(Sextets(Bytes(Values(s))));
  }

  /** Exactly the texts over the alphabet decode; one letter more than a whole number of quanta is
      accepted, and lost. */
  lemma DecodeDomain(s: string)
    ensures Decoded(s).Some? <==> forall c <- s :: Base64Value(c) >= 0
    ensures Decoded(s).Some? ==> |Decoded(s).value| == |s| * 3 / 4
  {
    if InAlphabet(s) { BytesLength(Values(s)); }
  }

  lemma {:induction false} BytesLength(v: seq<int>)
    requires AreSextets(v)
    ensures |Bytes(v)| == |v| * 3 / 4
    decreases |v|
  {
    if |v| >= 4 { BytesLength(v[4..]); }
  }

  // ----- the code itself, bit by bit

  /** Table 2 of RFC 4648. */
  predicate Stands(c: char, v: int) {
    || ('A' <= c <= 'Z' && v == c as int - 65)
    || ('a' <= c <= 'z' && v == c as int - 71)
    || ('0' <= c <= '9' && v == c as int + 4)
    || (c == '-' && v == 62)
    || (c == '_' && v == 63)
  }

  /** A text decodes exactly when all its characters are in the alphabet. */
  lemma DecodesExactly(s: string)
    ensures Decoded(s).Some?
            <==> forall c <- s :: 'A' <= c <= 'Z' || 'a' <= c <= 'z' || '0' <= c <= '9' || c == '-' || c == '_'
  {
    hide Bytes, Values;
  }

  /** The items of a list and zeros after them. */
  function Padded(b: seq<int>, n: nat): int {
    if n < |b| then b[n] else 0
  }

  function BytesBlock(b: seq<int>, quantum: nat): int {
    Padded(b, 3 * quantum) * 65_536 + Padded(b, 3 * quantum + 1) * 256 + Padded(b, 3 * quantum + 2)
  }

  function SextetsBlock(v: seq<int>, quantum: nat): int {
    Padded(v, 4 * quantum) * 262_144 + Padded(v, 4 * quantum + 1) * 4_096
    + Padded(v, 4 * quantum + 2) * 64 + Padded(v, 4 * quantum + 3)
  }

  /** The i-th digit of a block written in the given number of digits to the base, the highest first. */
  function Digit(block: int, base: nat, digits: nat, i: nat): int
    requires base > 0 && i < digits
    decreases digits - i
  {
    if i == digits - 1 then block % base else Digit(block / base, base, digits - 1, i)
  }

  /** Each letter stands for six bits of its block of 24, the highest first, zeros beyond the last byte. */
  lemma EncodedLetter(b: seq<int>, i: nat)
    requires AreBytes(b) && i < |Encoded(b)|
    ensures Stands(Encoded(b)[i], Digit(BytesBlock(b, i / 4), 64, 4, i % 4))
  {
    hide Digit, BytesBlock, Sextets;
    SextetDigit(b, i);
  }

  lemma {:induction false} SextetDigit(b: seq<int>, i: nat)
    requires AreBytes(b) && i < |Sextets(b)|
    ensures Sextets(b)[i] == Digit(BytesBlock(b, i / 4), 64, 4, i % 4)
    decreases |b|
  {
    hide FirstSextet, SecondSextet, ThirdSextet, FourthSextet, Digit, BytesBlock;
    if i < 4 {
      FirstDigits(b);
    } else {
      SextetDigit(b[3..], i - 4);
      assert BytesBlock(b[3..], (i - 4) / 4) == BytesBlock(b, i / 4) by { LaterBlock(b, i / 4); }
    }
  }

  lemma LaterBlock(b: seq<int>, quantum: nat)
    requires |b| >= 3 && quantum > 0
    ensures BytesBlock(b[3..], quantum - 1) == BytesBlock(b, quantum)
  {
  }

  lemma FourDigits(block: int)
    ensures Digit(block, 64, 4, 0) == Masked(block, 0x4_0000) && Digit(block, 64, 4, 1) == Masked(block, 0x1000)
    ensures Digit(block, 64, 4, 2) == Masked(block, 64) && Digit(block, 64, 4, 3) == Masked(block, 1)
  {
    assert block / 64 / 64 == block / 0x1000;
    assert block / 64 / 64 / 64 == block / 0x4_0000;
  }

  lemma FirstDigits(b: seq<int>)
    requires AreBytes(b) && b != []
    ensures var block, v := BytesBlock(b, 0), Sextets(b);
      forall i :: 0 <= i < 4 && i < |v| ==> v[i] == Digit(block, 64, 4, i)
  {
    hide FirstSextet, SecondSextet, ThirdSextet, FourthSextet, Digit, Masked;
    var block := BytesBlock(b, 0);
    FourDigits(block);
    CutBytes(Padded(b, 0), Padded(b, 1), Padded(b, 2));
    assert block == Padded(b, 0) * 0x1_0000 + Padded(b, 1) * 0x100 + Padded(b, 2);
  }

  /** Decoding gives |s| * 3 / 4 bytes; each is eight bits of its block of four letters, the highest first. */
  lemma DecodedByte(s: string, v: seq<int>, n: nat)
    requires |v| == |s| && forall i :: 0 <= i < |s| ==> Stands(s[i], v[i])
    requires n < |s| * 3 / 4
    ensures Decoded(s).Some? && |Decoded(s).value| == |s| * 3 / 4
    ensures Decoded(s).value[n] == Digit(SextetsBlock(v, n / 3), 256, 3, n % 3)
  {
    hide Digit, SextetsBlock, Bytes;
    assert Values(s) == v;
    BytesLength(v);
    ByteDigit(v, n);
  }

  lemma {:induction false} ByteDigit(v: seq<int>, n: nat)
    requires AreSextets(v) && n < |Bytes(v)|
    ensures Bytes(v)[n] == Digit(SextetsBlock(v, n / 3), 256, 3, n % 3)
    decreases |v|
  {
    hide FirstByte, SecondByte, ThirdByte, Digit, SextetsBlock;
    if n < 3 {
      FirstByteDigits(v);
    } else {
      ByteDigit(v[4..], n - 3);
      assert SextetsBlock(v[4..], (n - 3) / 3) == SextetsBlock(v, n / 3) by { LaterSextets(v, n / 3); }
    }
  }

  lemma LaterSextets(v: seq<int>, quantum: nat)
    requires |v| >= 4 && quantum > 0
    ensures SextetsBlock(v[4..], quantum - 1) == SextetsBlock(v, quantum)
  {
  }

  lemma ThreeDigits(h: int, i: int, j: int, k: int)
    requires IsSextet(h) && IsSextet(i) && IsSextet(j) && IsSextet(k)
    ensures var block := h * 262_144 + i * 4_096 + j * 64 + k;
      && Digit(block, 256, 3, 0) == FirstByte(h, i) && Digit(block, 256, 3, 1) == SecondByte(i, j)
      && Digit(block, 256, 3, 2) == ThirdByte(j, k)
  {
    var block := h * 262_144 + i * 4_096 + j * 64 + k;
    var a, b, c := FirstByte(h, i), SecondByte(i, j), ThirdByte(j, k);
    assert block == 256 * (256 * a + b) + c;
    QuotientOf(block, 256, 256 * a + b, c);
    QuotientOf(256 * a + b, 256, a, b);
  }

  lemma FirstByteDigits(v: seq<int>)
    requires AreSextets(v) && |v| >= 2
    ensures var block, b := SextetsBlock(v, 0), Bytes(v);
      forall n :: 0 <= n < 3 && n < |b| ==> b[n] == Digit(block, 256, 3, n)
  {
    hide FirstByte, SecondByte, ThirdByte, Digit;
    ThreeDigits(Padded(v, 0), Padded(v, 1), Padded(v, 2), Padded(v, 3));
  }
}
