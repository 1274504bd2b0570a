/** Agent identifiers: eight big-endian timestamp bytes and ten random bytes in lower-case,
    unpadded base32 (section 6 of RFC 4648), after the prefix "agent_". */
module AgentId {
  import opened Strings
  import Uri

  // ------------------------------------------------------- positional notation

  function Pow(b: nat, n: nat): nat {
    if n == 0 then 1 else b * Pow(b, n - 1)
  }

  /** The number that a big-endian digit sequence denotes. */
  function Value(b: nat, ds: seq<nat>): nat {
    if ds == [] then 0 else Value(b, ds[..|ds| - 1]) * b + ds[|ds| - 1]
  }

  /** The last n digits of v, big-endian; for a negative v, of its two's complement. */
  function Digits(b: nat, n: nat, v: int): (ds: seq<nat>)
    requires b > 0
    ensures |ds| == n && forall i | 0 <= i < n :: ds[i] < b
  {
    if n == 0 then [] else Digits(b, n - 1, v / b) + [v % b]
  }

  ghost predicate Below(b: nat, ds: seq<nat>) { forall i | 0 <= i < |ds| :: ds[i] < b }

  lemma MulLe(x: nat, y: nat, z: nat)
    requires x <= y
    ensures x * z <= y * z
  {
  }

  lemma MulAssoc(x: int, y: int, z: int)
    ensures x * (y * z) == (x * y) * z
  {
  }

  lemma MulAdd(x: int, y: int, z: int)
    ensures (x + y) * z == x * z + y * z
  {
  }

  lemma Quotient(v: nat, b: nat)
    requires b > 0
    ensures v == (v / b) * b + v % b
  {
  }

  lemma DivLess(v: nat, b: nat, p: nat)
    requires b > 0 && v < b * p
    ensures v / b < p
  {
  }

  lemma DivMod(b: nat, q: nat, r: nat)
    requires r < b
    ensures (q * b + r) / b == q && (q * b + r) % b == r
  {
    var x := q * b + r;
    var k := x / b;
    assert x == k * b + x % b;
    if k > q { MulLe(q + 1, k, b); MulAdd(q, 1, b); }
    if k < q { MulLe(k + 1, q, b); MulAdd(k, 1, b); }
  }

  lemma {:induction false} PowAdd(b: nat, m: nat, n: nat)
    ensures Pow(b, m + n) == Pow(b, m) * Pow(b, n)
  {
    if m > 0 {
      PowAdd(b, m - 1, n);
      MulAssoc(b, Pow(b, m - 1), Pow(b, n));
    }
  }

  lemma {:induction false} ValueConcat(b: nat, x: seq<nat>, y: seq<nat>)
    ensures Value(b, x + y) == Value(b, x) * Pow(b, |y|) + Value(b, y)
  {
    if y == [] {
      assert x + y == x;
    } else {
      var n := |y| - 1;
      assert (x + y)[..|x + y| - 1] == x + y[..n];
      ValueConcat(b, x, y[..n]);
      MulAdd(Value(b, x) * Pow(b, n), Value(b, y[..n]), b);
      MulAssoc(Value(b, x), Pow(b, n), b);
    }
  }

  lemma {:induction false} ValueBound(b: nat, ds: seq<nat>)
    requires b > 0 && Below(b, ds)
    ensures Value(b, ds) < Pow(b, |ds|)
  {
    if ds != [] {
      var n := |ds| - 1;
      ValueBound(b, ds[..n]);
      MulLe(Value(b, ds[..n]) + 1, Pow(b, n), b);
      MulAdd(Value(b, ds[..n]), 1, b);
    }
  }

  lemma {:induction false} ValueOfDigits(b: nat, n: nat, v: nat)
    requires b > 0 && v < Pow(b, n)
    ensures Value(b, Digits(b, n, v)) == v
  {
    if n > 0 {
      DivLess(v, b, Pow(b, n - 1));
      Quotient(v, b);
      ValueOfDigits(b, n - 1, v / b);
      assert Digits(b, n, v)[..n - 1] == Digits(b, n - 1, v / b);
    }
  }

  lemma {:induction false} DigitsOfValue(b: nat, ds: seq<nat>)
    requires b > 0 && Below(b, ds)
    ensures Digits(b, |ds|, Value(b, ds)) == ds
  {
    if ds != [] {
      var n := |ds| - 1;
      DivMod(b, Value(b, ds[..n]), ds[n]);
      DigitsOfValue(b, ds[..n]);
    }
  }

  /** x comes before y at the first place where they differ. */
  predicate LexLess(x: seq<nat>, y: seq<nat>) {
    exists k | 0 <= k < |x| && k < |y| :: DiffersAt(x, y, k)
  }

  predicate DiffersAt(x: seq<nat>, y: seq<nat>, k: nat)
    requires k < |x| && k < |y|
  {
    x[k] < y[k] && forall j | 0 <= j < k :: x[j] == y[j]
  }

  lemma LeadingValues(p: nat, u: nat, q: nat, v: nat, b: nat)
    requires u < b && v < b && p >= q && p * b + u < q * b + v
    ensures p == q && u < v
  {
    if p > q {
      MulLe(q + 1, p, b);
      MulAdd(q, 1, b);
    }
  }

  lemma LastDiffers(x: seq<nat>, y: seq<nat>)
    requires |x| == |y| > 0 && x[..|x| - 1] == y[..|x| - 1] && x[|x| - 1] < y[|x| - 1]
    ensures DiffersAt(x, y, |x| - 1)
  {
    var n := |x| - 1;
    forall j | 0 <= j < n ensures x[j] == y[j] { assert x[j] == x[..n][j] == y[..n][j]; }
  }

  /** For equally long digit sequences the smaller number comes first. */
  lemma {:induction false} ValueOrder(b: nat, x: seq<nat>, y: seq<nat>)
    requires b > 0 && |x| == |y| && Below(b, x) && Below(b, y) && Value(b, x) < Value(b, y)
    ensures LexLess(x, y)
  {
    if x != [] {
      var n := |x| - 1;
      var p, q := Value(b, x[..n]), Value(b, y[..n]);
      if p < q {
        ValueOrder(b, x[..n], y[..n]);
        var k :| 0 <= k < n && DiffersAt(x[..n], y[..n], k);
        assert DiffersAt(x, y, k);
      } else {
        LeadingValues(p, x[n], q, y[n], b);
        DigitsOfValue(b, x[..n]);
        DigitsOfValue(b, y[..n]);
        LastDiffers(x, y);
      }
    }
  }

  // ------------------------------------------------------- base32

  /** Quintets needed for a final group of r bytes. */
  function GroupLen(r: nat): nat {
    if r == 0 then 0 else if r == 1 then 2 else if r == 2 then 4 else if r == 3 then 5 else 7
  }

  /** The factor that shifts a final group of r bytes to the left edge of its quintets. */
  function GroupPad(r: nat): (f: nat)
    ensures f > 0
  {
    if r == 0 then 1 else if r == 1 then 4 else if r == 2 then 16 else if r == 3 then 2 else 8
  }

  /** Bytes in a final group of n quintets. */
  function GroupBytes(n: nat): Option<nat> {
    if n == 0 then Some(0) else if n == 2 then Some(1) else if n == 4 then Some(2)
    else if n == 5 then Some(3) else if n == 7 then Some(4) else None
  }

  function EncodedLen(m: nat): nat { if m >= 5 then 8 + EncodedLen(m - 5) else GroupLen(m) }

  function Padding(m: nat): nat { if m >= 5 then Padding(m - 5) else GroupPad(m) }

  /** Five bytes become eight quintets; a shorter last group is padded with zero bits. */
  function Encode(bytes: seq<nat>): (qs: seq<nat>)
    ensures Below(32, qs) && |qs| == EncodedLen(|bytes|)
  {
    if |bytes| >= 5 then Digits(32, 8, Value(256, bytes[..5])) + Encode(bytes[5..])
    else Digits(32, GroupLen(|bytes|), Value(256, bytes) * GroupPad(|bytes|))
  }

  function Decode(qs: seq<nat>): Option<seq<nat>> {
    if |qs| >= 8 then
      var rest := Decode(qs[8..]);
      if rest.None? then None else Some(Digits(256, 5, Value(32, qs[..8])) + rest.value)
    else
      var r := GroupBytes(|qs|);
      if r.None? then None else Some(Digits(256, r.value, Value(32, qs) / GroupPad(r.value)))
  }

  lemma GroupFits(bytes: seq<nat>)
    requires |bytes| < 5 && Below(256, bytes)
    ensures Value(256, bytes) * GroupPad(|bytes|) < Pow(32, GroupLen(|bytes|))
  {
    ValueBound(256, bytes);
    assert Pow(256, 0) == 1 && Pow(256, 1) == 0x100 && Pow(256, 2) == 0x1_0000;
    assert Pow(256, 3) == 0x100_0000 && Pow(256, 4) == 0x1_0000_0000;
    assert Pow(32, 0) == 1 && Pow(32, 2) == 0x400 && Pow(32, 4) == 0x10_0000;
    assert Pow(32, 5) == 0x200_0000 && Pow(32, 7) == 0x8_0000_0000;
  }

  lemma FullGroupFits(bytes: seq<nat>)
    requires |bytes| == 5 && Below(256, bytes)
    ensures Value(256, bytes) < Pow(32, 8)
  {
    ValueBound(256, bytes);
    assert Pow(256, 5) == 0x100_0000_0000 == Pow(32, 8);
  }

  lemma ShiftBack(n: nat, v: nat, f: nat)
    requires f > 0 && v * f < Pow(32, n)
    ensures Value(32, Digits(32, n, v * f)) / f == v
  {
    ValueOfDigits(32, n, v * f);
    DivMod(f, v, 0);
  }

  lemma DecodeShort(qs: seq<nat>, r: nat)
    requires r < 5 && |qs| == GroupLen(r)
    ensures Decode(qs) == Some(Digits(256, r, Value(32, qs) / GroupPad(r)))
  {
  }

  lemma DecodeShortGroup(bytes: seq<nat>)
    requires |bytes| < 5 && Below(256, bytes)
    ensures Decode(Encode(bytes)) == Some(bytes)
  {
    GroupFits(bytes);
    ShiftBack(GroupLen(|bytes|), Value(256, bytes), GroupPad(|bytes|));
    DecodeShort(Encode(bytes), |bytes|);
    DigitsOfValue(256, bytes);
  }

  lemma EncodeCons(head: seq<nat>, tail: seq<nat>)
    requires |head| == 5
    ensures Encode(head + tail) == Digits(32, 8, Value(256, head)) + Encode(tail)
  {
  }

  lemma DecodeCons(head: seq<nat>, tail: seq<nat>)
    requires |head| == 8 && Decode(tail).Some?
    ensures Decode(head + tail) == Some(Digits(256, 5, Value(32, head)) + Decode(tail).value)
  {
  }

  lemma DecodeFullGroup(head: seq<nat>)
    requires |head| == 5 && Below(256, head)
    ensures Digits(256, 5, Value(32, Digits(32, 8, Value(256, head)))) == head
  {
    FullGroupFits(head);
    ValueOfDigits(32, 8, Value(256, head));
    DigitsOfValue(256, head);
  }

  /** Decoding returns the encoded bytes, for every byte sequence. */
  lemma {:induction false} DecodeEncode(bytes: seq<nat>)
    requires Below(256, bytes)
    ensures Decode(Encode(bytes)) == Some(bytes)
  {
    if |bytes| >= 5 {
      var head, tail := bytes[..5], bytes[5..];
      DecodeEncode(tail);
      DecodeFullGroup(head);
      EncodeCons(head, tail);
      DecodeCons(Digits(32, 8, Value(256, head)), Encode(tail));
      assert bytes == head + tail;
    } else {
      DecodeShortGroup(bytes);
    }
  }

  lemma ShortGroupPow(m: nat)
    requires m < 5
    ensures Pow(32, GroupLen(m)) == Pow(256, m) * GroupPad(m)
  {
  }

  lemma {:induction false} GroupPow(m: nat)
    ensures Pow(32, EncodedLen(m)) == Pow(256, m) * Padding(m)
  {
    if m >= 5 {
      GroupPow(m - 5);
      PowAdd(32, 8, EncodedLen(m - 5));
      PowAdd(256, 5, m - 5);
      assert Pow(256, 5) == 0x100_0000_0000 == Pow(32, 8);
      MulAssoc(Pow(256, 5), Pow(256, m - 5), Padding(m - 5));
    } else {
      ShortGroupPow(m);
    }
  }

  lemma Distribute(v: nat, p: nat, f: nat, w: nat)
    ensures v * (p * f) + w * f == (v * p + w) * f
  {
  }

  lemma EncodeValueCons(head: seq<nat>, tail: seq<nat>)
    requires |head| == 5 && Below(256, head)
    ensures Value(32, Encode(head + tail)) == Value(256, head) * Pow(32, EncodedLen(|tail|)) + Value(32, Encode(tail))
  {
    EncodeCons(head, tail);
    FullGroupFits(head);
    ValueOfDigits(32, 8, Value(256, head));
    ValueConcat(32, Digits(32, 8, Value(256, head)), Encode(tail));
  }

  lemma EncodeValueStep(head: seq<nat>, tail: seq<nat>)
    requires |head| == 5 && Below(256, head)
    requires Value(32, Encode(tail)) == Value(256, tail) * Padding(|tail|)
    ensures Value(32, Encode(head + tail)) == Value(256, head + tail) * Padding(|tail|)
  {
    var v, w, p, f := Value(256, head), Value(256, tail), Pow(256, |tail|), Padding(|tail|);
    calc {
      Value(32, Encode(head + tail));
      { EncodeValueCons(head, tail); }
      v * Pow(32, EncodedLen(|tail|)) + w * f;
      { GroupPow(|tail|); }
      v * (p * f) + w * f;
      { Distribute(v, p, f, w); }
      (v * p + w) * f;
      { ValueConcat(256, head, tail); }
      Value(256, head + tail) * f;
    }
  }

  /** Group by group, the encoding writes the whole input as one number in base 32. */
  lemma {:induction false} EncodeValue(bytes: seq<nat>)
    requires Below(256, bytes)
    ensures Value(32, Encode(bytes)) == Value(256, bytes) * Padding(|bytes|)
  {
    if |bytes| >= 5 {
      EncodeValue(bytes[5..]);
      EncodeValueStep(bytes[..5], bytes[5..]);
      assert bytes == bytes[..5] + bytes[5..];
    } else {
      GroupFits(bytes);
      ValueOfDigits(32, GroupLen(|bytes|), Value(256, bytes) * GroupPad(|bytes|));
    }
  }

  // ------------------------------------------------------- identifiers

  /** The base32 alphabet, lower-cased: a to z, then 2 to 7. */
  function Letter(q: nat): char
    requires q < 32
  {
    if q < 26 then ('a' as int + q) as char else ('2' as int + q - 26) as char
  }

  /** Place of a character in the alphabet. */
  function Rank(c: char): nat {
    if 'a' <= c <= 'z' then c as int - 'a' as int else if '2' <= c <= '7' then c as int - '2' as int + 26 else 32
  }

  function Text(qs: seq<nat>): string
    requires Below(32, qs)
  {
    seq(|qs|, i requires 0 <= i < |qs| => Letter(qs[i]))
  }

  function Ranks(s: string): seq<nat> { seq(|s|, i requires 0 <= i < |s| => Rank(s[i])) }

  /** Test vectors of section 10 of RFC 4648, in lower case and without padding: the encodings of
      "fooba" and of "foobar". */
  lemma TestVectors()
    ensures var fooba := [102, 111, 111, 98, 97];
            Text(Encode(fooba)) == "mzxw6ytb" && Text(Encode(fooba + [114])) == "mzxw6ytboi"
  {
    var fooba := [102, 111, 111, 98, 97];
    FirstGroup();
    LastGroup();
    EncodeCons(fooba, []);
    EncodeCons(fooba, [114]);
    assert fooba + [] == fooba && Encode([]) == [];
    var qs := Encode(fooba);
    assert Text(qs) == "mzxw6ytb";
    assert Encode(fooba + [114]) == qs + [14, 8];
    assert Text(qs + [14, 8]) == Text(qs) + "oi";
  }

  lemma FirstGroup()
    ensures Digits(32, 8, Value(256, [102, 111, 111, 98, 97])) == [12, 25, 23, 22, 30, 24, 19, 1]
  {
    var x := [102, 111, 111, 98, 97];
    assert x[..4] == [102, 111, 111, 98] && x[..4][..3] == [102, 111, 111];
    assert x[..4][..3][..2] == [102, 111] && x[..4][..3][..2][..1] == [102] && [102][..0] == [];
    assert Value(256, [102]) == 102;
    assert Value(256, [102, 111]) == 26223;
    assert Value(256, [102, 111, 111]) == 6713199;
    assert Value(256, [102, 111, 111, 98]) == 1718579042;
    assert Value(256, x) == 439956234849;
    assert Digits(32, 1, 12) == [12] && Digits(32, 2, 409) == [12, 25];
    assert Digits(32, 3, 13111) == [12, 25, 23] && Digits(32, 4, 419574) == [12, 25, 23, 22];
    assert Digits(32, 5, 13426398) == [12, 25, 23, 22, 30] && Digits(32, 6, 429644760) == [12, 25, 23, 22, 30, 24];
    assert Digits(32, 7, 13748632339) == [12, 25, 23, 22, 30, 24, 19];
  }

  lemma LastGroup()
    ensures Encode([114]) == [14, 8]
  {
    assert [114][..0] == [] && Value(256, [114]) == 114;
    assert Encode([114]) == Digits(32, 2, 114 * 4);
    assert Digits(32, 0, 0) == [] && Digits(32, 1, 14) == [] + [14] && Digits(32, 2, 456) == [14] + [8];
  }

  /** An identifier from a millisecond timestamp and ten random bytes. */
  function AgentID(ts: nat, random: seq<nat>): string {
    "agent_" + Text(Encode(Digits(256, 8, ts) + random))
  }

  ghost predicate RandomBytes(random: seq<nat>) { |random| == 10 && Below(256, random) }

  /** The bytes an identifier stands for. */
  function DecodeID(id: string): Option<seq<nat>> {
    if "agent_" <= id then Decode(Ranks(id[6..])) else None
  }

  lemma RanksOfText(qs: seq<nat>)
    requires Below(32, qs)
    ensures Ranks(Text(qs)) == qs
  {
  }

  /** Twenty-nine characters after the prefix, which decode to the eighteen bytes. */
  lemma IDRoundTrip(ts: nat, random: seq<nat>)
    requires RandomBytes(random)
    ensures |AgentID(ts, random)| == 35 && AgentID(ts, random)[..6] == "agent_"
    ensures forall i | 6 <= i < 35 :: 'a' <= AgentID(ts, random)[i] <= 'z' || '2' <= AgentID(ts, random)[i] <= '7'
    ensures DecodeID(AgentID(ts, random)) == Some(Digits(256, 8, ts) + random)
  {
    var bytes := Digits(256, 8, ts) + random;
    var id := AgentID(ts, random);
    assert id[6..] == Text(Encode(bytes));
    RanksOfText(Encode(bytes));
    DecodeEncode(bytes);
  }

  const MAX_TS: nat := 0x8000_0000_0000_0000

  lemma TimestampFits(ts: nat)
    requires ts < MAX_TS
    ensures Value(256, Digits(256, 8, ts)) == ts
  {
    assert Pow(256, 8) == 0x1_0000_0000_0000_0000;
    ValueOfDigits(256, 8, ts);
  }

  /** Different timestamps or different random bytes give different identifiers. */
  lemma IDInjective(ts1: nat, random1: seq<nat>, ts2: nat, random2: seq<nat>)
    requires ts1 < MAX_TS && ts2 < MAX_TS && RandomBytes(random1) && RandomBytes(random2)
    requires AgentID(ts1, random1) == AgentID(ts2, random2)
    ensures ts1 == ts2 && random1 == random2
  {
    IDRoundTrip(ts1, random1);
    IDRoundTrip(ts2, random2);
    var x, y := Digits(256, 8, ts1) + random1, Digits(256, 8, ts2) + random2;
    assert x[..8] == Digits(256, 8, ts1) && y[..8] == Digits(256, 8, ts2);
    assert x[8..] == random1 && y[8..] == random2;
    TimestampFits(ts1);
    TimestampFits(ts2);
  }

  lemma LaterBytes(ts1: nat, random1: seq<nat>, ts2: nat, random2: seq<nat>)
    requires ts1 < ts2 < MAX_TS && RandomBytes(random1) && RandomBytes(random2)
    ensures Value(256, Digits(256, 8, ts1) + random1) < Value(256, Digits(256, 8, ts2) + random2)
  {
    ValueConcat(256, Digits(256, 8, ts1), random1);
    ValueConcat(256, Digits(256, 8, ts2), random2);
    TimestampFits(ts1);
    TimestampFits(ts2);
    ValueBound(256, random1);
    MulLe(ts1 + 1, ts2, Pow(256, 10));
    MulAdd(ts1, 1, Pow(256, 10));
  }

  lemma EncodeEighteen(bytes: seq<nat>)
    requires |bytes| == 18 && Below(256, bytes)
    ensures |Encode(bytes)| == 29 && Value(32, Encode(bytes)) == Value(256, bytes) * 2
  {
    EncodeValue(bytes);
    assert Padding(18) == 2;
  }

  /** Eighteen bytes with a larger value get a later encoding. */
  lemma EncodeOrder(x: seq<nat>, y: seq<nat>)
    requires |x| == |y| == 18 && Below(256, x) && Below(256, y) && Value(256, x) < Value(256, y)
    ensures LexLess(Encode(x), Encode(y))
  {
    EncodeEighteen(x);
    EncodeEighteen(y);
    ValueOrder(32, Encode(x), Encode(y));
  }

  lemma IDRanks(ts: nat, random: seq<nat>)
    requires RandomBytes(random)
    ensures var bytes := Digits(256, 8, ts) + random;
            Below(256, bytes) && Ranks(AgentID(ts, random)[6..]) == Encode(bytes)
  {
  }

  /** A later timestamp gives a later identifier in alphabet order, whatever the random
      bytes are. */
  lemma LaterIDIsGreater(ts1: nat, random1: seq<nat>, ts2: nat, random2: seq<nat>)
    requires ts1 < ts2 < MAX_TS && RandomBytes(random1) && RandomBytes(random2)
    ensures LexLess(Ranks(AgentID(ts1, random1)[6..]), Ranks(AgentID(ts2, random2)[6..]))
  {
    LaterBytes(ts1, random1, ts2, random2);
    IDRanks(ts1, random1);
    IDRanks(ts2, random2);
    EncodeOrder(Digits(256, 8, ts1) + random1, Digits(256, 8, ts2) + random2);
  }

  /** Every identifier is accepted by the URI parser and passes through it unchanged. */
  lemma IDIsClean(ts: nat, random: seq<nat>)
    requires RandomBytes(random)
    ensures Uri.CleanID(AgentID(ts, random))
  {
  }

  // ------------------------------------------------------- order as ASCII text

  lemma DivDiv(v: nat, b: nat, p: nat)
    requires b > 0 && p > 0
    ensures b * p > 0 && v / b / p == v / (b * p)
  {
    var q := v / b / p;
    var r := v / b % p;
    Quotient(v, b);
    Quotient(v / b, p);
    MulAdd(q * p, r, b);
    MulAssoc(q, p, b);
    MulLe(r + 1, p, b);
    MulAdd(r, 1, b);
    assert v == q * (p * b) + (r * b + v % b);
    DivMod(p * b, q, r * b + v % b);
  }

  lemma {:induction false} PowPositive(b: nat, n: nat)
    requires b > 0
    ensures Pow(b, n) > 0
  {
    if n > 0 {
      PowPositive(b, n - 1);
      MulLe(1, b, Pow(b, n - 1));
    }
  }

  /** The leading digits of a number are the digits of a quotient. */
  lemma {:induction false} DigitsPrefix(b: nat, n: nat, m: nat, v: nat)
    requires b > 0
    ensures Pow(b, m) > 0 && Digits(b, n + m, v)[..n] == Digits(b, n, v / Pow(b, m))
  {
    PowPositive(b, m);
    if m > 0 {
      DigitsPrefix(b, n, m - 1, v / b);
      DivDiv(v, b, Pow(b, m - 1));
      assert Digits(b, n + m, v)[..n] == Digits(b, n + m - 1, v / b)[..n];
    }
  }

  /** The sixty-five bits at the front of an identifier: the timestamp and one random bit. */
  function TimeQuintets(ts: nat): seq<nat> { Digits(32, 13, 2 * ts) }

  lemma FrontQuotient(ts: nat, low: nat, v: nat) returns (bit: nat)
    requires low < Pow(256, 10) && v == (ts * Pow(256, 10) + low) * 2
    ensures Pow(32, 16) > 0 && bit < 2 && v / Pow(32, 16) == 2 * ts + bit
  {
    var p := Pow(256, 10);
    assert p == 0x1_0000_0000_0000_0000_0000;
    PowAdd(32, 8, 8);
    assert Pow(32, 8) == 0x100_0000_0000;
    assert Pow(32, 16) == p;
    bit := if 2 * low < p then 0 else 1;
  }

  lemma ValueOfBytes(ts: nat, random: seq<nat>)
    requires ts < MAX_TS && RandomBytes(random)
    ensures Value(256, Digits(256, 8, ts) + random) == ts * Pow(256, 10) + Value(256, random)
  {
    ValueConcat(256, Digits(256, 8, ts), random);
    TimestampFits(ts);
  }

  /** Thirteen quintets of an identifier are those of its timestamp, up to the random bit at
      the end of the last one. */
  lemma FrontOfEncoding(ts: nat, random: seq<nat>) returns (bit: nat)
    requires ts < MAX_TS && RandomBytes(random)
    ensures bit < 2 && |Encode(Digits(256, 8, ts) + random)| == 29
    ensures Encode(Digits(256, 8, ts) + random)[..13] == Digits(32, 13, 2 * ts + bit)
  {
    var qs := Encode(Digits(256, 8, ts) + random);
    var v := Value(32, qs);
    EncodeEighteen(Digits(256, 8, ts) + random);
    ValueOfBytes(ts, random);
    ValueBound(256, random);
    DigitsOfValue(32, qs);
    DigitsPrefix(32, 13, 16, v);
    bit := FrontQuotient(ts, Value(256, random), v);
  }

  lemma LastBit(ts: nat, bit: nat)
    requires bit < 2
    ensures var (d, e) := (TimeQuintets(ts), Digits(32, 13, 2 * ts + bit));
            e[..12] == d[..12] && d[12] % 2 == 0 && e[12] == d[12] + bit
  {
    assert (2 * ts + bit) / 32 == 2 * ts / 32;
  }

  /** s comes before t in the order of ASCII text. */
  predicate TextLess(s: string, t: string) {
    exists k | 0 <= k < |s| && k < |t| :: TextDiffersAt(s, t, k)
  }

  predicate TextDiffersAt(s: string, t: string, k: nat)
    requires k < |s| && k < |t|
  {
    s[k] < t[k] && forall j | 0 <= j < k :: s[j] == t[j]
  }

  /** At the first quintet where two timestamps differ, the earlier one has a letter and the
      later one a digit. */
  predicate LetterThenDigit(ts1: nat, ts2: nat) {
    var (d, e) := (TimeQuintets(ts1), TimeQuintets(ts2));
    exists k | 0 <= k < 13 :: DiffersAt(d, e, k) && d[k] < 26 <= e[k]
  }

  lemma TimeQuintetsOrder(ts1: nat, ts2: nat) returns (k: nat)
    requires ts1 < ts2 < MAX_TS
    ensures k < 13 && DiffersAt(TimeQuintets(ts1), TimeQuintets(ts2), k)
  {
    assert Pow(32, 13) == 0x2_0000_0000_0000_0000;
    ValueOfDigits(32, 13, 2 * ts1);
    ValueOfDigits(32, 13, 2 * ts2);
    ValueOrder(32, TimeQuintets(ts1), TimeQuintets(ts2));
    k :| 0 <= k < 13 && DiffersAt(TimeQuintets(ts1), TimeQuintets(ts2), k);
  }

  /** Two texts are in the order of their first difference. */
  lemma FirstDifference(s: string, t: string, k: nat)
    requires k < |s| && k < |t| && s[k] != t[k] && forall j | 0 <= j < k :: s[j] == t[j]
    ensures TextLess(s, t) <==> s[k] < t[k]
  {
    if s[k] < t[k] { assert TextDiffersAt(s, t, k); }
  }

  /** The quintets of two identifiers first differ where those of their timestamps do, on the
      same sides of the digits. */
  lemma EncodingsDiffer(ts1: nat, random1: seq<nat>, ts2: nat, random2: seq<nat>, k: nat)
    requires ts1 < MAX_TS && ts2 < MAX_TS && RandomBytes(random1) && RandomBytes(random2)
    requires k < 13 && DiffersAt(TimeQuintets(ts1), TimeQuintets(ts2), k)
    ensures var (x, y) := (Encode(Digits(256, 8, ts1) + random1), Encode(Digits(256, 8, ts2) + random2));
            && |x| == |y| == 29 && DiffersAt(x, y, k)
            && (x[k] < 26 <==> TimeQuintets(ts1)[k] < 26) && (y[k] < 26 <==> TimeQuintets(ts2)[k] < 26)
  {
    var a := FrontOfEncoding(ts1, random1);
    var b := FrontOfEncoding(ts2, random2);
    LastBit(ts1, a);
    LastBit(ts2, b);
    var (x, y) := (Encode(Digits(256, 8, ts1) + random1), Encode(Digits(256, 8, ts2) + random2));
    QuintetsDiffer(TimeQuintets(ts1), TimeQuintets(ts2), x[..13], y[..13], k);
    PrefixesDiffer(x, y, 13, k);
  }

  lemma PrefixesDiffer(x: seq<nat>, y: seq<nat>, n: nat, k: nat)
    requires k < n <= |x| && n <= |y| && DiffersAt(x[..n], y[..n], k)
    ensures DiffersAt(x, y, k) && x[k] == x[..n][k] && y[k] == y[..n][k]
  {
    assert forall j | 0 <= j < k :: x[j] == x[..n][j] && y[j] == y[..n][j];
  }

  lemma QuintetsDiffer(d: seq<nat>, e: seq<nat>, x: seq<nat>, y: seq<nat>, k: nat)
    requires |d| == |e| == |x| == |y| == 13 && k < 13 && DiffersAt(d, e, k)
    requires d[..12] == x[..12] && e[..12] == y[..12] && d[12] % 2 == e[12] % 2 == 0
    requires d[12] <= x[12] <= d[12] + 1 && e[12] <= y[12] <= e[12] + 1
    ensures DiffersAt(x, y, k) && (x[k] < 26 <==> d[k] < 26) && (y[k] < 26 <==> e[k] < 26)
  {
    assert forall j | 0 <= j < 12 :: x[j] == d[..12][j] && y[j] == e[..12][j];
  }

  /** The exact condition: a later identifier is later as ASCII text too, unless at the first
      difference of the two timestamps the alphabet passes from letters to digits. */
  lemma AsciiOrderIff(ts1: nat, random1: seq<nat>, ts2: nat, random2: seq<nat>)
    requires ts1 < ts2 < MAX_TS && RandomBytes(random1) && RandomBytes(random2)
    ensures TextLess(AgentID(ts1, random1), AgentID(ts2, random2)) <==> !LetterThenDigit(ts1, ts2)
    ensures TextLess(AgentID(ts2, random2), AgentID(ts1, random1)) <==> LetterThenDigit(ts1, ts2)
  {
    var k := TimeQuintetsOrder(ts1, ts2);
    EncodingsDiffer(ts1, random1, ts2, random2, k);
    var (x, y) := (Encode(Digits(256, 8, ts1) + random1), Encode(Digits(256, 8, ts2) + random2));
    var (s, t) := (AgentID(ts1, random1), AgentID(ts2, random2));
    assert s[k + 6] == Letter(x[k]) && t[k + 6] == Letter(y[k]);
    forall j | 0 <= j < k + 6 ensures s[j] == t[j] {
      if j >= 6 { assert x[j - 6] == y[j - 6]; }
    }
    FirstDifference(s, t, k + 6);
    FirstDifference(t, s, k + 6);
    var (d, e) := (TimeQuintets(ts1), TimeQuintets(ts2));
    assert forall i | 0 <= i < 13 :: DiffersAt(d, e, i) ==> i == k;
  }

  /** It happens twice a second: whenever the twelfth character is 'z', the identifier made 16
      milliseconds later comes earlier as ASCII text. */
  lemma AsciiOrderDiffers(ts: nat, random1: seq<nat>, random2: seq<nat>)
    requires ts + 16 < MAX_TS && ts / 16 % 32 == 25 && RandomBytes(random1) && RandomBytes(random2)
    ensures TextLess(AgentID(ts + 16, random2), AgentID(ts, random1))
  {
    var (d, e) := (TimeQuintets(ts), TimeQuintets(ts + 16));
    TwelfthQuintet(ts);
    TwelfthQuintet(ts + 16);
    SixteenLater(ts);
    assert DiffersAt(d, e, 11);
    AsciiOrderIff(ts, random1, ts + 16, random2);
  }

  lemma SixteenLater(ts: nat)
    requires ts / 16 % 32 == 25
    ensures (ts + 16) / 16 % 32 == 26 && (ts + 16) / 16 / 32 == ts / 16 / 32
  {
    assert (ts + 16) / 16 == ts / 16 + 1;
  }

  lemma TwelfthQuintet(ts: nat)
    ensures var (d, front) := (TimeQuintets(ts), Digits(32, 11, ts / 16 / 32));
            d[11] == ts / 16 % 32 && forall j | 0 <= j < 11 :: d[j] == front[j]
  {
    assert 2 * ts / 32 == ts / 16;
    var twelve := Digits(32, 12, ts / 16);
    assert TimeQuintets(ts) == twelve + [2 * ts % 32];
    assert twelve == Digits(32, 11, ts / 16 / 32) + [ts / 16 % 32];
  }

  // ------------------------------------------------------- the byte loop

  /** The byte loop: fills an eight-byte buffer from the low end, shifting the timestamp
      right by one byte each time round, and leaves it big-endian. */
  method TimestampBytes(unixMilli: int) returns (buf: array<nat>)
    requires -(MAX_TS as int) <= unixMilli < MAX_TS
    ensures fresh(buf) && buf[..] == Digits(256, 8, unixMilli)
    ensures unixMilli >= 0 ==> Value(256, buf[..]) == unixMilli
  {
    buf := new nat[8];
    var ts := unixMilli;
    var i := 7;
    while i >= 0
      invariant -1 <= i <= 7
      invariant Digits(256, 8, unixMilli) == Digits(256, i + 1, ts) + buf[i + 1..]
    {
      buf[i] := ts % 256;
      assert buf[i..] == [ts % 256] + buf[i + 1..];
      ts := ts / 256;
      i := i - 1;
    }
    if unixMilli >= 0 {
      TimestampFits(unixMilli);
    }
  }
}
