/** The 64-byte (attestation type, source) identifier and its rendering. */
module Identifier {
  import opened Terms

  /** The library's hash-to-string conversion drops NUL padding; both readings are covered. */
  datatype Trim = Trailing | BothEnds

  function Zeros(n: nat): (z: seq<Byte>)
    ensures |z| == n && forall i | 0 <= i < n :: z[i] == 0
  {
    if n == 0 then [] else Zeros(n - 1) + [0]
  }

  function Pad(s: seq<Byte>): Bytes32
    requires |s| <= 32
  {
    s + Zeros(32 - |s|)
  }

  function TrimTrailing(b: seq<Byte>): (r: seq<Byte>)
    ensures |r| <= |b| && r == b[..|r|]
    ensures forall i | |r| <= i < |b| :: b[i] == 0
    ensures r == [] || r[|r| - 1] != 0
  {
    if b == [] || b[|b| - 1] != 0 then b else TrimTrailing(b[..|b| - 1])
  }

  function TrimLeading(b: seq<Byte>): (r: seq<Byte>)
    ensures |r| <= |b| && r == b[|b| - |r|..]
    ensures r != [] ==> r[0] != 0
  {
    if b == [] || b[0] != 0 then b else TrimLeading(b[1..])
  }

  function HashToString(half: seq<Byte>, trim: Trim): seq<Byte> {
    if trim.Trailing? then TrimTrailing(half) else TrimLeading(TrimTrailing(half))
  }

  function StringToHash(s: seq<Byte>): Result<Bytes32, string> {
    if |s| > 32 then Err("string too long") else Ok(Pad(s))
  }

  /** `half` is the name, filled with NULs. */
  predicate PaddedTo(name: seq<Byte>, half: Bytes32) {
    |name| <= 32 && half[..|name|] == name && forall i | |name| <= i < 32 :: half[i] == 0
  }

  lemma PadsExactly(name: seq<Byte>, half: Bytes32)
    requires |name| <= 32
    ensures Pad(name) == half <==> PaddedTo(name, half)
  {
    if PaddedTo(name, half) {
      forall i | 0 <= i < 32 ensures Pad(name)[i] == half[i] {
        assert i < |name| ==> half[i] == half[..|name|][i];
      }
    }
  }

  function Concat(a: seq<Byte>, b: seq<Byte>): seq<Byte> {
    a + b
  }

  function Join(attType: seq<Byte>, sourceId: seq<Byte>): Result<seq<Byte>, string> {
    match (StringToHash(attType), StringToHash(sourceId))
    case (Err(e), _) => Err("att type: " + e)
    case (Ok(_), Err(e)) => Err("source ID: " + e)
    case (Ok(at), Ok(si)) => Ok(Concat(at, si))
  }

  /** JoinAttTypeAndSourceID: copies both halves into a zeroed 64-byte array. */
  method JoinAttTypeAndSourceID(attType: seq<Byte>, sourceId: seq<Byte>) returns (r: Result<seq<Byte>, string>)
    ensures r == Join(attType, sourceId)
    ensures r.Ok? <==> |attType| <= 32 && |sourceId| <= 32
    ensures r.Ok? ==> |r.value| == 64 && PaddedTo(attType, r.value[..32]) && PaddedTo(sourceId, r.value[32..])
  {
    var x := new Byte[64](_ => 0);
    var at := StringToHash(attType);
    if at.Err? {
      return Err("att type: " + at.error);
    }
    var si := StringToHash(sourceId);
    if si.Err? {
      return Err("source ID: " + si.error);
    }
    Copy(x, 0, at.value);
    Copy(x, 32, si.value);
    assert x[..] == x[0..32] + x[32..64];
    assert x[..][..32] == at.value && x[..][32..] == si.value;
    PadsExactly(attType, at.value);
    PadsExactly(sourceId, si.value);
    return Ok(x[..]);
  }

  method Copy(x: array<Byte>, at: nat, b: seq<Byte>)
    requires at + |b| <= x.Length
    modifies x
    ensures x[at..at + |b|] == b
    ensures x[..at] == old(x[..at]) && x[at + |b|..] == old(x[at + |b|..])
  {
    for i := 0 to |b|
      invariant x[at..at + i] == b[..i]
      invariant x[..at] == old(x[..at]) && x[at + |b|..] == old(x[at + |b|..])
    {
      x[at + i] := b[i];
    }
  }

  // ---------- rendering ----------

  predicate Printable(s: seq<Byte>) {
    forall b | b in s :: 0x20 <= b <= 0x7e
  }

  function Digit(n: Byte): Byte
    requires n < 16
  {
    if n < 10 then 0x30 + n else 0x61 + (n - 10)
  }

  function HexDigits(b: seq<Byte>): (r: seq<Byte>)
    ensures |r| == 2 * |b|
  {
    if b == [] then [] else [Digit(b[0] / 16), Digit(b[0] % 16)] + HexDigits(b[1..])
  }

  function Hex(b: seq<Byte>): seq<Byte> {
    [0x30, 0x78] + HexDigits(b)
  }

  function AtsHalf(half: seq<Byte>, trim: Trim): seq<Byte> {
    var s := HashToString(half, trim);
    if Printable(s) then s else Hex(half)
  }

  function AtsStrings(ats: seq<Byte>, trim: Trim): (seq<Byte>, seq<Byte>)
    requires |ats| == 64
  {
    (AtsHalf(ats[0..32], trim), AtsHalf(ats[32..64], trim))
  }

  // ---------- properties ----------

  lemma {:induction false} TrimPadded(s: seq<Byte>, n: nat)
    ensures TrimTrailing(s + Zeros(n)) == TrimTrailing(s)
  {
    if n == 0 {
      assert s + Zeros(0) == s;
    } else {
      assert s + Zeros(n) == (s + Zeros(n - 1)) + [0];
      assert (s + Zeros(n))[..|s| + n - 1] == s + Zeros(n - 1);
      TrimPadded(s, n - 1);
    }
  }

  lemma PadTrims(s: seq<Byte>)
    requires |s| <= 32
    ensures TrimTrailing(Pad(s)) == TrimTrailing(s)
  {
    TrimFilled(s, 32 - |s|, Pad(s));
  }

  lemma TrimFilled(s: seq<Byte>, n: nat, filled: seq<Byte>)
    requires filled == s + Zeros(n)
    ensures TrimTrailing(filled) == TrimTrailing(s)
  {
    TrimPadded(s, n);
  }

  lemma SameTrimSameText(x: seq<Byte>, y: seq<Byte>, trim: Trim)
    requires TrimTrailing(x) == TrimTrailing(y)
    ensures HashToString(x, trim) == HashToString(y, trim)
  {
  }

  lemma HexIsLong(half: Bytes32)
    ensures |Hex(half)| == 66
  {
  }

  /** Every byte is a printable ASCII character. */
  predicate Ascii(s: seq<Byte>) {
    forall i | 0 <= i < |s| :: ' ' as int <= s[i] <= '~' as int
  }

  lemma PrintableIsAscii(s: seq<Byte>)
    ensures Printable(s) <==> Ascii(s)
  {
    assert Printable(s) ==> forall i | 0 <= i < |s| :: s[i] in s;
  }

  /** A name is rendered as itself exactly when it is printable, whatever trimming the library does. */
  lemma HalfRoundTripIff(s: seq<Byte>, trim: Trim)
    requires |s| <= 32
    ensures AtsHalf(Pad(s), trim) == s <==> Ascii(s)
  {
    PrintableIsAscii(s);
    PadTrims(s);
    SameTrimSameText(Pad(s), s, trim);
    if Printable(s) {
      PrintableUntrimmed(s, trim);
    } else {
      HexIsLong(Pad(s));
    }
  }

  lemma PrintableUntrimmed(s: seq<Byte>, trim: Trim)
    requires Printable(s)
    ensures HashToString(s, trim) == s
  {
    if s != [] {
      assert s[0] in s && s[|s| - 1] in s;
    }
  }

  lemma ConcatHalves(a: Bytes32, b: Bytes32)
    ensures Concat(a, b)[0..32] == a && Concat(a, b)[32..64] == b
  {
  }

  /** atsStrings undoes JoinAttTypeAndSourceID on exactly the printable pairs. */
  lemma RoundTrip(attType: seq<Byte>, sourceId: seq<Byte>, trim: Trim)
    requires |attType| <= 32 && |sourceId| <= 32
    ensures Join(attType, sourceId).Ok? && |Join(attType, sourceId).value| == 64
    ensures AtsStrings(Join(attType, sourceId).value, trim) == (attType, sourceId)
            <==> Ascii(attType) && Ascii(sourceId)
  {
    ConcatHalves(Pad(attType), Pad(sourceId));
    HalfRoundTripIff(attType, trim);
    HalfRoundTripIff(sourceId, trim);
  }

  /** Two configured pairs share an identifier exactly when they differ in trailing NULs only. */
  lemma JoinCollidesIff(t1: seq<Byte>, s1: seq<Byte>, t2: seq<Byte>, s2: seq<Byte>)
    requires |t1| <= 32 && |s1| <= 32 && |t2| <= 32 && |s2| <= 32
    ensures Join(t1, s1) == Join(t2, s2) <==>
              TrimTrailing(t1) == TrimTrailing(t2) && TrimTrailing(s1) == TrimTrailing(s2)
  {
    PadCollidesIff(t1, t2);
    PadCollidesIff(s1, s2);
    ConcatHalves(Pad(t1), Pad(s1));
    ConcatHalves(Pad(t2), Pad(s2));
  }

  lemma {:induction false} PadCollidesIff(a: seq<Byte>, b: seq<Byte>)
    requires |a| <= 32 && |b| <= 32
    ensures Pad(a) == Pad(b) <==> TrimTrailing(a) == TrimTrailing(b)
  {
    PadTrims(a);
    PadTrims(b);
    if TrimTrailing(a) == TrimTrailing(b) {
      SameTrimmed(Pad(a), Pad(b));
    }
  }

  lemma {:induction false} SameTrimmed(x: seq<Byte>, y: seq<Byte>)
    requires |x| == |y| && TrimTrailing(x) == TrimTrailing(y)
    ensures x == y
  {
    var n := |TrimTrailing(x)|;
    forall i | 0 <= i < |x| ensures x[i] == y[i] {
      assert i < n ==> x[i] == x[..n][i] && y[i] == y[..n][i];
    }
  }

  /** The half renders as text, not as hex. */
  predicate IsText(half: Bytes32, trim: Trim) {
    Printable(HashToString(half, trim))
  }

  lemma TextIsShort(half: seq<Byte>, trim: Trim)
    ensures |HashToString(half, trim)| <= |half|
  {
  }

  /** Text, at most 32 characters, never looks like hex, 66 characters, whatever the library trims. */
  lemma TextNeverCollidesWithHex(x: Bytes32, y: Bytes32, trim: Trim)
    requires AtsHalf(x, trim) == AtsHalf(y, trim)
    ensures IsText(x, trim) <==> IsText(y, trim)
  {
    TextIsShort(x, trim);
    TextIsShort(y, trim);
    HexIsLong(x);
    HexIsLong(y);
  }

  /** If the library trims the end only, no two identifiers render alike. */
  lemma RenderingInjective(x: Bytes32, y: Bytes32)
    requires AtsHalf(x, Trailing) == AtsHalf(y, Trailing)
    ensures x == y
  {
    TextNeverCollidesWithHex(x, y, Trailing);
    if IsText(x, Trailing) {
      SameTrimmed(x, y);
    } else {
      HexDigitsAgree(x, y);
      HexInjective(x, y);
    }
  }

  lemma HexDigitsAgree(x: seq<Byte>, y: seq<Byte>)
    requires Hex(x) == Hex(y)
    ensures HexDigits(x) == HexDigits(y)
  {
    assert HexDigits(x) == Hex(x)[2..] && HexDigits(y) == Hex(y)[2..];
  }

  /** half holds the name after some NULs and before as many as fill it. */
  predicate HoldsName(half: Bytes32, name: seq<Byte>, lead: nat) {
    lead + |name| <= 32 && half == Zeros(lead) + name + Zeros(32 - lead - |name|)
  }

  /** The halves hold one printable name, possibly at different places. */
  ghost predicate SameNameShifted(x: Bytes32, y: Bytes32) {
    exists name: seq<Byte>, i: nat, j: nat :: Printable(name) && HoldsName(x, name, i) && HoldsName(y, name, j)
  }

  /** If the library trims both ends, exactly the shifts of one printable name render alike. */
  lemma RenderAlikeIff(x: Bytes32, y: Bytes32)
    ensures AtsHalf(x, BothEnds) == AtsHalf(y, BothEnds) <==> x == y || SameNameShifted(x, y)
  {
    if AtsHalf(x, BothEnds) == AtsHalf(y, BothEnds) {
      TextNeverCollidesWithHex(x, y, BothEnds);
      if IsText(x, BothEnds) {
        var i := StrippedHolds(x);
        var j := StrippedHolds(y);
        assert HoldsName(x, HashToString(x, BothEnds), i) && HoldsName(y, HashToString(x, BothEnds), j);
      } else {
        HexDigitsAgree(x, y);
        HexInjective(x, y);
      }
    } else if SameNameShifted(x, y) {
      var name: seq<Byte>, i: nat, j: nat :| Printable(name) && HoldsName(x, name, i) && HoldsName(y, name, j);
      HeldRenders(x, name, i);
      HeldRenders(y, name, j);
    }
  }

  lemma {:induction false} ZerosIf(z: seq<Byte>)
    requires forall i | 0 <= i < |z| :: z[i] == 0
    ensures z == Zeros(|z|)
  {
  }

  lemma {:induction false} OnlyZerosTrimmed(b: seq<Byte>)
    ensures forall i | 0 <= i < |b| - |TrimLeading(b)| :: b[i] == 0
  {
    if b != [] && b[0] == 0 {
      OnlyZerosTrimmed(b[1..]);
      assert forall i | 0 < i < |b| :: b[i] == b[1..][i - 1];
    }
  }

  lemma LeadingZeros(b: seq<Byte>)
    ensures b == Zeros(|b| - |TrimLeading(b)|) + TrimLeading(b)
  {
    OnlyZerosTrimmed(b);
    var n := |b| - |TrimLeading(b)|;
    ZerosIf(b[..n]);
    assert b == b[..n] + b[n..];
  }

  lemma TrailingZeros(b: seq<Byte>)
    ensures b == TrimTrailing(b) + Zeros(|b| - |TrimTrailing(b)|)
  {
    var n := |TrimTrailing(b)|;
    ZerosIf(b[n..]);
    assert b == b[..n] + b[n..];
  }

  /** What trimming both ends leaves is held by the half, after as many NULs as it took off the front. */
  lemma StrippedHolds(half: Bytes32) returns (lead: nat)
    ensures HoldsName(half, HashToString(half, BothEnds), lead)
  {
    var body := TrimTrailing(half);
    lead := |body| - |TrimLeading(body)|;
    TrailingZeros(half);
    LeadingZeros(body);
  }

  lemma TrimZeroHead(b: seq<Byte>)
    ensures TrimLeading([0] + b) == TrimLeading(b)
  {
    assert ([0] + b)[1..] == b;
  }

  lemma ZerosHead(n: nat, b: seq<Byte>)
    requires n > 0
    ensures Zeros(n) + b == [0] + (Zeros(n - 1) + b)
  {
  }

  lemma {:induction false} TrimLeadingZeros(n: nat, b: seq<Byte>)
    ensures TrimLeading(Zeros(n) + b) == TrimLeading(b)
  {
    if n == 0 {
      assert Zeros(0) + b == b;
    } else {
      TrimLeadingZeros(n - 1, b);
      ZerosHead(n, b);
      TrimZeroHead(Zeros(n - 1) + b);
    }
  }

  lemma {:induction false} TrimOfZeros(n: nat)
    ensures TrimTrailing(Zeros(n)) == []
  {
  }

  lemma TrimBeforeName(lead: nat, name: seq<Byte>)
    requires Printable(name) && name != []
    ensures TrimTrailing(Zeros(lead) + name) == Zeros(lead) + name
  {
    assert (Zeros(lead) + name)[lead + |name| - 1] == name[|name| - 1];
    assert name[|name| - 1] in name;
  }

  lemma StripBeforeName(lead: nat, name: seq<Byte>)
    requires Printable(name)
    ensures HashToString(Zeros(lead) + name, BothEnds) == name
  {
    if name == [] {
      assert Zeros(lead) + name == Zeros(lead);
      TrimOfZeros(lead);
    } else {
      TrimBeforeName(lead, name);
      TrimLeadingZeros(lead, name);
      assert name[0] in name;
    }
  }

  lemma HeldRenders(half: Bytes32, name: seq<Byte>, lead: nat)
    requires Printable(name) && HoldsName(half, name, lead)
    ensures AtsHalf(half, BothEnds) == name
  {
    TrimPadded(Zeros(lead) + name, 32 - lead - |name|);
    SameTrimSameText(half, Zeros(lead) + name, BothEnds);
    StripBeforeName(lead, name);
  }

  /** A concrete pair for that library: the name "a" at the first and at the second byte. */
  lemma ShiftedNamesCollide()
    ensures var x: Bytes32, y: Bytes32 := [0x61] + Zeros(31), [0, 0x61] + Zeros(30);
            x != y && AtsHalf(x, BothEnds) == AtsHalf(y, BothEnds)
  {
    var x: Bytes32, y: Bytes32 := [0x61] + Zeros(31), [0, 0x61] + Zeros(30);
    assert Zeros(0) + [0x61] + Zeros(31) == x;
    assert Zeros(1) == [0] && Zeros(1) + [0x61] + Zeros(30) == y;
    HeldRenders(x, [0x61], 0);
    HeldRenders(y, [0x61], 1);
    assert x[0] != y[0];
  }

  /** The hex digits, as bytes. */
  const HEX_ALPHABET: seq<Byte> :=
    [0x30, 0x31, 0x32, 0x33, 0x34, 0x35, 0x36, 0x37, 0x38, 0x39, 0x61, 0x62, 0x63, 0x64, 0x65, 0x66]

  lemma {:induction false} HexDigitsExactly(b: seq<Byte>, i: nat)
    requires i < |b|
    ensures HexDigits(b)[2 * i] == HEX_ALPHABET[b[i] / 16] && HexDigits(b)[2 * i + 1] == HEX_ALPHABET[b[i] % 16]
  {
    if i > 0 {
      HexDigitsExactly(b[1..], i - 1);
    }
  }

  /** A half that is not printable text is rendered as 0x and two lower-case hex digits a byte. */
  lemma HexRendering(half: Bytes32, trim: Trim, i: nat)
    requires !Ascii(HashToString(half, trim)) && i < 32
    ensures var text := AtsHalf(half, trim);
            && |text| == 66 && text[..2] == ['0' as int, 'x' as int]
            && text[2 + 2 * i] == HEX_ALPHABET[half[i] / 16] && text[3 + 2 * i] == HEX_ALPHABET[half[i] % 16]
  {
    PrintableIsAscii(HashToString(half, trim));
    HexIsLong(half);
    HexDigitsExactly(half, i);
  }

  lemma {:induction false} HexInjective(x: seq<Byte>, y: seq<Byte>)
    requires HexDigits(x) == HexDigits(y)
    ensures x == y
  {
    if x != [] && y != [] {
      var p, q := HexDigits(x), HexDigits(y);
      assert p[0] == Digit(x[0] / 16) && q[0] == Digit(y[0] / 16);
      assert p[1] == Digit(x[0] % 16) && q[1] == Digit(y[0] % 16);
      assert x[0] == y[0];
      assert HexDigits(x[1..]) == p[2..] && HexDigits(y[1..]) == q[2..];
      HexInjective(x[1..], y[1..]);
      assert x == [x[0]] + x[1..] && y == [y[0]] + y[1..];
    }
  }
}
