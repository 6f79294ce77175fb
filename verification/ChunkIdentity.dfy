/** The chunk-identity payload: each field behind its octet count in decimal and a NUL, and
    a decoder that inverts it (python/pydocs_mcp/models.py, compute_chunk_content_hash). */
module ChunkIdentity {
  import opened Common
  import opened Utf8

  // ----- decimal numbers

  function DigitChar(d: nat): char
    requires d < 10
  {
    '0' + d as char
  }

  predicate IsDigit(c: char) { '0' <= c <= '9' }

  function DigitValue(c: char): nat
    requires IsDigit(c)
  {
    c as int - '0' as int
  }

  function Decimal(n: nat): string {
    if n < 10 then [DigitChar(n)] else Decimal(n / 10) + [DigitChar(n % 10)]
  }

  function DecimalValue(digits: string): nat
    requires forall c :: c in digits ==> IsDigit(c)
  {
    if digits == [] then 0 else 10 * DecimalValue(digits[..|digits| - 1]) + DigitValue(digits[|digits| - 1])
  }

  lemma {:induction false} DecimalReads(n: nat)
    ensures Decimal(n) != [] && (forall c :: c in Decimal(n) ==> IsDigit(c)) && DecimalValue(Decimal(n)) == n
  {
    if n >= 10 {
      DecimalReads(n / 10);
      var digits := Decimal(n / 10) + [DigitChar(n % 10)];
      assert digits[..|digits| - 1] == Decimal(n / 10);
    }
  }

  // ----- the printer

  function Field(f: string): string { Decimal(|Encode(f)|) + [NUL] + f }

  function Payload(fields: seq<string>): string {
    if fields == [] then [] else Field(fields[0]) + Payload(fields[1..])
  }

  /** What is hashed. */
  function IdentityOctets(package: string, module_: string, title: string, text: string, pipelineHash: string): seq<Octet> {
    Encode(Payload([package, module_, title, text, pipelineHash]))
  }

  // ----- the decoder

  /** The digits in front. */
  function LeadingDigits(p: string): string {
    if p == [] || !IsDigit(p[0]) then [] else [p[0]] + LeadingDigits(p[1..])
  }

  lemma {:induction false} LeadingDigitsAre(p: string)
    ensures |LeadingDigits(p)| <= |p| && LeadingDigits(p) == p[..|LeadingDigits(p)|]
    ensures forall c :: c in LeadingDigits(p) ==> IsDigit(c)
  {
    if p != [] && IsDigit(p[0]) {
      LeadingDigitsAre(p[1..]);
    }
  }

  lemma {:induction false} LeadingDigitsStop(digits: string, rest: string)
    requires (forall c :: c in digits ==> IsDigit(c)) && (rest == [] || !IsDigit(rest[0]))
    ensures LeadingDigits(digits + rest) == digits
  {
    if digits == [] {
      assert digits + rest == rest;
    } else {
      assert (digits + rest)[1..] == digits[1..] + rest;
      LeadingDigitsStop(digits[1..], rest);
    }
  }

  /** How many characters in front make up exactly `octets` octets. */
  function CharsOf(p: string, octets: int): Option<nat> {
    if octets == 0 then Some(0)
    else if octets < 0 || p == [] then None
    else
      var rest := CharsOf(p[1..], octets - |EncodeChar(p[0])|);
      if rest.None? then None else Some(rest.value + 1)
  }

  lemma {:induction false} CharsOfField(f: string, rest: string)
    ensures CharsOf(f + rest, |Encode(f)|) == Some(|f|)
  {
    if f != [] {
      assert (f + rest)[1..] == f[1..] + rest;
      CharsOfField(f[1..], rest);
      AtLeastOneOctetEach(f);
    }
  }

  lemma {:induction false} CharsOfAre(p: string, octets: nat, n: nat)
    requires CharsOf(p, octets) == Some(n)
    ensures n <= |p| && |Encode(p[..n])| == octets
  {
    if octets != 0 {
      CharsOfAre(p[1..], octets - |EncodeChar(p[0])|, n - 1);
      assert p[..n][1..] == p[1..][..n - 1];
    }
  }

  /** The first field and what follows it; a number not in printed form is refused. */
  function DecodeField(p: string): Option<(string, string)> {
    LeadingDigitsAre(p);
    var digits := LeadingDigits(p);
    var rest := p[|digits|..];
    var octets := DecimalValue(digits);
    if digits != Decimal(octets) || rest == [] || rest[0] != NUL then None
    else
      var n := CharsOf(rest[1..], octets);
      if n.None? || n.value > |rest| - 1 then None else Some((rest[1..n.value + 1], rest[n.value + 1..]))
  }

  function DecodePayload(p: string, fields: nat): Option<seq<string>>
    decreases fields
  {
    if fields == 0 then (if p == [] then Some([]) else None)
    else
      var first := DecodeField(p);
      if first.None? then None
      else
        var rest := DecodePayload(first.value.1, fields - 1);
        if rest.None? then None else Some([first.value.0] + rest.value)
  }

  lemma DecodeFieldInverts(f: string, rest: string)
    ensures DecodeField(Field(f) + rest) == Some((f, rest))
  {
    var digits, p := Decimal(|Encode(f)|), Field(f) + rest;
    DecimalReads(|Encode(f)|);
    assert p == digits + ([NUL] + f + rest);
    LeadingDigitsStop(digits, [NUL] + f + rest);
    var after := p[|digits|..];
    assert after == [NUL] + f + rest && after[1..] == f + rest;
    CharsOfField(f, rest);
    assert after[1..|f| + 1] == f && after[|f| + 1..] == rest;
  }

  /** Whatever the fields hold, NULs and digits included, the decoder gives them back. */
  lemma {:induction false} DecodeInvertsPayload(fields: seq<string>)
    ensures DecodePayload(Payload(fields), |fields|) == Some(fields)
  {
    if fields != [] {
      DecodeFieldInverts(fields[0], Payload(fields[1..]));
      DecodeInvertsPayload(fields[1..]);
      assert [fields[0]] + fields[1..] == fields;
    }
  }

  lemma DecodedFieldPrints(p: string)
    requires DecodeField(p).Some?
    ensures p == Field(DecodeField(p).value.0) + DecodeField(p).value.1
  {
    LeadingDigitsAre(p);
    var digits := LeadingDigits(p);
    var rest := p[|digits|..];
    var octets := DecimalValue(digits);
    var n := CharsOf(rest[1..], octets).value;
    CharsOfAre(rest[1..], octets, n);
    assert rest[1..n + 1] == rest[1..][..n];
    Reassembled(p, digits, rest, n);
  }

  lemma Reassembled(p: string, digits: string, rest: string, n: nat)
    requires p == digits + rest && n < |rest| && rest[0] == NUL
    ensures p == digits + [NUL] + rest[1..n + 1] + rest[n + 1..]
  {
    assert rest == [NUL] + rest[1..n + 1] + rest[n + 1..];
  }

  /** The decoder accepts nothing else: what it reads prints back. */
  lemma {:induction false} DecodedPayloadPrints(p: string, n: nat)
    requires DecodePayload(p, n).Some?
    ensures |DecodePayload(p, n).value| == n && Payload(DecodePayload(p, n).value) == p
    decreases n
  {
    if n > 0 {
      var first := DecodeField(p).value;
      DecodedFieldPrints(p);
      DecodedPayloadPrints(first.1, n - 1);
      var fields := DecodePayload(p, n).value;
      assert fields[1..] == DecodePayload(first.1, n - 1).value;
    }
  }

  /** Chunk identity is uniquely decodable: equal octets, equal five fields. */
  lemma IdentityInjective(a: seq<string>, b: seq<string>)
    requires |a| == |b| == 5
    requires IdentityOctets(a[0], a[1], a[2], a[3], a[4]) == IdentityOctets(b[0], b[1], b[2], b[3], b[4])
    ensures a == b
  {
    assert a == [a[0], a[1], a[2], a[3], a[4]] && b == [b[0], b[1], b[2], b[3], b[4]];
    EncodeInjective(Payload(a), Payload(b));
    DecodeInvertsPayload(a);
    DecodeInvertsPayload(b);
  }

  // ----- why the prefix

  /** The fields ended by a bare NUL. */
  function BarePayload(fields: seq<string>): string {
    if fields == [] then [] else fields[0] + [NUL] + BarePayload(fields[1..])
  }

  /** A NUL inside a field realigns a bare join; the lengths keep the two apart. */
  lemma BareSeparatorCollides(x: string, y: string, z: string)
    ensures BarePayload([x, y + [NUL] + z]) == BarePayload([x + [NUL] + y, z])
    ensures Payload([x, y + [NUL] + z]) != Payload([x + [NUL] + y, z])
  {
    BarePair(x, y + [NUL] + z);
    BarePair(x + [NUL] + y, z);
    assert x + [NUL] + (y + [NUL] + z) + [NUL] == x + [NUL] + y + [NUL] + z + [NUL];
    var a, b := [x, y + [NUL] + z], [x + [NUL] + y, z];
    assert |a[0]| != |b[0]|;
    DecodeInvertsPayload(a);
    DecodeInvertsPayload(b);
  }

  lemma BarePair(a: string, b: string)
    ensures BarePayload([a, b]) == a + [NUL] + b + [NUL]
  {
    assert [a, b][1..] == [b] && [b][1..] == [];
    assert BarePayload([b]) == b + [NUL];
  }
}
