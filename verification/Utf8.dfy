/** UTF-8 as section 3 of RFC 3629 lays it out: the octets of a text, and the text they
    come from. */
module Utf8 {
  import opened Common

  type Octet = b: int | 0 <= b < 256

  const LEAD2: int := 0xC0
  const LEAD3: int := 0xE0
  const LEAD4: int := 0xF0
  const TAIL: int := 0x80

  /** The continuation octet of the lowest six bits. */
  function Tail(n: nat): Octet { TAIL + n % 64 }

  function EncodeChar(c: char): (octets: seq<Octet>)
    ensures 1 <= |octets| <= 4
  {
    var n := c as int;
    if n < 0x80 then [n]
    else if n < 0x800 then [LEAD2 + n / 64, Tail(n)]
    else if n < 0x10000 then [LEAD3 + n / 4096, Tail(n / 64), Tail(n)]
    else [LEAD4 + n / 262144, Tail(n / 4096), Tail(n / 64), Tail(n)]
  }

  function Encode(text: string): seq<Octet> {
    if text == [] then [] else EncodeChar(text[0]) + Encode(text[1..])
  }

  lemma {:induction false} EncodeJoin(a: string, b: string)
    ensures Encode(a + b) == Encode(a) + Encode(b)
  {
    if a == [] {
      assert a + b == b;
    } else {
      EncodeJoin(a[1..], b);
      assert (a + b)[1..] == a[1..] + b;
    }
  }

  lemma EncodeSnoc(text: string, c: char)
    ensures Encode(text + [c]) == Encode(text) + EncodeChar(c)
  {
    EncodeJoin(text, [c]);
    assert Encode([c]) == EncodeChar(c);
  }

  lemma EncodePrefix(text: string, i: nat, k: nat)
    requires i <= k <= |text|
    ensures Encode(text[..k]) == Encode(text[..i]) + Encode(text[i..k])
    ensures |Encode(text[i..k])| >= k - i
  {
    EncodeJoin(text[..i], text[i..k]);
    assert text[..i] + text[i..k] == text[..k];
    AtLeastOneOctetEach(text[i..k]);
  }

  lemma {:induction false} AtLeastOneOctetEach(text: string)
    ensures |Encode(text)| >= |text|
  {
    if text != [] {
      AtLeastOneOctetEach(text[1..]);
    }
  }

  /** The number of octets a lead octet announces. */
  function Announced(lead: Octet): nat {
    if lead < TAIL then 1 else if lead < LEAD3 then 2 else if lead < LEAD4 then 3 else 4
  }

  lemma LeadAnnounces(c: char)
    ensures Announced(EncodeChar(c)[0]) == |EncodeChar(c)|
    ensures EncodeChar(c)[0] < TAIL || EncodeChar(c)[0] >= LEAD2
  {
  }

  /** ASCII octets never occur inside a multi-octet sequence. */
  lemma AsciiStandsAlone(c: char, j: nat)
    requires j < |EncodeChar(c)| && EncodeChar(c)[j] < TAIL
    ensures EncodeChar(c) == [c as int] && j == 0 && c as int < TAIL
  {
  }

  /** The scalar value a sequence of octets spells. */
  function Spelled(octets: seq<Octet>): int
    requires 1 <= |octets| <= 4
  {
    if |octets| == 1 then octets[0]
    else if |octets| == 2 then (octets[0] - LEAD2) * 64 + (octets[1] - TAIL)
    else if |octets| == 3 then (octets[0] - LEAD3) * 4096 + (octets[1] - TAIL) * 64 + (octets[2] - TAIL)
    else (octets[0] - LEAD4) * 262144 + (octets[1] - TAIL) * 4096 + (octets[2] - TAIL) * 64 + (octets[3] - TAIL)
  }

  lemma SixBits(n: nat)
    ensures n == n / 64 * 64 + n % 64 && n / 4096 == n / 64 / 64 && n / 262144 == n / 4096 / 64
  {
  }

  lemma SpelledIsChar(c: char)
    ensures Spelled(EncodeChar(c)) == c as int
  {
    SixBits(c as int);
    SixBits(c as int / 64);
    SixBits(c as int / 4096);
  }

  /** No character's octets begin another's. */
  lemma CharsPrefixFree(c: char, e: char, x: seq<Octet>, y: seq<Octet>)
    requires EncodeChar(c) + x == EncodeChar(e) + y
    ensures c == e && x == y
  {
    var whole := EncodeChar(c) + x;
    assert whole[0] == EncodeChar(c)[0] && whole[0] == EncodeChar(e)[0];
    LeadAnnounces(c);
    LeadAnnounces(e);
    var n := |EncodeChar(c)|;
    assert EncodeChar(c) == whole[..n] == EncodeChar(e);
    assert x == whole[n..] == y;
    SpelledIsChar(c);
    SpelledIsChar(e);
  }

  /** Distinct texts have distinct octets. */
  lemma {:induction false} EncodeInjective(a: string, b: string)
    requires Encode(a) == Encode(b)
    ensures a == b
  {
    if a != [] && b != [] {
      CharsPrefixFree(a[0], b[0], Encode(a[1..]), Encode(b[1..]));
      EncodeInjective(a[1..], b[1..]);
    } else {
      AtLeastOneOctetEach(a);
      AtLeastOneOctetEach(b);
    }
  }
}
