/** The parenthesis scan over octets and the one over characters: both find the least
    closing place, and the octet scan finds the character scan's place
    (src/lib.rs, python/pydocs_mcp/_fallback.py). */
module ParenScan {
  import opened Common
  import opened Utf8

  const SCAN_LIMIT: nat := 4000

  const OPEN: int := '(' as int
  const CLOSE: int := ')' as int

  /** Characters and octets both count as code units here; ASCII ones are the same number. */
  function Units(text: string): seq<int> { seq(|text|, i requires 0 <= i < |text| => text[i] as int) }

  function Weight(unit: int): int { if unit == OPEN then 1 else if unit == CLOSE then -1 else 0 }

  /** Opening parentheses less closing ones. */
  function Depth(units: seq<int>): int {
    if units == [] then 0 else Depth(units[..|units| - 1]) + Weight(units[|units| - 1])
  }

  /** Just past a closing parenthesis that brings the depth since `open` to zero. */
  predicate Closes(units: seq<int>, open: nat, k: nat) {
    open < k <= |units| && units[k - 1] == CLOSE && Depth(units[open..k]) == 0
  }

  function Limit(length: nat, open: nat): nat { if open + SCAN_LIMIT <= length then open + SCAN_LIMIT else length }

  /** The first place after `open`, up to a limit, that satisfies `p`, if any does. */
  ghost predicate IsFirst(p: nat -> bool, open: nat, limit: nat, found: Option<nat>) {
    match found
    case None => forall k: nat :: open < k <= limit ==> !p(k)
    case Some(place) => open < place <= limit && p(place) && forall k: nat :: open < k < place ==> !p(k)
  }

  ghost predicate IsFirstClose(units: seq<int>, open: nat, found: Option<nat>) {
    IsFirst((k: nat) => Closes(units, open, k), open, Limit(|units|, open), found)
  }

  lemma DepthGrows(units: seq<int>, open: nat, i: nat)
    requires open <= i < |units|
    ensures Depth(units[open..i + 1]) == Depth(units[open..i]) + Weight(units[i])
  {
    assert units[open..i + 1][..i - open] == units[open..i];
  }

  // ----- the two scans

  /** _scan_matching_paren: over characters. */
  method ScanChars(source: string, open: nat) returns (found: Option<nat>)
    ensures IsFirstClose(Units(source), open, found)
  {
    ghost var units := Units(source);
    var depth := 0;
    var end := if |source| <= open + SCAN_LIMIT then |source| else open + SCAN_LIMIT;
    var i := open;
    while i < end
      invariant open <= i && (open <= end ==> i <= end)
      invariant i <= |units| ==> depth == Depth(units[open..i])
      invariant forall k: nat :: open < k <= i ==> !Closes(units, open, k)
    {
      DepthGrows(units, open, i);
      if source[i] == '(' {
        depth := depth + 1;
      } else if source[i] == ')' {
        depth := depth - 1;
        if depth == 0 {
          return Some(i + 1);
        }
      }
      i := i + 1;
    }
    found := None;
  }

  /** scan_matching_paren: over octets. */
  method ScanOctets(octets: seq<Octet>, open: nat) returns (found: Option<nat>)
    ensures IsFirstClose(octets, open, found)
  {
    var depth := 0;
    var end := if open + SCAN_LIMIT <= |octets| then open + SCAN_LIMIT else |octets|;
    var i := open;
    while i < end
      invariant open <= i && (open <= end ==> i <= end)
      invariant i <= |octets| ==> depth == Depth(octets[open..i])
      invariant forall k: nat :: open < k <= i ==> !Closes(octets, open, k)
    {
      DepthGrows(octets, open, i);
      if octets[i] == OPEN {
        depth := depth + 1;
      } else if octets[i] == CLOSE {
        depth := depth - 1;
        if depth == 0 {
          return Some(i + 1);
        }
      }
      i := i + 1;
    }
    found := None;
  }

  // ----- offsets

  /** The octet offset of a character. */
  function Offset(text: string, i: nat): nat
    requires i <= |text|
  {
    |Encode(text[..i])|
  }

  lemma OffsetGrows(text: string, i: nat)
    requires i < |text|
    ensures Offset(text, i + 1) == Offset(text, i) + |EncodeChar(text[i])|
    ensures Encode(text[..i + 1]) == Encode(text[..i]) + EncodeChar(text[i])
  {
    assert text[..i + 1] == text[..i] + [text[i]];
    EncodeSnoc(text[..i], text[i]);
  }

  lemma OffsetsOrdered(text: string, i: nat, k: nat)
    requires i <= k <= |text|
    ensures Offset(text, i) + (k - i) <= Offset(text, k) <= |Encode(text)|
  {
    EncodePrefix(text, i, k);
    EncodePrefix(text, k, |text|);
    assert text[..|text|] == text;
  }

  lemma Between<T>(before: seq<T>, middle: seq<T>, after: seq<T>)
    ensures var whole := before + middle + after;
            whole[|before|..|before| + |middle|] == middle && whole[..|before|] == before
  {
  }

  /** The octets of a stretch of text sit between its offsets. */
  lemma OctetsBetween(text: string, i: nat, k: nat)
    requires i <= k <= |text|
    ensures Offset(text, i) <= Offset(text, k) <= |Encode(text)|
    ensures Encode(text)[Offset(text, i)..Offset(text, k)] == Encode(text[i..k])
    ensures Encode(text)[..Offset(text, i)] == Encode(text[..i])
  {
    OffsetsOrdered(text, i, k);
    EncodePrefix(text, i, k);
    EncodeJoin(text[..k], text[k..]);
    assert text[..k] + text[k..] == text;
    Between(Encode(text[..i]), Encode(text[i..k]), Encode(text[k..]));
  }

  /** The last octet before a place is the last one of the character before it. */
  lemma LastOctet(text: string, k: nat)
    requires 0 < k <= |text|
    ensures 0 < Offset(text, k) <= |Encode(text)|
    ensures Encode(text)[Offset(text, k) - 1] == EncodeChar(text[k - 1])[|EncodeChar(text[k - 1])| - 1]
  {
    OctetsBetween(text, k, k);
    OffsetGrows(text, k - 1);
    var before := Encode(text[..k]);
    assert Encode(text)[Offset(text, k) - 1] == before[|before| - 1];
  }

  // ----- the depth agrees

  lemma {:induction false} DepthJoin(a: seq<int>, b: seq<int>)
    ensures Depth(a + b) == Depth(a) + Depth(b)
  {
    if b == [] {
      assert a + b == a;
    } else {
      DepthJoin(a, b[..|b| - 1]);
      assert (a + b)[..|a + b| - 1] == a + b[..|b| - 1];
    }
  }

  lemma {:induction false} NothingWeighs(units: seq<int>)
    requires forall j :: 0 <= j < |units| ==> Weight(units[j]) == 0
    ensures Depth(units) == 0
  {
    if units != [] {
      NothingWeighs(units[..|units| - 1]);
    }
  }

  /** A character's octets weigh what the character does. */
  lemma CharWeight(c: char)
    ensures Depth(EncodeChar(c)) == Weight(c as int)
  {
    if c as int < TAIL {
      assert EncodeChar(c)[..0] == [];
    } else {
      forall j | 0 <= j < |EncodeChar(c)| ensures Weight(EncodeChar(c)[j]) == 0 {
        if EncodeChar(c)[j] < TAIL {
          AsciiStandsAlone(c, j);
        }
      }
      NothingWeighs(EncodeChar(c));
    }
  }

  lemma {:induction false} DepthOfEncoded(text: string)
    ensures Depth(Encode(text)) == Depth(Units(text))
  {
    if text != [] {
      DepthOfEncoded(text[1..]);
      CharWeight(text[0]);
      DepthJoin(EncodeChar(text[0]), Encode(text[1..]));
      DepthJoin([text[0] as int], Units(text[1..]));
      assert Units(text) == [text[0] as int] + Units(text[1..]);
      assert [text[0] as int][..0] == [];
    }
  }

  lemma DepthBetween(text: string, open: nat, k: nat)
    requires open <= k <= |text|
    ensures Offset(text, open) <= Offset(text, k) <= |Encode(text)|
    ensures Depth(Encode(text)[Offset(text, open)..Offset(text, k)]) == Depth(Units(text)[open..k])
  {
    OctetsBetween(text, open, k);
    UnitsBetween(text, open, k);
    DepthOfEncoded(text[open..k]);
  }

  lemma UnitsBetween(text: string, open: nat, k: nat)
    requires open <= k <= |text|
    ensures Units(text)[open..k] == Units(text[open..k])
  {
  }

  // ----- refinement

  lemma ClosesWithOctet(text: string, k: nat)
    requires 0 < k <= |text|
    ensures 0 < Offset(text, k) <= |Encode(text)|
    ensures Encode(text)[Offset(text, k) - 1] == CLOSE <==> text[k - 1] == ')'
  {
    LastOctet(text, k);
    var last := EncodeChar(text[k - 1]);
    if last[|last| - 1] < TAIL {
      AsciiStandsAlone(text[k - 1], |last| - 1);
    }
  }

  /** A place closes in the characters exactly when its offset closes in the octets. */
  lemma ClosesAlike(text: string, open: nat, k: nat)
    requires open < k <= |text|
    ensures Offset(text, k) <= |Encode(text)|
    ensures Closes(Units(text), open, k) <==> Closes(Encode(text), Offset(text, open), Offset(text, k))
  {
    DepthBetween(text, open, k);
    OffsetsOrdered(text, open, k);
    ClosesWithOctet(text, k);
    assert Units(text)[k - 1] == text[k - 1] as int;
  }

  /** An ASCII octet of a text is one of its characters, at that character's offset. */
  lemma {:induction false} AsciiOctetIsChar(text: string, b: nat) returns (i: nat)
    requires b < |Encode(text)| && Encode(text)[b] < TAIL
    ensures i < |text| && Offset(text, i) == b && Offset(text, i + 1) == b + 1
  {
    var first := EncodeChar(text[0]);
    if b < |first| {
      AsciiStandsAlone(text[0], b);
      i := 0;
      OffsetGrows(text, 0);
      assert Offset(text, 0) == 0;
    } else {
      var rest := AsciiOctetIsChar(text[1..], b - |first|);
      i := rest + 1;
      assert text[..i][1..] == text[1..][..rest] && text[..i + 1][1..] == text[1..][..rest + 1];
    }
  }

  /** A place that closes in the octets is the offset of one that closes in the characters. */
  lemma ClosingOctetIsChar(text: string, open: nat, place: nat) returns (k: nat)
    requires open <= |text| && place <= |Encode(text)| && Closes(Encode(text), Offset(text, open), place)
    ensures open < k <= |text| && Offset(text, k) == place && Closes(Units(text), open, k)
  {
    var i := AsciiOctetIsChar(text, place - 1);
    k := i + 1;
    if i < open {
      OffsetsOrdered(text, k, open);
      assert false;
    }
    ClosesAlike(text, open, k);
  }

  function OffsetIn(text: string): nat -> nat { (i: nat) => if i <= |text| then Offset(text, i) else 0 }

  /** How places found in one sequence relate to those in another: `p` and `q` hold
      alike at a place and its offset, `q` only at offsets, and offsets spread out. */
  ghost predicate Aligned(p: nat -> bool, q: nat -> bool, offset: nat -> nat, open: nat, n: nat, m: nat) {
    && (forall k: nat :: open < k <= n ==> (p(k) <==> q(offset(k))))
    && (forall b: nat :: offset(open) < b && q(b) ==> exists k: nat :: open < k <= n && offset(k) == b)
    && (forall j: nat, k: nat :: open <= j <= k <= n ==> offset(j) + (k - j) <= offset(k) <= m)
  }

  lemma FirstsAgree(p: nat -> bool, q: nat -> bool, offset: nat -> nat, open: nat, n: nat, m: nat, inP: Option<nat>, inQ: Option<nat>)
    requires Aligned(p, q, offset, open, n, m) && open <= n
    requires IsFirst(p, open, Limit(n, open), inP) && IsFirst(q, offset(open), Limit(m, offset(open)), inQ)
    ensures inQ.Some? ==> inP.Some? && offset(inP.value) == inQ.value
    ensures inP.Some? ==> (inQ.Some? <==> offset(inP.value) - offset(open) <= SCAN_LIMIT)
  {
    if inQ.Some? {
      var k: nat :| open < k <= n && offset(k) == inQ.value;
      assert p(k);
      assert k <= Limit(n, open);
      assert inP.value <= k;
    }
  }

  lemma TextAligned(text: string, open: nat)
    requires open <= |text|
    ensures Aligned((k: nat) => Closes(Units(text), open, k), (b: nat) => Closes(Encode(text), Offset(text, open), b), OffsetIn(text),
                    open, |text|, |Encode(text)|)
  {
    forall k: nat | open < k <= |text| ensures Closes(Units(text), open, k) <==> Closes(Encode(text), Offset(text, open), OffsetIn(text)(k)) {
      ClosesAlike(text, open, k);
    }
    forall b: nat | Offset(text, open) < b && Closes(Encode(text), Offset(text, open), b)
      ensures exists k: nat :: open < k <= |text| && OffsetIn(text)(k) == b
    {
      var k := ClosingOctetIsChar(text, open, b);
      assert OffsetIn(text)(k) == b;
    }
    forall j: nat, k: nat | open <= j <= k <= |text| ensures OffsetIn(text)(j) + (k - j) <= OffsetIn(text)(k) <= |Encode(text)| {
      OffsetsOrdered(text, j, k);
    }
  }

  /** Whatever the octet scan finds is the offset of what the character scan finds; and what
      the character scan finds the octet scan finds exactly when it is within the limit
      counted in octets. */
  lemma OctetScanRefinesCharScan(text: string, open: nat, inOctets: Option<nat>, inChars: Option<nat>)
    requires open <= |text|
    requires IsFirstClose(Encode(text), Offset(text, open), inOctets) && IsFirstClose(Units(text), open, inChars)
    ensures inOctets.Some? ==> inChars.Some? && inChars.value <= |text| && Offset(text, inChars.value) == inOctets.value
    ensures inChars.Some? ==> inChars.value <= |text| && (inOctets.Some? <==> Offset(text, inChars.value) - Offset(text, open) <= SCAN_LIMIT)
  {
    TextAligned(text, open);
    FirstsAgree((k: nat) => Closes(Units(text), open, k), (b: nat) => Closes(Encode(text), Offset(text, open), b), OffsetIn(text),
                open, |text|, |Encode(text)|, inChars, inOctets);
  }

  // ----- truncation

  /** The octet offsets at which characters start, as `char_indices` lists them. */
  function CharIndices(text: string): seq<nat> {
    seq(|text|, i requires 0 <= i < |text| => Offset(text, i))
  }

  /** safe_truncate: cut the octets where character number `most` starts. */
  function SafeTruncated(text: string, most: nat): seq<Octet> {
    var octets := Encode(text);
    if most < |CharIndices(text)| then
      OffsetsOrdered(text, most, |text|);
      octets[..CharIndices(text)[most]]
    else octets
  }

  /** The cut keeps whole characters: the octets of the fallback's `text[:most]`. */
  lemma TruncationKeepsChars(text: string, most: nat)
    ensures SafeTruncated(text, most) == Encode(if most <= |text| then text[..most] else text)
  {
    if most < |text| {
      OctetsBetween(text, most, most);
    } else {
      assert most == |text| ==> text[..most] == text;
    }
  }
}
