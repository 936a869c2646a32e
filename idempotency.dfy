/**
 * Idempotency-key derivation: a four-lane 32-bit multiply-xor hash over the
 * UTF-16 code units of `data + url`, printed as 32 lowercase hex digits and
 * spliced into a UUID-shaped template with the version nibble fixed to `4`.
 */
module IdempotencyKey {
  import opened Js

  /** A request payload as the hash sees it: a string is used as it is, anything
      else through its JSON text (`None` when serialisation yields `undefined`). */
  datatype Payload = Text(text: string) | Serialized(json: Option<string>)

  /** The value of `data + url` (or `JSON.stringify(data) + url`). `None` stands
      for `undefined + undefined`, which is `NaN`: it has no length, so the hash
      loop runs zero times over it. */
  function KeyText(data: Payload, url: Option<string>): (s: Option<string>)
    ensures s.None? <==> data == Serialized(None) && url.None?
  {
    match data
    case Text(t) => Some(t + TextOf(url))
    case Serialized(Some(j)) => Some(j + TextOf(url))
    case Serialized(None) => if url.Some? then Some("undefined" + url.value) else None
  }

  /** The code units the hash loop reads with `charCodeAt`. */
  function HashInput(data: Payload, url: Option<string>): seq<CodeUnit>
  {
    match KeyText(data, url)
    case Some(s) => Utf16(s)
    case None => []
  }

  /** The four hash lanes h1..h4. */
  datatype Lanes = Lanes(h1: bv32, h2: bv32, h3: bv32, h4: bv32)

  const Seed := Lanes(0xdead_beef, 0x41c6_ce57, 0xfead_cabe, 0x93a5_f713)

  // `Math.imul` reduces both operands to 32 bits before multiplying, so the two
  // multipliers the source writes above 2^32 (5754853343 and 9576890767) act as
  // their residues 1459886047 and 986956175.

  // Every bit-vector operation sits behind a small function, so that proofs
  // compare lane expressions structurally instead of bit by bit.

  /** `Math.imul(h ^ x, m)`: the low 32 bits of the product of `h ^ x` and `m`. */
  function ImulXor(h: bv32, x: bv32, m: bv32): bv32
  {
    (h ^ x) * m
  }

  /** `a ^ b` on 32-bit patterns. */
  function Xor(a: bv32, b: bv32): bv32
  {
    a ^ b
  }

  /** `h >>> 16` */
  function Shr16(h: bv32): bv32
  {
    h >> 16
  }

  /** `h >>> 13` */
  function Shr13(h: bv32): bv32
  {
    h >> 13
  }

  /** A code unit as the 32-bit pattern the xor sees. */
  function UnitBits(c: CodeUnit): bv32
  {
    c as bv32
  }

  /** One loop step: every lane absorbs the code unit `c`. */
  function Absorb(l: Lanes, c: CodeUnit): Lanes
  {
    var x := UnitBits(c);
    Lanes(ImulXor(l.h1, x, 2654435761), ImulXor(l.h2, x, 1597334677),
          ImulXor(l.h3, x, 1459886047), ImulXor(l.h4, x, 3367900313))
  }

  /** The lanes after the loop has consumed all of `s`, left to right. */
  function AbsorbAll(s: seq<CodeUnit>): Lanes
    decreases |s|
  {
    if s == [] then Seed else Absorb(AbsorbAll(s[..|s| - 1]), s[|s| - 1])
  }

  /** The cross-mixing pass: h2 mixes in the new h1, h4 the new h3. */
  function Finalise(l: Lanes): Lanes
  {
    var h1 := Xor(ImulXor(l.h1, Shr16(l.h1), 2246822507), ImulXor(l.h2, Shr13(l.h2), 3266489909));
    var h2 := Xor(ImulXor(l.h2, Shr16(l.h2), 2246822507), ImulXor(h1, Shr13(h1), 3266489909));
    var h3 := Xor(ImulXor(l.h3, Shr16(l.h3), 1500450271), ImulXor(l.h4, Shr13(l.h4), 986956175));
    var h4 := Xor(ImulXor(l.h4, Shr16(l.h4), 1500450271), ImulXor(h3, Shr13(h3), 986956175));
    Lanes(h1, h2, h3, h4)
  }

  /** Each lane absorbs a code unit on its own: a new lane depends only on
      the same lane before the step and on the code unit. */
  lemma AbsorbKeepsLanesApart(l: Lanes, m: Lanes, c: CodeUnit)
    ensures l.h1 == m.h1 ==> Absorb(l, c).h1 == Absorb(m, c).h1
    ensures l.h2 == m.h2 ==> Absorb(l, c).h2 == Absorb(m, c).h2
    ensures l.h3 == m.h3 ==> Absorb(l, c).h3 == Absorb(m, c).h3
    ensures l.h4 == m.h4 ==> Absorb(l, c).h4 == Absorb(m, c).h4
  {
  }

  /** Consuming `s` from the lanes `l`, first code unit first. */
  function AbsorbFrom(l: Lanes, s: seq<CodeUnit>): Lanes
    decreases |s|
  {
    if s == [] then l else AbsorbFrom(Absorb(l, s[0]), s[1..])
  }

  /** Consuming one more code unit after `s` is one more step. */
  lemma {:induction false} AbsorbFromSnoc(l: Lanes, s: seq<CodeUnit>, c: CodeUnit)
    ensures AbsorbFrom(l, s + [c]) == Absorb(AbsorbFrom(l, s), c)
    decreases |s|
  {
    if s != [] {
      assert (s + [c])[1..] == s[1..] + [c];
      AbsorbFromSnoc(Absorb(l, s[0]), s[1..], c);
    }
  }

  /** The loop's lanes are the seed with the whole string consumed first to last. */
  lemma {:induction false} AbsorbAllFromSeed(s: seq<CodeUnit>)
    ensures AbsorbAll(s) == AbsorbFrom(Seed, s)
    decreases |s|
  {
    if s != [] {
      var p, c := s[..|s| - 1], s[|s| - 1];
      assert s == p + [c];
      AbsorbAllFromSeed(p);
      AbsorbFromSnoc(Seed, p, c);
    }
  }

  /** A string split in two is consumed piece by piece: the lanes after the
      first piece are where the second piece starts. */
  lemma {:induction false} AbsorbAllStreams(s: seq<CodeUnit>, t: seq<CodeUnit>)
    ensures AbsorbAll(s + t) == AbsorbFrom(AbsorbAll(s), t)
    decreases |t|
  {
    if t == [] {
      assert s + t == s;
    } else {
      var u, c := t[..|t| - 1], t[|t| - 1];
      assert t == u + [c];
      assert (s + t)[..|s + t| - 1] == s + u;
      AbsorbAllStreams(s, u);
      AbsorbFromSnoc(AbsorbAll(s), u, c);
    }
  }

  /** The finishing pass mixes the lanes in pairs (h1 with h2, h3 with h4),
      and the second lane of a pair mixes in the first lane's new value. */
  lemma FinaliseMixesInPairs(l: Lanes, m: Lanes)
    ensures var f := Finalise(l);
      && f.h2 == Xor(ImulXor(l.h2, Shr16(l.h2), 2246822507), ImulXor(f.h1, Shr13(f.h1), 3266489909))
      && f.h4 == Xor(ImulXor(l.h4, Shr16(l.h4), 1500450271), ImulXor(f.h3, Shr13(f.h3), 986956175))
    ensures l.h1 == m.h1 && l.h2 == m.h2 ==>
      Finalise(l).h1 == Finalise(m).h1 && Finalise(l).h2 == Finalise(m).h2
    ensures l.h3 == m.h3 && l.h4 == m.h4 ==>
      Finalise(l).h3 == Finalise(m).h3 && Finalise(l).h4 == Finalise(m).h4
  {
  }

  predicate IsHexDigit(c: char)
  {
    '0' <= c <= '9' || 'a' <= c <= 'f'
  }

  function HexDigit(d: nat): (c: char)
    requires d < 16
    ensures IsHexDigit(c)
  {
    if d < 10 then ('0' as int + d) as char else ('a' as int + d - 10) as char
  }

  function DigitValue(c: char): (d: nat)
    requires IsHexDigit(c)
    ensures d < 16
  {
    if c <= '9' then c as int - '0' as int else c as int - 'a' as int + 10
  }

  function Pow16(w: nat): (p: nat)
    ensures p >= 1
  {
    if w == 0 then 1 else 16 * Pow16(w - 1)
  }

  /** `n.toString(16).padStart(width, '0')`, for `n` below 16^width. */
  function Hex(n: nat, width: nat): (s: string)
    ensures |s| == width
    ensures forall i :: 0 <= i < |s| ==> IsHexDigit(s[i])
  {
    if width == 0 then [] else Hex(n / 16, width - 1) + [HexDigit(n % 16)]
  }

  /** `h >>> 0`: a lane read as an unsigned number. */
  function Unsigned(h: bv32): (n: nat)
    ensures n < 0x1_0000_0000
  {
    h as nat
  }

  /** `(h >>> 0).toString(16).padStart(8, '0')`. */
  function Hex8(h: bv32): (s: string)
    ensures |s| == 8
  {
    Hex(Unsigned(h), 8)
  }

  /** Reads a string of hex digits back as a number. */
  function ParseHex(s: string): nat
    requires forall i :: 0 <= i < |s| ==> IsHexDigit(s[i])
  {
    if s == [] then 0 else 16 * ParseHex(s[..|s| - 1]) + DigitValue(s[|s| - 1])
  }

  /** The 32 hex digits, lanes in the order h4, h3, h2, h1. */
  function HashHex(l: Lanes): (hash: string)
    ensures |hash| == 32
    ensures hash[..8] == Hex8(l.h4) && hash[8..16] == Hex8(l.h3)
    ensures hash[16..24] == Hex8(l.h2) && hash[24..] == Hex8(l.h1)
    ensures forall i :: 0 <= i < 32 ==> IsHexDigit(hash[i])
  {
    Hex8(l.h4) + Hex8(l.h3) + Hex8(l.h2) + Hex8(l.h1)
  }

  const Template: string := "xxxxxxxx-xxxx-4xxx-xxxx-xxxxxxxxxxxx"

  /** Positions of the template that are not `x`. */
  predicate IsFixed(p: int)
  {
    p == 8 || p == 13 || p == 14 || p == 18 || p == 23
  }

  lemma TemplateLayout()
    ensures |Template| == 36
    ensures forall p :: 0 <= p < 36 ==>
      Template[p] == (if p == 14 then '4' else if IsFixed(p) then '-' else 'x')
  {
  }

  /** `Template.replace(/[x]/g, (_, p) => hash[p % 32])`: the `x` at offset `p`
      becomes hash digit `p % 32`. */
  function Splice(hash: string): (key: string)
    requires |hash| == 32
    ensures |key| == 36
    ensures key[8] == '-' && key[13] == '-' && key[18] == '-' && key[23] == '-'
    ensures key[14] == '4'
    ensures forall p :: 0 <= p < 36 && !IsFixed(p) ==> key[p] == hash[p % 32]
  {
    TemplateLayout();
    seq(36, p requires 0 <= p < 36 => if Template[p] == 'x' then hash[p % 32] else Template[p])
  }

  /** The key for a code-unit sequence. */
  function KeyOf(units: seq<CodeUnit>): string
  {
    KeyFromLanes(AbsorbAll(units))
  }

  /** The pattern every key matches: dashes at 8, 13, 18, 23, a `4` at 14, and a
      lowercase hex digit everywhere else. */
  predicate IsKeyShaped(k: string)
  {
    && |k| == 36
    && k[8] == '-' && k[13] == '-' && k[18] == '-' && k[23] == '-' && k[14] == '4'
    && forall p :: 0 <= p < 36 && !IsFixed(p) ==> IsHexDigit(k[p])
  }

  /**
   * idempotencyKeyFrom(data, url): the loop keeps the four lanes in local
   * variables, as the source does; they always equal the fold of the prefix read.
   */
  method IdempotencyKeyFrom(data: Payload, url: Option<string>) returns (key: string)
    ensures key == KeyOf(HashInput(data, url))
    ensures IsKeyShaped(key)
  {
    var h1: bv32, h2: bv32, h3: bv32, h4: bv32 := 0xdead_beef, 0x41c6_ce57, 0xfead_cabe, 0x93a5_f713;
    var str := HashInput(data, url);
    var i := 0;
    while i < |str|
      invariant 0 <= i <= |str|
      invariant Lanes(h1, h2, h3, h4) == AbsorbAll(str[..i])
    {
      var c := UnitBits(str[i]);
      h1 := ImulXor(h1, c, 2654435761);
      h2 := ImulXor(h2, c, 1597334677);
      h3 := ImulXor(h3, c, 1459886047);
      h4 := ImulXor(h4, c, 3367900313);
      assert str[..i + 1][..i] == str[..i];
      i := i + 1;
    }
    assert str[..i] == str;
    key := KeyFromLanes(Lanes(h1, h2, h3, h4));
  }

  /** What follows the loop: the cross-mixing pass, the hex digits, the template. */
  function KeyFromLanes(l: Lanes): (key: string)
    ensures IsKeyShaped(key)
  {
    var hash := HashHex(Finalise(l));
    SpliceIsShaped(hash);
    Splice(hash)
  }

  lemma SpliceIsShaped(hash: string)
    requires |hash| == 32 && forall i :: 0 <= i < 32 ==> IsHexDigit(hash[i])
    ensures IsKeyShaped(Splice(hash))
  {
  }

  /** Reading back `width` hex digits gives the number printed, when it fits. */
  lemma {:induction false} HexRoundTrip(n: nat, width: nat)
    requires n < Pow16(width)
    ensures ParseHex(Hex(n, width)) == n
  {
    if width > 0 {
      var s := Hex(n, width);
      assert s[..|s| - 1] == Hex(n / 16, width - 1);
      assert n / 16 < Pow16(width - 1);
      HexRoundTrip(n / 16, width - 1);
      assert DigitValue(HexDigit(n % 16)) == n % 16;
    }
  }

  /** The hex text of a lane reads back as that lane. */
  lemma Hex8RoundTrip(h: bv32)
    ensures ParseHex(Hex8(h)) == h as int
  {
    assert Pow16(8) == 0x1_0000_0000;
    HexRoundTrip(h as nat, 8);
  }

  /** The key shows lane h4 in full in its first group and lane h1 in full in
      positions 24..31, so those two lanes can be read back from any key. */
  lemma {:induction false} KeyExposesOuterLanes(units: seq<CodeUnit>)
    ensures var k, l := KeyOf(units), Finalise(AbsorbAll(units));
      && (forall i :: 0 <= i < 8 ==> IsHexDigit(k[i]))
      && (forall i :: 24 <= i < 32 ==> IsHexDigit(k[i]))
      && ParseHex(k[..8]) == Unsigned(l.h4)
      && ParseHex(k[24..32]) == Unsigned(l.h1)
  {
    var l := Finalise(AbsorbAll(units));
    var hash := HashHex(l);
    SpliceKeepsOuterGroups(hash);
    Hex8RoundTrip(l.h4);
    Hex8RoundTrip(l.h1);
  }

  lemma SpliceKeepsOuterGroups(hash: string)
    requires |hash| == 32
    ensures Splice(hash)[..8] == hash[..8] && Splice(hash)[24..32] == hash[24..]
  {
  }

  /** Offsets 32..35 wrap around to hash digits 0..3: the key ends with its own
      first four characters. */
  lemma KeyEndRepeatsStart(units: seq<CodeUnit>)
    ensures var k := KeyOf(units); k[32..] == k[..4]
  {
    SpliceWraps(HashHex(Finalise(AbsorbAll(units))));
  }

  lemma SpliceWraps(hash: string)
    requires |hash| == 32
    ensures Splice(hash)[32..] == Splice(hash)[..4]
  {
    var k := Splice(hash);
    assert forall i :: 0 <= i < 4 ==> k[32 + i] == k[i];
  }

  /** The key depends only on the text `data + url`: payload and url are joined
      with no separator, so moving characters across the boundary keeps the key. */
  lemma {:induction false} KeyIgnoresSplit(a: string, b: string, c: string)
    ensures KeyOf(HashInput(Text(a + b), Some(c))) == KeyOf(HashInput(Text(a), Some(b + c)))
  {
    assert (a + b) + c == a + (b + c);
  }

  /** Two payloads key alike exactly when their texts are equal (up to the hash). */
  lemma {:induction false} SameTextSameKey(d1: Payload, u1: Option<string>, d2: Payload, u2: Option<string>)
    requires KeyText(d1, u1) == KeyText(d2, u2)
    ensures KeyOf(HashInput(d1, u1)) == KeyOf(HashInput(d2, u2))
  {
  }
}
