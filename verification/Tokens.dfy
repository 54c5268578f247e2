/** Page tokens: kind and last id in unpadded base64url (section 5 of RFC 4648). */
module Tokens {
  import opened Ipv4

  // ---- base64url without padding ----

  function Letter(n: nat): char
    requires n < 64
  {
    if n < 26 then 'A' + n as char
    else if n < 52 then 'a' + (n - 26) as char
    else if n < 62 then '0' + (n - 52) as char
    else if n == 62 then '-' else '_'
  }

  function Value(c: char): (r: Option<nat>)
    ensures r.Some? ==> r.value < 64
  {
    if 'A' <= c <= 'Z' then Some(c as int - 'A' as int)
    else if 'a' <= c <= 'z' then Some(c as int - 'a' as int + 26)
    else if '0' <= c <= '9' then Some(c as int - '0' as int + 52)
    else if c == '-' then Some(62) else if c == '_' then Some(63) else None
  }

  lemma LetterValue(n: nat)
    requires n < 64
    ensures Value(Letter(n)) == Some(n) && Letter(n) != '\n' && Letter(n) != '\r'
  {}

  predicate IsBytes(s: string) {
    forall i :: 0 <= i < |s| ==> s[i] as int < 256
  }

  // The four sextets of three bytes, and the three bytes of four sextets.

  function S0(a: nat): nat { a / 4 }
  function S1(a: nat, b: nat): nat { a % 4 * 16 + b / 16 }
  function S2(b: nat, c: nat): nat { b % 16 * 4 + c / 64 }
  function S3(c: nat): nat { c % 64 }

  function B0(v: nat, w: nat): nat { v * 4 + w / 16 }
  function B1(w: nat, x: nat): nat { w % 16 * 16 + x / 4 }
  function B2(x: nat, y: nat): nat { x % 4 * 64 + y }

  lemma SextetsFit(a: nat, b: nat, c: nat)
    requires a < 256 && b < 256 && c < 256
    ensures S0(a) < 64 && S1(a, b) < 64 && S2(b, c) < 64 && S3(c) < 64
  {}

  lemma Regroup(a: nat, b: nat, c: nat)
    requires a < 256 && b < 256 && c < 256
    ensures B0(S0(a), S1(a, b)) == a && B1(S1(a, b), S2(b, c)) == b && B2(S2(b, c), S3(c)) == c
  {}

  function Sextet(n: nat): char {
    if n < 64 then Letter(n) else '?'
  }

  function Byte(n: nat): char {
    if n < 256 then n as char else '?'
  }

  /** Three bytes make four letters; one or two bytes at the end make two or three. */
  function Encode(s: string): string
    requires IsBytes(s)
  {
    if |s| == 0 then ""
    else
      var a := s[0] as int;
      var b := if |s| > 1 then s[1] as int else 0;
      var c := if |s| > 2 then s[2] as int else 0;
      if |s| == 1 then [Sextet(S0(a)), Sextet(S1(a, b))]
      else if |s| == 2 then [Sextet(S0(a)), Sextet(S1(a, b)), Sextet(S2(b, c))]
      else [Sextet(S0(a)), Sextet(S1(a, b)), Sextet(S2(b, c)), Sextet(S3(c))] + Encode(s[3..])
  }

  /** Spare bits at the end are ignored, as the decoder of the standard library ignores them. */
  function DecodeLetters(t: string): Option<string> {
    if |t| == 0 then Some("")
    else if |t| == 1 then None
    else
      var v, w := Value(t[0]), Value(t[1]);
      var x := if |t| > 2 then Value(t[2]) else Some(0);
      var y := if |t| > 3 then Value(t[3]) else Some(0);
      if v.None? || w.None? || x.None? || y.None? then None
      else if |t| == 2 then Some([Byte(B0(v.value, w.value))])
      else if |t| == 3 then Some([Byte(B0(v.value, w.value)), Byte(B1(w.value, x.value))])
      else
        var rest := DecodeLetters(t[4..]);
        if rest.None? then None
        else Some([Byte(B0(v.value, w.value)), Byte(B1(w.value, x.value)), Byte(B2(x.value, y.value))] + rest.value)
  }

  /** Line breaks are skipped. */
  function WithoutBreaks(t: string): string {
    if t == "" then "" else (if t[0] == '\n' || t[0] == '\r' then "" else [t[0]]) + WithoutBreaks(t[1..])
  }

  function Decode(t: string): Option<string> {
    DecodeLetters(WithoutBreaks(t))
  }

  lemma SextetValues(a: nat, b: nat, c: nat)
    requires a < 256 && b < 256 && c < 256
    ensures Value(Sextet(S0(a))) == Some(S0(a)) && Value(Sextet(S1(a, b))) == Some(S1(a, b))
    ensures Value(Sextet(S2(b, c))) == Some(S2(b, c)) && Value(Sextet(S3(c))) == Some(S3(c))
    ensures NoBreaks([Sextet(S0(a)), Sextet(S1(a, b)), Sextet(S2(b, c)), Sextet(S3(c))])
  {
    SextetsFit(a, b, c);
    LetterValue(S0(a));
    LetterValue(S1(a, b));
    LetterValue(S2(b, c));
    LetterValue(S3(c));
  }

  lemma FourLetters(t: string, a: nat, b: nat, c: nat, rest: string)
    requires a < 256 && b < 256 && c < 256 && |t| >= 4
    requires t[0] == Sextet(S0(a)) && t[1] == Sextet(S1(a, b)) && t[2] == Sextet(S2(b, c)) && t[3] == Sextet(S3(c))
    requires DecodeLetters(t[4..]) == Some(rest)
    ensures DecodeLetters(t) == Some([a as char, b as char, c as char] + rest)
  {
    SextetValues(a, b, c);
    Regroup(a, b, c);
  }

  lemma EncodeGroup(s: string)
    requires IsBytes(s) && |s| > 2
    ensures
      var a, b, c := s[0] as int, s[1] as int, s[2] as int;
      Encode(s) == [Sextet(S0(a)), Sextet(S1(a, b)), Sextet(S2(b, c)), Sextet(S3(c))] + Encode(s[3..])
  {}

  lemma EncodeTail(s: string)
    requires IsBytes(s) && 0 < |s| < 3
    ensures
      var a, b := s[0] as int, if |s| > 1 then s[1] as int else 0;
      Encode(s) == if |s| == 1 then [Sextet(S0(a)), Sextet(S1(a, b))]
        else [Sextet(S0(a)), Sextet(S1(a, b)), Sextet(S2(b, 0))]
  {}

  predicate NoBreaks(t: string) {
    forall i :: 0 <= i < |t| ==> t[i] != '\n' && t[i] != '\r'
  }

  lemma {:induction false} NothingToSkip(t: string)
    requires NoBreaks(t)
    ensures WithoutBreaks(t) == t
  {
    if t != "" {
      NothingToSkip(t[1..]);
    }
  }

  lemma JoinNoBreaks(t: string, u: string)
    requires NoBreaks(t) && NoBreaks(u)
    ensures NoBreaks(t + u)
  {}

  lemma TailHasNoBreaks(s: string)
    requires IsBytes(s) && 0 < |s| < 3
    ensures NoBreaks(Encode(s)) && Encode(s) != ""
  {
    var a, b, c := s[0] as int, if |s| > 1 then s[1] as int else 0, 0;
    SextetValues(a, b, c);
    EncodeTail(s);
    var four := [Sextet(S0(a)), Sextet(S1(a, b)), Sextet(S2(b, c)), Sextet(S3(c))];
    assert Encode(s) == four[..|s| + 1];
    assert forall i :: 0 <= i < |s| + 1 ==> Encode(s)[i] == four[i];
  }

  lemma {:induction false} EncodeHasNoBreaks(s: string)
    requires IsBytes(s)
    ensures NoBreaks(Encode(s)) && (s != "" ==> Encode(s) != "")
    decreases |s|
  {
    if 0 < |s| < 3 {
      TailHasNoBreaks(s);
    } else if |s| > 2 {
      var a, b, c := s[0] as int, s[1] as int, s[2] as int;
      SextetValues(a, b, c);
      EncodeGroup(s);
      EncodeHasNoBreaks(s[3..]);
      JoinNoBreaks([Sextet(S0(a)), Sextet(S1(a, b)), Sextet(S2(b, c)), Sextet(S3(c))], Encode(s[3..]));
    }
  }

  // ---- Which texts decode to given bytes ----

  /** Two letters that differ at most in bits no byte uses: the last four of a text of length two beyond
      whole groups, the last two of one of length three. */
  predicate SameUsed(c: char, d: char, beyond: nat) {
    || c == d
    || (Value(c).Some? && Value(d).Some? && beyond == 2 && Value(c).value / 16 == Value(d).value / 16)
    || (Value(c).Some? && Value(d).Some? && beyond == 3 && Value(c).value / 4 == Value(d).value / 4)
  }

  /** The same text, up to the spare bits of its last letter. */
  ghost predicate Spells(t: string, u: string) {
    && |t| == |u|
    && (forall i :: 0 <= i < |t| - 1 ==> t[i] == u[i])
    && (t != "" ==> SameUsed(t[|t| - 1], u[|t| - 1], |t| % 4))
  }

  lemma SpellsGroup(t: string, u: string)
    requires |t| >= 4
    ensures Spells(t, u) <==> |u| >= 4 && t[..4] == u[..4] && Spells(t[4..], u[4..])
  {
    if |u| == |t| {
      if |t| == 4 {
        assert t[4..] == "" && u[4..] == "";
        assert t[..4] == t && u[..4] == u;
      } else {
        assert |t[4..]| % 4 == |t| % 4;
        assert t[|t| - 1] == t[4..][|t| - 5] && u[|t| - 1] == u[4..][|t| - 5];
        SpellsFront(t, u);
      }
    }
  }

  lemma SpellsFront(t: string, u: string)
    requires |t| == |u| && |t| > 4
    ensures (forall i :: 0 <= i < |t| - 1 ==> t[i] == u[i]) <==>
            t[..4] == u[..4] && forall i :: 0 <= i < |t| - 5 ==> t[4..][i] == u[4..][i]
  {
    if t[..4] == u[..4] && forall i :: 0 <= i < |t| - 5 ==> t[4..][i] == u[4..][i] {
      forall i | 0 <= i < |t| - 1 ensures t[i] == u[i] {
        assert i < 4 ==> t[i] == t[..4][i] && u[i] == u[..4][i];
        assert i >= 4 ==> t[i] == t[4..][i - 4] && u[i] == u[4..][i - 4];
      }
    }
  }

  lemma ValueLetter(c: char)
    requires Value(c).Some?
    ensures Sextet(Value(c).value) == c
  {}

  lemma Ungroup(v: nat, w: nat, x: nat, y: nat)
    requires v < 64 && w < 64 && x < 64 && y < 64
    ensures B0(v, w) < 256 && B1(w, x) < 256 && B2(x, y) < 256
    ensures S0(B0(v, w)) == v && S1(B0(v, w), B1(w, x)) == w && S2(B1(w, x), B2(x, y)) == x && S3(B2(x, y)) == y
  {}

  lemma SpareOfTwo(v: nat, w: nat, a: nat)
    requires v < 64 && w < 64 && a < 256
    ensures B0(v, w) == a <==> v == S0(a) && w / 16 == S1(a, 0) / 16
  {}

  lemma Nibbles(h: nat, l: nat)
    requires l < 16
    ensures (h * 16 + l) / 16 == h && (h * 16 + l) % 16 == l
  {}

  lemma UsedOfThird(b: nat)
    requires b < 256
    ensures S2(b, 0) / 4 == b % 16
  {}

  lemma SpareOfThree(w: nat, x: nat, a: nat, b: nat)
    requires w < 64 && x < 64 && a < 256 && b < 256
    ensures w == S1(a, b) && x / 4 == S2(b, 0) / 4 ==> B1(w, x) == b
    ensures B1(w, x) == b ==> x / 4 == S2(b, 0) / 4
  {
    UsedOfThird(b);
    Nibbles(w % 16, x / 4);
    Nibbles(a % 4, b / 16);
    Nibbles(b / 16, b % 16);
  }

  lemma DecodeGroup(t: string)
    requires |t| >= 4 && DecodeLetters(t).Some?
    ensures
      var s := DecodeLetters(t).value;
      && Value(t[0]).Some? && Value(t[1]).Some? && Value(t[2]).Some? && Value(t[3]).Some? && |s| >= 3
      && DecodeLetters(t[4..]) == Some(s[3..])
      && s[0] == Byte(B0(Value(t[0]).value, Value(t[1]).value)) &&
         s[1] == Byte(B1(Value(t[1]).value, Value(t[2]).value))
      && s[2] == Byte(B2(Value(t[2]).value, Value(t[3]).value))
  {}

  lemma GroupSpelled(t: string, s: string)
    requires |t| >= 4 && DecodeLetters(t) == Some(s)
    ensures s[0] as int < 256 && s[1] as int < 256 && s[2] as int < 256
    ensures
      var a, b, c := s[0] as int, s[1] as int, s[2] as int;
      t[..4] == [Sextet(S0(a)), Sextet(S1(a, b)), Sextet(S2(b, c)), Sextet(S3(c))]
  {
    DecodeGroup(t);
    Ungroup(Value(t[0]).value, Value(t[1]).value, Value(t[2]).value, Value(t[3]).value);
    ValueLetter(t[0]);
    ValueLetter(t[1]);
    ValueLetter(t[2]);
    ValueLetter(t[3]);
  }

  lemma OneSpelled(t: string, s: string)
    requires |t| == 2 && DecodeLetters(t) == Some(s)
    ensures IsBytes(s) && |s| == 1
    ensures t[0] == Sextet(S0(s[0] as int)) && SameUsed(t[1], Sextet(S1(s[0] as int, 0)), 2)
  {
    var v, w := Value(t[0]).value, Value(t[1]).value;
    Ungroup(v, w, 0, 0);
    ValueLetter(t[0]);
    SpareOfTwo(v, w, s[0] as int);
    SextetValues(s[0] as int, 0, 0);
  }

  lemma TwoSpelled(t: string, s: string)
    requires |t| == 3 && DecodeLetters(t) == Some(s)
    ensures IsBytes(s) && |s| == 2 && t[0] == Sextet(S0(s[0] as int)) && t[1] == Sextet(S1(s[0] as int, s[1] as int))
    ensures SameUsed(t[2], Sextet(S2(s[1] as int, 0)), 3)
  {
    var v, w, x := Value(t[0]).value, Value(t[1]).value, Value(t[2]).value;
    Ungroup(v, w, x, 0);
    ValueLetter(t[0]);
    ValueLetter(t[1]);
    SpareOfThree(w, x, s[0] as int, s[1] as int);
    SextetValues(s[0] as int, s[1] as int, 0);
  }

  lemma SpellsTwo(t: string, u: string)
    requires |t| == 2 && |u| == 2 && t[0] == u[0] && SameUsed(t[1], u[1], 2)
    ensures Spells(t, u)
  {}

  lemma SpellsThree(t: string, u: string)
    requires |t| == 3 && |u| == 3 && t[0] == u[0] && t[1] == u[1] && SameUsed(t[2], u[2], 3)
    ensures Spells(t, u)
  {}

  lemma TailSpelled(t: string, s: string)
    requires 2 <= |t| < 4 && DecodeLetters(t) == Some(s)
    ensures IsBytes(s) && Spells(t, Encode(s))
  {
    if |t| == 2 {
      OneSpelled(t, s);
      EncodeTail(s);
      SpellsTwo(t, Encode(s));
    } else {
      TwoSpelled(t, s);
      EncodeTail(s);
      SpellsThree(t, Encode(s));
    }
  }

  /** Only spellings of the bytes decode to them. */
  lemma {:induction false} DecodedIsSpelled(t: string, s: string)
    requires DecodeLetters(t) == Some(s)
    ensures IsBytes(s) && Spells(t, Encode(s))
    decreases |t|
  {
    if 2 <= |t| < 4 {
      TailSpelled(t, s);
    } else if |t| >= 4 {
      DecodeGroup(t);
      GroupSpelled(t, s);
      DecodedIsSpelled(t[4..], s[3..]);
      BytesJoin(s);
      EncodeGroup(s);
      assert Encode(s)[..4] == t[..4] && Encode(s)[4..] == Encode(s[3..]);
      SpellsGroup(t, Encode(s));
    }
  }

  lemma BytesJoin(s: string)
    requires |s| >= 3 && s[0] as int < 256 && s[1] as int < 256 && s[2] as int < 256 && IsBytes(s[3..])
    ensures IsBytes(s)
  {
    forall i | 0 <= i < |s| ensures s[i] as int < 256 {
      assert i >= 3 ==> s[i] == s[3..][i - 3];
    }
  }

  lemma OneDecodes(t: string, a: nat)
    requires a < 256 && |t| == 2 && Value(t[0]) == Some(S0(a)) && Value(t[1]).Some? &&
             Value(t[1]).value / 16 == S1(a, 0) / 16
    ensures DecodeLetters(t) == Some([a as char])
  {
    SpareOfTwo(S0(a), Value(t[1]).value, a);
  }

  lemma TwoDecode(t: string, a: nat, b: nat)
    requires a < 256 && b < 256 && |t| == 3 && Value(t[0]) == Some(S0(a)) && Value(t[1]) == Some(S1(a, b))
    requires Value(t[2]).Some? && Value(t[2]).value / 4 == S2(b, 0) / 4
    ensures DecodeLetters(t) == Some([a as char, b as char])
  {
    Regroup(a, b, 0);
    SpareOfThree(S1(a, b), Value(t[2]).value, a, b);
  }

  lemma UsedValue(c: char, n: nat, beyond: nat)
    requires n < 64 && SameUsed(c, Sextet(n), beyond)
    ensures Value(c).Some? && (beyond == 2 ==> Value(c).value / 16 == n / 16) &&
            (beyond == 3 ==> Value(c).value / 4 == n / 4)
  {
    LetterValue(n);
  }

  lemma OneTailDecodes(t: string, s: string)
    requires IsBytes(s) && |s| == 1 && Spells(t, Encode(s))
    ensures DecodeLetters(t) == Some(s)
  {
    var a := s[0] as int;
    EncodeTail(s);
    SextetsFit(a, 0, 0);
    LetterValue(S0(a));
    UsedValue(t[1], S1(a, 0), 2);
    OneDecodes(t, a);
    assert s == [s[0]];
  }

  lemma TwoTailDecodes(t: string, s: string)
    requires IsBytes(s) && |s| == 2 && Spells(t, Encode(s))
    ensures DecodeLetters(t) == Some(s)
  {
    var a, b := s[0] as int, s[1] as int;
    EncodeTail(s);
    SextetsFit(a, b, 0);
    LetterValue(S0(a));
    LetterValue(S1(a, b));
    UsedValue(t[2], S2(b, 0), 3);
    TwoDecode(t, a, b);
    assert s == [s[0], s[1]];
  }

  lemma SpelledGroup(t: string, s: string)
    requires IsBytes(s) && |s| >= 3 && Spells(t, Encode(s))
    ensures |t| >= 4 && Spells(t[4..], Encode(s[3..]))
    ensures
      var a, b, c := s[0] as int, s[1] as int, s[2] as int;
      t[0] == Sextet(S0(a)) && t[1] == Sextet(S1(a, b)) && t[2] == Sextet(S2(b, c)) && t[3] == Sextet(S3(c))
  {
    EncodeGroup(s);
    SpellsGroup(t, Encode(s));
    assert Encode(s)[4..] == Encode(s[3..]);
    assert t[0] == t[..4][0] && t[1] == t[..4][1] && t[2] == t[..4][2] && t[3] == t[..4][3];
  }

  /** Every spelling of the bytes decodes to them. */
  lemma {:induction false} SpelledDecodes(t: string, s: string)
    requires IsBytes(s) && Spells(t, Encode(s))
    ensures DecodeLetters(t) == Some(s)
    decreases |s|
  {
    if |s| == 1 {
      OneTailDecodes(t, s);
    } else if |s| == 2 {
      TwoTailDecodes(t, s);
    } else if |s| >= 3 {
      SpelledGroup(t, s);
      SpelledDecodes(t[4..], s[3..]);
      FourLetters(t, s[0] as int, s[1] as int, s[2] as int, s[3..]);
      assert s == [s[0], s[1], s[2]] + s[3..];
    }
  }

  lemma Base64RoundTrip(s: string)
    requires IsBytes(s)
    ensures Decode(Encode(s)) == Some(s)
  {
    EncodeHasNoBreaks(s);
    NothingToSkip(Encode(s));
    SpelledDecodes(Encode(s), s);
  }

  // ---- Page tokens ----

  predicate IsHex(c: char) {
    '0' <= c <= '9' || 'a' <= c <= 'f'
  }

  function IdPrefix(kind: string): string {
    if kind == "instance" then "i-" else kind + "-"
  }

  predicate ValidPageId(kind: string, id: string) {
    var prefix := IdPrefix(kind);
    prefix <= id && |id| == |prefix| + 17 && forall i :: |prefix| <= i < |id| ==> IsHex(id[i])
  }

  function EncodePageToken(kind: string, last: string): string
    requires IsBytes(kind) && IsBytes(last)
  {
    Encode(kind + ":" + last)
  }

  datatype Cursor = FromStart | After(id: string) | BadToken

  function DecodePageToken(kind: string, token: string): Cursor {
    if token == "" then FromStart
    else
      var value := Decode(token);
      var prefix := kind + ":";
      if value.None? || !(prefix <= value.value) then BadToken
      else
        var id := value.value[|prefix|..];
        if ValidPageId(kind, id) then After(id) else BadToken
  }

  lemma ValidIdIsBytes(kind: string, id: string)
    requires IsBytes(kind) && ValidPageId(kind, id)
    ensures IsBytes(id)
  {
    var prefix := IdPrefix(kind);
    assert IsBytes(prefix);
    forall i | 0 <= i < |id| ensures id[i] as int < 256 {
      assert i < |prefix| ==> id[i] == prefix[i];
    }
  }

  /** A token resumes after exactly the id it was made from. */
  lemma TokensRoundTrip(kind: string, id: string)
    requires IsBytes(kind) && ValidPageId(kind, id)
    ensures IsBytes(id) && DecodePageToken(kind, EncodePageToken(kind, id)) == After(id)
  {
    ValidIdIsBytes(kind, id);
    var text := kind + ":" + id;
    Base64RoundTrip(text);
    EncodeHasNoBreaks(text);
    assert text[|kind + ":"|..] == id;
  }

  predicate IsKind(kind: string) {
    IsBytes(kind) && forall i :: 0 <= i < |kind| ==> kind[i] != ':'
  }

  function FirstColon(s: string): nat {
    if s == "" || s[0] == ':' then 0 else 1 + FirstColon(s[1..])
  }

  lemma {:induction false} ColonEndsKind(kind: string, rest: string)
    requires forall i :: 0 <= i < |kind| ==> kind[i] != ':'
    ensures FirstColon(kind + (":" + rest)) == |kind|
  {
    if kind != "" {
      ColonEndsKind(kind[1..], rest);
      assert (kind + (":" + rest))[1..] == kind[1..] + (":" + rest);
    }
  }

  lemma KindOfText(kind: string, other: string, id: string)
    requires IsKind(kind) && IsKind(other) && other + ":" <= kind + ":" + id
    ensures kind == other
  {
    var text := kind + ":" + id;
    var rest := text[|other| + 1..];
    assert text == other + (":" + rest) && text == kind + (":" + id);
    ColonEndsKind(other, rest);
    ColonEndsKind(kind, id);
    assert text[..|kind|] == kind && text[..|other|] == other;
  }

  /** A token of one kind of resource is refused for every other kind. */
  lemma TokensAreOfOneKind(kind: string, other: string, id: string)
    requires IsKind(kind) && IsKind(other) && kind != other && ValidPageId(kind, id)
    ensures IsBytes(id) && DecodePageToken(other, EncodePageToken(kind, id)).BadToken?
  {
    ValidIdIsBytes(kind, id);
    var text := kind + ":" + id;
    Base64RoundTrip(text);
    EncodeHasNoBreaks(text);
    if other + ":" <= text {
      KindOfText(kind, other, id);
    }
  }

  /** Exactly these tokens resume after an id: the token made from it, with line breaks anywhere in it
      and any spare bits in its last letter. Every other token starts over, if empty, or is refused. */
  lemma TokensAreChecked(kind: string, token: string, id: string)
    requires IsBytes(kind)
    ensures DecodePageToken(kind, token) == After(id) <==>
            ValidPageId(kind, id) && IsBytes(id) && Spells(WithoutBreaks(token), EncodePageToken(kind, id))
  {
    var text, letters := kind + ":" + id, WithoutBreaks(token);
    if DecodePageToken(kind, token) == After(id) {
      var value := Decode(token).value;
      assert value == text;
      ValidIdIsBytes(kind, id);
      DecodedIsSpelled(letters, text);
    }
    if ValidPageId(kind, id) && IsBytes(id) && Spells(letters, Encode(text)) {
      SpelledDecodes(letters, text);
      EncodeHasNoBreaks(text);
      assert text[|kind + ":"|..] == id;
    }
  }
}
