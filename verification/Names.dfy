/** Namespace names: which names on the host are ours. */
module Names {
  import opened Ipv4
  import opened Rows

  const PREFIX: string := "nx-vpc-"
  const INT64_MAX: int := 0x7fff_ffff_ffff_ffff

  function DigitChar(d: nat): char
    requires d < 10
  {
    '0' + d as char
  }

  predicate IsDigit(c: char) {
    '0' <= c <= '9'
  }

  function DigitValue(c: char): (d: nat)
    requires IsDigit(c)
    ensures d < 10
  {
    c as int - '0' as int
  }

  /** Decimal text without leading zeros. */
  function Format(n: nat): (s: string)
    ensures |s| > 0 && forall i :: 0 <= i < |s| ==> IsDigit(s[i])
  {
    if n < 10 then [DigitChar(n)] else Format(n / 10) + [DigitChar(n % 10)]
  }

  /** The value of a run of digits. */
  function Digits(s: string): Option<nat> {
    if s == "" then Some(0)
    else if !IsDigit(s[|s| - 1]) then None
    else
      var front := Digits(s[..|s| - 1]);
      if front.None? then None else Some(front.value * 10 + DigitValue(s[|s| - 1]))
  }

  /** ParseInt in base ten: an optional sign, at least one digit, and a 64-bit result. */
  function ParseInt(s: string): Option<int> {
    var signed := |s| > 0 && (s[0] == '+' || s[0] == '-');
    var body := if signed then s[1..] else s;
    if body == "" || Digits(body).None? then None
    else
      var v: int := if signed && s[0] == '-' then 0 - Digits(body).value else Digits(body).value;
      if -INT64_MAX - 1 <= v <= INT64_MAX then Some(v) else None
  }

  function Name(index: int): Option<string> {
    if index < 1 || index > MAX_INDEX then None else Some(PREFIX + Format(index))
  }

  predicate HasPrefix(s: string, p: string) {
    p <= s
  }

  /** validateName: the lifecycle functions touch nothing it refuses. */
  predicate ValidName(name: string) {
    HasPrefix(name, PREFIX) && |name| <= 15 &&
    var index := ParseInt(name[|PREFIX|..]);
    index.Some? && Name(index.value) == Some(name)
  }

  /** ownedIndex: what the orphan sweep takes for its own. */
  function OwnedIndex(name: string): Option<int> {
    if !HasPrefix(name, PREFIX) then None
    else
      var index := ParseInt(name[|PREFIX|..]);
      if index.Some? && Name(index.value) == Some(name) then index else None
  }

  lemma {:induction false} FormatThenDigits(n: nat)
    ensures Digits(Format(n)) == Some(n)
  {
    if n < 10 {
      assert Format(n)[..0] == "";
      assert Digits(Format(n)[..0]) == Some(0);
    } else {
      FormatThenDigits(n / 10);
      assert Format(n)[..|Format(n)| - 1] == Format(n / 10);
    }
  }

  lemma {:induction false} FormatIsShort(n: nat, digits: nat)
    requires digits > 0 && n < Power(digits)
    ensures |Format(n)| <= digits
  {
    if n >= 10 {
      assert digits > 1;
      FormatIsShort(n / 10, digits - 1);
    }
  }

  function Power(n: nat): nat {
    if n == 0 then 1 else 10 * Power(n - 1)
  }

  lemma ParseOfFormat(n: nat)
    requires n <= INT64_MAX
    ensures ParseInt(Format(n)) == Some(n)
  {
    FormatThenDigits(n);
    assert IsDigit(Format(n)[0]);
  }

  lemma NameParses(index: int)
    requires 1 <= index <= MAX_INDEX
    ensures Name(index).Some? && HasPrefix(Name(index).value, PREFIX) &&
            ParseInt(Name(index).value[|PREFIX|..]) == Some(index)
    ensures |Name(index).value| <= 15
  {
    ParseOfFormat(index);
    assert (PREFIX + Format(index))[|PREFIX|..] == Format(index);
    assert Power(8) == 10 * Power(7) && Power(7) == 10000000;
    FormatIsShort(index, 8);
  }

  /** The sweep owns exactly the canonical names of valid indexes: no sign, no leading zero, no other
      index; and it reads off the index the name was made from. */
  lemma OwnedNamesAreCanonical(name: string, index: int)
    ensures OwnedIndex(name) == Some(index) <==> Name(index) == Some(name)
  {
    if Name(index) == Some(name) {
      NameParses(index);
    }
  }

  /** Listing and deleting accept exactly the names the sweep owns. */
  lemma ValidNamesAreOwned(name: string)
    ensures ValidName(name) <==> OwnedIndex(name).Some?
  {
    if OwnedIndex(name).Some? {
      NameParses(OwnedIndex(name).value);
    }
  }

  /** Two VPCs never share a namespace. */
  lemma NamesDiffer(a: int, b: int)
    requires Name(a).Some? && Name(a) == Name(b)
    ensures a == b
  {
    NameParses(a);
    NameParses(b);
  }
}
