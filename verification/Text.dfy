/** The parts of Go's `strings` and `strconv` packages the models rely on.
    A string is a sequence of code points. */
module Text {
  import opened Wrappers

  predicate OccursAt(s: string, pat: string, i: int) {
    0 <= i <= |s| && pat <= s[i..]
  }

  lemma OccursInTail(s: string, pat: string, i: int)
    requires s != ""
    ensures i > 0 ==> (OccursAt(s, pat, i) <==> OccursAt(s[1..], pat, i - 1))
  {
    if 0 < i <= |s| {
      assert s[i..] == s[1..][i - 1..];
    }
  }

  /** strings.Index: the first position at which `pat` occurs in `s`, or -1. */
  function Index(s: string, pat: string): (i: int)
    ensures -1 <= i
    ensures i >= 0 ==> OccursAt(s, pat, i)
    ensures forall j :: OccursAt(s, pat, j) ==> 0 <= i <= j
  {
    if OccursAt(s, pat, 0) then 0
    else if s == [] then -1
    else
      var r := Index(s[1..], pat);
      assert forall j :: OccursAt(s, pat, j) ==> j > 0 && OccursAt(s[1..], pat, j - 1) by {
        forall j | OccursAt(s, pat, j) ensures j > 0 && OccursAt(s[1..], pat, j - 1) {
          OccursInTail(s, pat, j);
        }
      }
      OccursInTail(s, pat, r + 1);
      if r < 0 then -1 else r + 1
  }

  /** Unicode White_Space, as strings.TrimSpace cuts it. */
  predicate IsSpace(c: char) {
    || '\t' <= c <= '\r' || c == ' ' || c == '\U{85}' || c == '\U{A0}' || c == '\U{1680}'
    || '\U{2000}' <= c <= '\U{200A}' || c == '\U{2028}' || c == '\U{2029}'
    || c == '\U{202F}' || c == '\U{205F}' || c == '\U{3000}'
  }

  function TrimLeft(s: string): (r: string)
    ensures r == [] || !IsSpace(r[0])
    ensures |r| <= |s| && r == s[|s| - |r|..]
  {
    if s != [] && IsSpace(s[0]) then TrimLeft(s[1..]) else s
  }

  function TrimRight(s: string): (r: string)
    ensures r == [] || !IsSpace(r[|r| - 1])
    ensures |r| <= |s| && r == s[..|r|]
  {
    if s != [] && IsSpace(s[|s| - 1]) then TrimRight(s[..|s| - 1]) else s
  }

  /** strings.TrimSpace */
  function TrimSpace(s: string): (r: string)
    ensures r == [] || (!IsSpace(r[0]) && !IsSpace(r[|r| - 1]))
  {
    var l := TrimLeft(s);
    var r := TrimRight(l);
    assert r != [] ==> r[0] == l[0];
    r
  }

  predicate IsDigit(c: char) { '0' <= c <= '9' }

  const MAX_INT: int := 0x7fff_ffff_ffff_ffff

  function DigitsValue(s: string): nat
    requires forall i :: 0 <= i < |s| ==> IsDigit(s[i])
  {
    if s == [] then 0
    else
      var last := s[|s| - 1];
      assert IsDigit(last);
      DigitsValue(s[..|s| - 1]) * 10 + (last as int - '0' as int)
  }

  predicate AllDigits(s: string) { forall i :: 0 <= i < |s| ==> IsDigit(s[i]) }

  /** strconv.Atoi on a 64-bit platform: an optional sign, then at least one digit, in range. */
  function Atoi(s: string): Option<int> {
    var signed := s != [] && (s[0] == '+' || s[0] == '-');
    var digits := if signed then s[1..] else s;
    if digits == [] || !AllDigits(digits) then None
    else
      var n: int := DigitsValue(digits);
      var v := if signed && s[0] == '-' then -n else n;
      if -MAX_INT - 1 <= v <= MAX_INT then Some(v) else None
  }

  /** The decimal form of `n`, as %d prints it. */
  function Decimal(n: nat): (s: string)
    ensures s != [] && AllDigits(s)
  {
    var d := [('0' as int + n % 10) as char];
    if n < 10 then d else Decimal(n / 10) + d
  }

  lemma {:induction false} DecimalValue(n: nat)
    ensures DigitsValue(Decimal(n)) == n
  {
    var s := Decimal(n);
    if n >= 10 {
      DecimalValue(n / 10);
      assert s[..|s| - 1] == Decimal(n / 10);
    } else {
      assert s[..|s| - 1] == [];
    }
  }

  lemma AtoiDecimal(n: nat)
    requires n <= MAX_INT
    ensures Atoi(Decimal(n)) == Some(n)
  {
    DecimalValue(n);
  }
}
