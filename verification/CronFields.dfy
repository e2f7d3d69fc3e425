/** Cron fields: comma-separated terms, each a start, an end and a step. */
module CronFields {
  import opened Wrappers
  import opened Text
  import opened Arithmetic

  datatype Term = Term(start: int, end: int, step: int)

  datatype FieldError = EmptyTerm | InvalidStep | InvalidRange | InvalidValue | OutOfRange | NoValues

  // ----- strings.Split and friends -----

  function Has(s: string, c: char): bool { Index(s, [c]) >= 0 }

  lemma OccursChar(s: string, c: char, i: int)
    ensures OccursAt(s, [c], i) <==> 0 <= i < |s| && s[i] == c
  {
    if 0 <= i < |s| { assert s[i..][0] == s[i]; }
  }

  lemma IndexOfChar(before: string, c: char, after: string)
    requires c !in before
    ensures Index(before + [c] + after, [c]) == |before|
  {
    var s := before + [c] + after;
    OccursChar(s, c, |before|);
    OccursChar(s, c, Index(s, [c]));
    assert forall k :: 0 <= k < |before| ==> s[k] == before[k];
  }

  lemma NoChar(s: string, c: char)
    requires c !in s
    ensures Index(s, [c]) == -1
  {
    OccursChar(s, c, Index(s, [c]));
  }

  /** strings.Split(s, sep) for a one-character separator. */
  function Split(s: string, sep: char): (parts: seq<string>)
    ensures parts != []
    decreases |s|
  {
    var i := Index(s, [sep]);
    if i < 0 then [s] else
      assert |s[i..]| >= 1;
      [s[..i]] + Split(s[i + 1..], sep)
  }

  function Join(parts: seq<string>, sep: char): string
    requires parts != []
  {
    if |parts| == 1 then parts[0] else parts[0] + [sep] + Join(parts[1..], sep)
  }

  lemma {:induction false} SplitInvertsJoin(parts: seq<string>, sep: char)
    requires parts != [] && forall p :: p in parts ==> sep !in p
    ensures Split(Join(parts, sep), sep) == parts
    decreases |parts|
  {
    assert parts[0] in parts;
    if |parts| == 1 {
      NoChar(parts[0], sep);
    } else {
      assert forall p :: p in parts[1..] ==> p in parts;
      SplitInvertsJoin(parts[1..], sep);
      var s := Join(parts, sep);
      IndexOfChar(parts[0], sep, Join(parts[1..], sep));
      assert s[..|parts[0]|] == parts[0] && s[|parts[0]| + 1..] == Join(parts[1..], sep);
      assert Split(s, sep) == [parts[0]] + parts[1..];
    }
  }

  // ----- one term -----

  /** The range part of a term: everything before a '/'. */
  function ParseRange(text: string, lo: int, hi: int): Result<(int, int), FieldError> {
    if text == "*" then Ok((lo, hi))
    else if Has(text, '-') then
      var i := Index(text, "-");
      assert |text[i..]| >= 1;
      var a, b := Atoi(text[..i]), Atoi(text[i + 1..]);
      if a.None? || b.None? then Err(InvalidRange) else Ok((a.value, b.value))
    else
      var v := Atoi(text);
      if v.None? then Err(InvalidValue) else Ok((v.value, v.value))
  }

  predicate InRange(t: Term, lo: int, hi: int) { lo <= t.start <= t.end <= hi && 1 <= t.step <= MAX_INT }

  function ParseTerm(part: string, lo: int, hi: int): (r: Result<Term, FieldError>)
    ensures r.Ok? ==> InRange(r.value, lo, hi)
  {
    if part == "" then Err(EmptyTerm)
    else
      var i := Index(part, "/");
      var step := if i < 0 then Some(1) else Atoi(part[i + 1..]);
      if step.None? || step.value < 1 then Err(InvalidStep)
      else
        match ParseRange(if i < 0 then part else part[..i], lo, hi)
        case Err(e) => Err(e)
        case Ok((a, b)) =>
          if a < lo || b > hi || a > b then Err(OutOfRange) else Ok(Term(a, b, step.value))
  }

  // ----- the values of a term -----

  const MODULUS: int := 0x1_0000_0000_0000_0000

  /** Addition of a positive step to an int64. */
  function AddStep(v: int, step: int): int { if v + step > MAX_INT then v + step - MODULUS else v + step }

  /** How far the loop over a term's values can still go, allowing for its wrapping around. */
  function Rank(t: Term, v: int): int {
    if t.start + t.step <= MAX_INT then t.end - v
    else if v < -1000 then 2 * (v + t.step + 1000) + 1
    else 2 * (v + 1000)
  }

  /** The values the loop over a term can be at. */
  predicate Visits(t: Term, v: int) {
    if t.start + t.step <= MAX_INT then t.start <= v <= t.end && (v == t.start || t.step < 60)
    else -200 <= v <= t.start || (v < -1000 && -200 <= v + t.step <= t.start)
  }

  /** The values the loop adds from `v` on. */
  function ValuesFrom(t: Term, v: int): set<int>
    requires InRange(t, 0, 59) && Visits(t, v)
    decreases Rank(t, v)
  {
    var v' := AddStep(v, t.step);
    {v} + if v' > t.end then {} else ValuesFrom(t, v')
  }

  predicate OnStep(t: Term, v: int)
    requires t.step > 0
  {
    (v - t.start) % t.step == 0
  }

  function Progression(t: Term): set<int>
    requires t.step > 0
  {
    set v | t.start <= v <= t.end && OnStep(t, v)
  }

  lemma {:induction false} ProgressionFrom(t: Term, v: int, k: nat)
    requires InRange(t, 0, 59) && t.start + t.step <= MAX_INT
    requires Visits(t, v) && v - t.start == k * t.step
    ensures forall x :: x in ValuesFrom(t, v) <==> v <= x <= t.end && OnStep(t, x)
    decreases t.end - v
  {
    hide Rank, OnStep;
    var v' := v + t.step;
    assert AddStep(v, t.step) == v';
    NextMultiple(k, t.step);
    OnlyMultiples(t, v, k);
    if v' <= t.end { ProgressionFrom(t, v', k + 1); }
  }

  lemma OnlyMultiples(t: Term, v: int, k: nat)
    requires t.step > 0 && v - t.start == k * t.step
    ensures OnStep(t, v) && forall x :: v < x < v + t.step ==> !OnStep(t, x)
  {
    Divided(k, t.step, 0);
    NextMultiple(k, t.step);
    forall x | v < x < v + t.step ensures !OnStep(t, x) { Between(k, t.step, x - t.start); }
  }

  lemma NextMultiple(k: nat, m: int)
    ensures (k + 1) * m == k * m + m
  {
  }

  lemma Between(k: nat, m: int, d: int)
    requires m > 0 && k * m < d < (k + 1) * m
    ensures d % m != 0
  {
    NextMultiple(k, m);
    Divided(k, m, d - k * m);
  }

  /** The loop yields the stated progression exactly when its first step does not overflow; a
      larger step wraps around to values below the start. */
  lemma TermExact(t: Term)
    requires InRange(t, 0, 59)
    ensures ValuesFrom(t, t.start) == Progression(t) <==> t.start + t.step <= MAX_INT
  {
    if t.start + t.step <= MAX_INT {
      ProgressionFrom(t, t.start, 0);
    } else {
      var wrapped := AddStep(t.start, t.step);
      assert wrapped in ValuesFrom(t, wrapped);
      assert wrapped < t.start && wrapped !in Progression(t);
    }
  }

  // ----- a field -----

  function TermValues(t: Term): set<int>
    requires InRange(t, 0, 59)
  {
    ValuesFrom(t, t.start)
  }

  function FieldFrom(parts: seq<string>, lo: int, hi: int, out: set<int>): Result<set<int>, FieldError>
    requires 0 <= lo <= hi <= 59
    decreases |parts|
  {
    if parts == [] then Ok(out)
    else
      match ParseTerm(parts[0], lo, hi)
      case Err(e) => Err(e)
      case Ok(t) => FieldFrom(parts[1..], lo, hi, out + TermValues(t))
  }

  function ParseField(field: string, lo: int, hi: int): Result<set<int>, FieldError>
    requires 0 <= lo <= hi <= 59
  {
    FieldFrom(Split(field, ','), lo, hi, {})
  }

  method AddTerm(t: Term, out: set<int>) returns (r: set<int>)
    requires InRange(t, 0, 59)
    ensures r == out + TermValues(t)
  {
    r := out;
    var v := t.start;
    while v <= t.end
      invariant v <= t.end ==> Visits(t, v)
      invariant r + (if v <= t.end then ValuesFrom(t, v) else {}) == out + TermValues(t)
      decreases if v <= t.end then Rank(t, v) else -1
    {
      r := r + {v};
      v := AddStep(v, t.step);
    }
  }

  method ParseCronField(field: string, lo: int, hi: int) returns (r: Result<set<int>, FieldError>)
    requires 0 <= lo <= hi <= 59
    ensures r == ParseField(field, lo, hi)
    ensures r.Ok? ==> r.value != {}
  {
    hide ValuesFrom, ParseTerm;
    var parts := Split(field, ',');
    var out: set<int> := {};
    var k := 0;
    assert parts[0..] == parts;
    while k < |parts|
      invariant 0 <= k <= |parts|
      invariant FieldFrom(parts[k..], lo, hi, out) == ParseField(field, lo, hi)
      invariant k > 0 ==> out != {}
    {
      assert parts[k..][0] == parts[k] && parts[k..][1..] == parts[k + 1..];
      var term := ParseTerm(parts[k], lo, hi);
      if term.Err? { return Err(term.error); }
      StartIn(term.value);
      out := AddTerm(term.value, out);
      k := k + 1;
    }
    if out == {} { return Err(NoValues); }
    return Ok(out);
  }

  lemma StartIn(t: Term)
    requires InRange(t, 0, 59)
    ensures t.start in TermValues(t)
  {
  }

  /** The other ways to write a term: a star, one value, or a range, each with a step or without. */
  lemma ParseForms(t: Term, lo: int, hi: int)
    requires 0 <= lo && hi <= 59 && InRange(t, lo, hi)
    ensures var a, b, n := Decimal(t.start), Decimal(t.end), Decimal(t.step);
            && ParseTerm("*", lo, hi) == Ok(Term(lo, hi, 1))
            && ParseTerm("*/" + n, lo, hi) == Ok(Term(lo, hi, t.step))
            && ParseTerm(a, lo, hi) == Ok(Term(t.start, t.start, 1))
            && ParseTerm(a + "/" + n, lo, hi) == Ok(Term(t.start, t.start, t.step))
            && ParseTerm(a + "-" + b, lo, hi) == Ok(Term(t.start, t.end, 1))
  {
    hide Decimal, Atoi, Index;
    var a, b, n := Decimal(t.start), Decimal(t.end), Decimal(t.step);
    AtoiDecimal(t.start);
    AtoiDecimal(t.end);
    AtoiDecimal(t.step);
    DigitsHold(a, '-');
    DigitsHold(a, '/');
    DigitsHold(b, '/');
    assert "*/" + n == "*" + "/" + n;
    StepAfter("*", n);
    StepAfter(a, n);
    NoChar("*", '/');
    NoChar(a, '/');
    NoChar(a, '-');
    NoChar(a + "-" + b, '/');
    IndexOfChar(a, '-', b);
    assert a != "*" by { assert IsDigit(a[0]) && !IsDigit('*'); }
    assert (a + "-" + b)[..|a|] == a && (a + "-" + b)[|a| + 1..] == b;
    assert a + "-" + b != "*" by { assert |a + "-" + b| > 1; }
  }

  lemma StepAfter(range: string, n: string)
    requires '/' !in range
    ensures var part := range + "/" + n;
            Index(part, "/") == |range| && part[..|range|] == range && part[|range| + 1..] == n
  {
    hide Index;
    IndexOfChar(range, '/', n);
  }

  predicate AllIn(terms: seq<Term>, lo: int, hi: int) {
    forall k :: 0 <= k < |terms| ==> InRange(terms[k], lo, hi)
  }

  /** The first step of each term stays within an int64. */
  predicate StepsFit(terms: seq<Term>) { forall k :: 0 <= k < |terms| ==> terms[k].start + terms[k].step <= MAX_INT }

  /** The values are exactly the union of the progressions the terms stand for. */
  ghost predicate Denotes(values: set<int>, terms: seq<Term>)
    requires AllIn(terms, 0, 59)
  {
    forall v :: v in values <==> exists k :: 0 <= k < |terms| && v in Progression(terms[k])
  }

  predicate AllParse(parts: seq<string>, lo: int, hi: int) {
    forall k :: 0 <= k < |parts| ==> ParseTerm(parts[k], lo, hi).Ok?
  }

  function TermsOf(parts: seq<string>, lo: int, hi: int): (terms: seq<Term>)
    requires 0 <= lo && hi <= 59 && AllParse(parts, lo, hi)
    ensures |terms| == |parts| && AllIn(terms, lo, hi) && AllIn(terms, 0, 59)
  {
    seq(|parts|, k requires 0 <= k < |parts| => ParseTerm(parts[k], lo, hi).value)
  }

  /** A field parses just when each of its terms does, to all the values their loops add. */
  lemma {:induction false} FieldIsSum(parts: seq<string>, lo: int, hi: int, out: set<int>)
    requires 0 <= lo <= hi <= 59
    ensures FieldFrom(parts, lo, hi, out).Ok? <==> AllParse(parts, lo, hi)
    ensures AllParse(parts, lo, hi) ==>
              forall v :: v in FieldFrom(parts, lo, hi, out).value <==>
                v in out || exists k :: 0 <= k < |parts| && v in TermValues(TermsOf(parts, lo, hi)[k])
    decreases |parts|
  {
    hide ParseTerm, TermValues;
    if parts != [] && ParseTerm(parts[0], lo, hi).Ok? {
      var t := ParseTerm(parts[0], lo, hi).value;
      var rest := parts[1..];
      assert forall k :: 0 <= k < |rest| ==> rest[k] == parts[k + 1];
      FieldIsSum(rest, lo, hi, out + TermValues(t));
      if AllParse(rest, lo, hi) {
        assert forall k :: 0 < k < |parts| ==> parts[k] == rest[k - 1];
        assert AllParse(parts, lo, hi);
        var terms, after := TermsOf(parts, lo, hi), TermsOf(rest, lo, hi);
        assert terms[0] == t && forall k :: 0 <= k < |rest| ==> after[k] == terms[k + 1];
        forall v ensures v in FieldFrom(parts, lo, hi, out).value <==>
                v in out || exists k :: 0 <= k < |parts| && v in TermValues(terms[k])
        {
          if k :| 0 <= k < |parts| && v in TermValues(terms[k]) {
            if k > 0 { assert after[k - 1] == terms[k]; }
          }
        }
      }
    }
  }

  /** The values of a term whose first step overflows include a negative one. */
  lemma Wraps(t: Term) returns (v: int)
    requires InRange(t, 0, 59) && t.start + t.step > MAX_INT
    ensures v < 0 && v in TermValues(t)
  {
    v := AddStep(t.start, t.step);
    assert v in ValuesFrom(t, v);
  }

  lemma SumIsUnion(values: set<int>, terms: seq<Term>)
    requires AllIn(terms, 0, 59)
    requires forall v :: v in values <==> exists k :: 0 <= k < |terms| && v in TermValues(terms[k])
    ensures Denotes(values, terms) <==> StepsFit(terms)
    ensures !StepsFit(terms) ==> exists v :: v in values && v < 0
  {
    hide ValuesFrom;
    forall k | 0 <= k < |terms| ensures terms[k].start + terms[k].step <= MAX_INT ==> TermValues(terms[k]) == Progression(terms[k]) {
      TermExact(terms[k]);
    }
    if !StepsFit(terms) {
      var k :| 0 <= k < |terms| && terms[k].start + terms[k].step > MAX_INT;
      var v := Wraps(terms[k]);
      assert v in values;
      assert forall j :: 0 <= j < |terms| ==> v !in Progression(terms[j]);
    }
  }

  /** A field parses just when each of its terms does; its values are never none, and they are exactly
      the union of the terms' progressions, and within bounds, if and only if no term's first step
      overflows. */
  lemma FieldIsUnion(field: string, lo: int, hi: int)
    requires 0 <= lo <= hi <= 59
    ensures ParseField(field, lo, hi).Ok? <==> AllParse(Split(field, ','), lo, hi)
    ensures ParseField(field, lo, hi).Ok? ==>
              var values, terms := ParseField(field, lo, hi).value, TermsOf(Split(field, ','), lo, hi);
              && values != {}
              && (Denotes(values, terms) <==> StepsFit(terms))
              && ((forall v :: v in values ==> lo <= v <= hi) <==> StepsFit(terms))
  {
    hide ParseTerm, ValuesFrom, TermValues;
    var parts := Split(field, ',');
    FieldIsSum(parts, lo, hi, {});
    if AllParse(parts, lo, hi) {
      var values, terms := ParseField(field, lo, hi).value, TermsOf(parts, lo, hi);
      SumIsUnion(values, terms);
      StartIn(terms[0]);
    }
  }

  // ----- what a written term means -----

  function PrintTerm(t: Term): string
    requires t.start >= 0 && t.end >= 0 && t.step >= 0
  {
    Decimal(t.start) + "-" + Decimal(t.end) + "/" + Decimal(t.step)
  }

  lemma DigitsHold(s: string, c: char)
    requires AllDigits(s) && !IsDigit(c)
    ensures c !in s
  {
  }

  /** A term written `a-b/n` is read back. */
  lemma ParseInvertsPrint(t: Term, lo: int, hi: int)
    requires 0 <= lo && hi <= 59 && InRange(t, lo, hi)
    ensures ParseTerm(PrintTerm(t), lo, hi) == Ok(t)
  {
    hide Decimal, Atoi, Index;
    var a, b, n := Decimal(t.start), Decimal(t.end), Decimal(t.step);
    var range := a + "-" + b;
    DigitsHold(a, '-');
    DigitsHold(a, '/');
    DigitsHold(b, '/');
    IndexOfChar(range, '/', n);
    IndexOfChar(a, '-', b);
    var part := range + "/" + n;
    assert PrintTerm(t) == part;
    assert part[..|range|] == range && part[|range| + 1..] == n;
    assert range[..|a|] == a && range[|a| + 1..] == b;
    AtoiDecimal(t.start);
    AtoiDecimal(t.end);
    AtoiDecimal(t.step);
    assert range != "*" by { assert |range| > 1; }
  }

  function PrintField(terms: seq<Term>): string
    requires terms != [] && AllIn(terms, 0, 59)
  {
    Join(seq(|terms|, k requires 0 <= k < |terms| => PrintTerm(terms[k])), ',')
  }

  /** A written field is read back as its terms. */
  lemma FieldInvertsPrint(terms: seq<Term>, lo: int, hi: int)
    requires 0 <= lo <= hi <= 59 && terms != [] && AllIn(terms, lo, hi)
    ensures AllIn(terms, 0, 59) && AllParse(Split(PrintField(terms), ','), lo, hi)
    ensures TermsOf(Split(PrintField(terms), ','), lo, hi) == terms
  {
    hide ParseTerm, PrintTerm;
    var parts := seq(|terms|, k requires 0 <= k < |terms| => PrintTerm(terms[k]));
    forall k | 0 <= k < |terms| ensures ParseTerm(parts[k], lo, hi) == Ok(terms[k]) {
      ParseInvertsPrint(terms[k], lo, hi);
    }
    forall p | p in parts ensures ',' !in p { PrintedTerm(terms, parts, p); }
    SplitInvertsJoin(parts, ',');
  }

  /** A field of written terms is read, and denotes the union of the progressions they stand for if
      and only if no first step overflows. */
  lemma FieldDenotes(terms: seq<Term>, lo: int, hi: int)
    requires 0 <= lo <= hi <= 59 && terms != [] && AllIn(terms, lo, hi)
    ensures AllIn(terms, 0, 59)
    ensures var r := ParseField(PrintField(terms), lo, hi);
            r.Ok? && r.value != {} && (Denotes(r.value, terms) <==> StepsFit(terms))
  {
    hide ParseTerm, PrintTerm, FieldFrom;
    FieldInvertsPrint(terms, lo, hi);
    FieldIsUnion(PrintField(terms), lo, hi);
  }

  const HUGE_STEP := Term(1, 5, MAX_INT)

  /** The field 1-5/9223372036854775807 stands for the one value 1, and is read as three. */
  lemma HugeStepWraps()
    ensures Progression(HUGE_STEP) == {1}
    ensures ParseField(PrintField([HUGE_STEP]), 0, 59) == Ok({1, -MAX_INT - 1, -1})
  {
    hide ParseTerm, PrintTerm;
    FieldInvertsPrint([HUGE_STEP], 0, 59);
    var parts := Split(PrintField([HUGE_STEP]), ',');
    assert TermsOf(parts, 0, 59)[0] == HUGE_STEP;
    assert ParseField(PrintField([HUGE_STEP]), 0, 59) == Ok({} + TermValues(HUGE_STEP)) by {
      assert parts[1..] == [];
      assert FieldFrom([], 0, 59, {} + TermValues(HUGE_STEP)) == Ok({} + TermValues(HUGE_STEP));
    }
    assert ValuesFrom(HUGE_STEP, -1) == {-1};
    assert ValuesFrom(HUGE_STEP, -MAX_INT - 1) == {-MAX_INT - 1, -1};
    assert {} + TermValues(HUGE_STEP) == {1, -MAX_INT - 1, -1};
    forall v ensures v in Progression(HUGE_STEP) <==> v == 1 {
      if 1 <= v <= 5 { assert (v - 1) % MAX_INT == v - 1; }
    }
  }

  lemma PrintedTerm(terms: seq<Term>, parts: seq<string>, p: string)
    requires |parts| == |terms| && p in parts && AllIn(terms, 0, 59)
    requires forall k :: 0 <= k < |terms| ==> parts[k] == PrintTerm(terms[k])
    ensures ',' !in p
  {
    var k :| 0 <= k < |parts| && parts[k] == p;
    DigitsHold(Decimal(terms[k].start), ',');
    DigitsHold(Decimal(terms[k].end), ',');
    DigitsHold(Decimal(terms[k].step), ',');
  }

  // ----- day of week -----

  /** The day-of-week field is read with 7 in range; 7 is folded to 0 after expansion. */
  function FoldSunday(dow: set<int>): (r: set<int>)
    ensures forall d :: d in r <==> d != 7 && (d in dow || (d == 0 && 7 in dow))
  {
    if 7 in dow then dow + {0} - {7} else dow
  }
}
