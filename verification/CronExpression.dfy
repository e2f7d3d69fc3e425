/** Five-field cron expressions: how they are read, and what a written one means. */
module CronExpressions {
  import opened Wrappers
  import opened Text
  import opened CronFields

  datatype Cron = Cron(minute: set<int>, hour: set<int>, dom: set<int>, month: set<int>, dow: set<int>,
                       domStar: bool, dowStar: bool)

  // ----- parseCron -----

  function Word(s: string): (n: nat)
    ensures n <= |s|
    ensures forall k :: 0 <= k < n ==> !IsSpace(s[k])
    ensures n < |s| ==> IsSpace(s[n])
  {
    if s == [] || IsSpace(s[0]) then 0 else 1 + Word(s[1..])
  }

  /** strings.Fields: the words of a text. */
  function Words(s: string): seq<string>
    decreases |s|
  {
    if s == [] then []
    else if IsSpace(s[0]) then Words(s[1..])
    else [s[..Word(s)]] + Words(s[Word(s)..])
  }

  method ParseCron(expr: string) returns (r: Option<Cron>)
    ensures r == CronOf(expr)
  {
    var fields := Words(TrimSpace(expr));
    if |fields| != 5 { return None; }
    var min := ParseCronField(fields[0], 0, 59);
    if min.Err? { return None; }
    var hour := ParseCronField(fields[1], 0, 23);
    if hour.Err? { return None; }
    var dom := ParseCronField(fields[2], 1, 31);
    if dom.Err? { return None; }
    var month := ParseCronField(fields[3], 1, 12);
    if month.Err? { return None; }
    var dow := ParseCronField(fields[4], 0, 7);
    if dow.Err? { return None; }
    return Some(Cron(min.value, hour.value, dom.value, month.value, FoldSunday(dow.value),
                     fields[2] == "*", fields[4] == "*"));
  }

  function CronOf(expr: string): Option<Cron> {
    var f := Words(TrimSpace(expr));
    if |f| != 5 then None
    else
      var min, hour, dom := ParseField(f[0], 0, 59), ParseField(f[1], 0, 23), ParseField(f[2], 1, 31);
      var month, dow := ParseField(f[3], 1, 12), ParseField(f[4], 0, 7);
      if min.Err? || hour.Err? || dom.Err? || month.Err? || dow.Err? then None
      else Some(Cron(min.value, hour.value, dom.value, month.value, FoldSunday(dow.value), f[2] == "*", f[4] == "*"))
  }

  /** What the values of a field are, for the terms it holds. */
  ghost predicate Means(values: set<int>, terms: seq<Term>, lo: int, hi: int)
    requires AllIn(terms, 0, 59)
  {
    && values != {}
    && (Denotes(values, terms) <==> StepsFit(terms))
    && ((forall v :: v in values ==> lo <= v <= hi) <==> StepsFit(terms))
  }

  ghost predicate Reads(word: string, lo: int, hi: int, values: set<int>)
    requires 0 <= lo <= hi <= 59
  {
    AllParse(Split(word, ','), lo, hi) && Means(values, TermsOf(Split(word, ','), lo, hi), lo, hi)
  }

  predicate Folded(dow: set<int>, r: set<int>) { r == (set d | d in dow && d != 7) + (if 7 in dow then {0} else {}) }

  /** An expression is refused unless it has five words whose terms all parse; each word is then read
      under its own bounds, and Sunday's 7 becomes 0 after expansion. */
  lemma CronIsRead(expr: string)
    ensures var f := Words(TrimSpace(expr));
            && (CronOf(expr).Some? <==>
                  && |f| == 5 && AllParse(Split(f[0], ','), 0, 59) && AllParse(Split(f[1], ','), 0, 23)
                  && AllParse(Split(f[2], ','), 1, 31) && AllParse(Split(f[3], ','), 1, 12) && AllParse(Split(f[4], ','), 0, 7))
            && (CronOf(expr).Some? ==>
                  var c := CronOf(expr).value;
                  && Reads(f[0], 0, 59, c.minute) && Reads(f[1], 0, 23, c.hour) && Reads(f[2], 1, 31, c.dom)
                  && Reads(f[3], 1, 12, c.month) && (exists dow :: Reads(f[4], 0, 7, dow) && Folded(dow, c.dow))
                  && (c.domStar <==> f[2] == "*") && (c.dowStar <==> f[4] == "*"))
  {
    hide ParseField, AllParse, Denotes, StepsFit, TermsOf, Words, TrimSpace, Split;
    var f := Words(TrimSpace(expr));
    if |f| == 5 {
      WordIsRead(f[0], 0, 59);
      WordIsRead(f[1], 0, 23);
      WordIsRead(f[2], 1, 31);
      WordIsRead(f[3], 1, 12);
      WordIsRead(f[4], 0, 7);
      if CronOf(expr).Some? {
        var dow := ParseField(f[4], 0, 7).value;
        FoldIsFolded(dow);
        assert Reads(f[4], 0, 7, dow) && Folded(dow, CronOf(expr).value.dow);
      }
    }
  }

  lemma WordIsRead(word: string, lo: int, hi: int)
    requires 0 <= lo <= hi <= 59
    ensures ParseField(word, lo, hi).Ok? <==> AllParse(Split(word, ','), lo, hi)
    ensures ParseField(word, lo, hi).Ok? ==> Reads(word, lo, hi, ParseField(word, lo, hi).value)
  {
    hide ParseField, AllParse, Denotes, StepsFit, TermsOf, Split;
    FieldIsUnion(word, lo, hi);
  }

  lemma FoldIsFolded(dow: set<int>)
    ensures Folded(dow, FoldSunday(dow))
  {
  }

  // ----- a written cron expression -----

  /** A field as it is written: a star, or a list of terms. */
  datatype Written = Every | Listed(terms: seq<Term>)

  function PrintWritten(w: Written): string
    requires Writable(w, 0, 59)
  {
    match w
    case Every => "*"
    case Listed(terms) => PrintField(terms)
  }

  predicate Writable(w: Written, lo: int, hi: int) { w.Listed? ==> w.terms != [] && AllIn(w.terms, lo, hi) }

  function WrittenTerms(w: Written, lo: int, hi: int): (terms: seq<Term>)
    requires 0 <= lo <= hi <= 59 && Writable(w, lo, hi)
    ensures AllIn(terms, lo, hi) && AllIn(terms, 0, 59)
  {
    if w.Every? then [Term(lo, hi, 1)] else w.terms
  }

  /** Five written fields, each within its own bounds. */
  predicate Writables(w: seq<Written>) {
    && |w| == 5 && Writable(w[0], 0, 59) && Writable(w[1], 0, 23) && Writable(w[2], 1, 31) && Writable(w[3], 1, 12)
    && Writable(w[4], 0, 7)
  }

  function PrintCron(w: seq<Written>): string
    requires Writables(w)
  {
    Join([PrintWritten(w[0]), PrintWritten(w[1]), PrintWritten(w[2]), PrintWritten(w[3]), PrintWritten(w[4])], ' ')
  }

  predicate NoSpace(s: string) { forall i :: 0 <= i < |s| ==> !IsSpace(s[i]) }

  lemma {:induction false} JoinNoSpace(parts: seq<string>)
    requires parts != [] && forall k :: 0 <= k < |parts| ==> NoSpace(parts[k]) && parts[k] != ""
    ensures NoSpace(Join(parts, ',')) && Join(parts, ',') != "" && Join(parts, ',')[0] == parts[0][0]
    decreases |parts|
  {
    hide IsSpace;
    assert !IsSpace(',') by { CommaIsNoSpace(); }
    if |parts| > 1 {
      assert forall k :: 0 <= k < |parts| - 1 ==> parts[1..][k] == parts[k + 1];
      JoinNoSpace(parts[1..]);
    }
  }

  lemma CommaIsNoSpace()
    ensures !IsSpace(',')
  {
  }

  lemma TermNoSpace(t: Term)
    requires InRange(t, 0, 59)
    ensures NoSpace(PrintTerm(t)) && PrintTerm(t) != "" && IsDigit(PrintTerm(t)[0])
  {
    hide Decimal;
    var a, b, n := Decimal(t.start), Decimal(t.end), Decimal(t.step);
    assert NoSpace(a) && NoSpace(b) && NoSpace(n);
    assert PrintTerm(t) == a + "-" + b + "/" + n;
  }

  /** A written field holds no space, and is a lone star only if it was written so. */
  lemma WrittenWord(w: Written)
    requires Writable(w, 0, 59)
    ensures NoSpace(PrintWritten(w)) && PrintWritten(w) != "" && (PrintWritten(w) == "*" <==> w.Every?)
  {
    hide PrintTerm;
    if w.Listed? {
      var parts := seq(|w.terms|, k requires 0 <= k < |w.terms| => PrintTerm(w.terms[k]));
      forall k | 0 <= k < |parts| ensures NoSpace(parts[k]) && parts[k] != "" && IsDigit(parts[k][0]) { TermNoSpace(w.terms[k]); }
      JoinNoSpace(parts);
      assert PrintWritten(w) == Join(parts, ',');
      assert !IsDigit('*');
    }
  }

  lemma StarTerm(lo: int, hi: int)
    requires 0 <= lo <= hi <= 59
    ensures AllParse(Split("*", ','), lo, hi) && TermsOf(Split("*", ','), lo, hi) == [Term(lo, hi, 1)]
  {
    NoChar("*", ',');
    NoChar("*", '/');
    assert Split("*", ',') == ["*"];
    assert ParseTerm("*", lo, hi) == Ok(Term(lo, hi, 1));
  }

  /** A written field is read back. */
  lemma WrittenReads(w: Written, lo: int, hi: int, values: set<int>)
    requires 0 <= lo <= hi <= 59 && Writable(w, lo, hi)
    ensures Writable(w, 0, 59)
    ensures AllParse(Split(PrintWritten(w), ','), lo, hi)
    ensures Reads(PrintWritten(w), lo, hi, values) ==> Means(values, WrittenTerms(w, lo, hi), lo, hi)
  {
    hide AllParse, Split, Means, TermsOf, PrintField;
    if w.Every? { StarTerm(lo, hi); } else { FieldInvertsPrint(w.terms, lo, hi); }
  }

  lemma {:induction false} WordIs(word: string, rest: string)
    requires NoSpace(word) && (rest == "" || IsSpace(rest[0]))
    ensures Word(word + rest) == |word|
    decreases |word|
  {
    if word == "" {
      assert word + rest == rest;
    } else {
      assert (word + rest)[1..] == word[1..] + rest;
      WordIs(word[1..], rest);
    }
  }

  lemma NextWord(word: string, rest: string)
    requires NoSpace(word) && word != "" && (rest == "" || IsSpace(rest[0]))
    ensures Words(word + rest) == [word] + Words(rest)
  {
    WordIs(word, rest);
    assert (word + rest)[|word|..] == rest && (word + rest)[..|word|] == word;
  }

  lemma SkipSpace(rest: string)
    ensures Words([' '] + rest) == Words(rest)
  {
    assert ([' '] + rest)[1..] == rest;
  }

  lemma {:induction false} WordsInvertJoin(words: seq<string>)
    requires words != [] && forall k :: 0 <= k < |words| ==> NoSpace(words[k]) && words[k] != ""
    ensures Words(Join(words, ' ')) == words
    ensures var s := Join(words, ' '); s != "" && !IsSpace(s[0]) && !IsSpace(s[|s| - 1])
    decreases |words|
  {
    hide IsSpace, Words;
    if |words| == 1 {
      NextWord(words[0], "");
      assert words[0] + "" == words[0];
      NoWords();
    } else {
      SpaceIsSpace();
      assert forall k :: 0 <= k < |words| - 1 ==> words[1..][k] == words[k + 1];
      WordsInvertJoin(words[1..]);
      var rest := Join(words[1..], ' ');
      assert Join(words, ' ') == words[0] + ([' '] + rest);
      NextWord(words[0], [' '] + rest);
      SkipSpace(rest);
    }
  }

  lemma NoWords()
    ensures Words("") == []
  {
  }

  lemma SpaceIsSpace()
    ensures IsSpace(' ')
  {
  }

  lemma Untrimmed(s: string)
    requires s != "" && !IsSpace(s[0]) && !IsSpace(s[|s| - 1])
    ensures TrimSpace(s) == s
  {
  }

  /** The day-of-week set is the union of the progressions with 7 counted as 0. */
  ghost predicate DenotesDays(days: set<int>, terms: seq<Term>)
    requires AllIn(terms, 0, 59)
  {
    forall d :: d in days <==>
      d != 7 && exists k :: 0 <= k < |terms| && (d in Progression(terms[k]) || (d == 0 && 7 in Progression(terms[k])))
  }

  ghost predicate MeansDays(days: set<int>, terms: seq<Term>)
    requires AllIn(terms, 0, 59)
  {
    && days != {}
    && (DenotesDays(days, terms) <==> StepsFit(terms))
    && ((forall d :: d in days ==> 0 <= d <= 6) <==> StepsFit(terms))
  }

  lemma FoldedMeans(dow: set<int>, days: set<int>, terms: seq<Term>)
    requires AllIn(terms, 0, 7) && AllIn(terms, 0, 59) && Means(dow, terms, 0, 7) && Folded(dow, days)
    ensures MeansDays(days, terms)
  {
    hide StepsFit;
    var any :| any in dow;
    assert (if any == 7 then 0 else any) in days;
    assert forall d, k :: 0 <= k < |terms| && d in Progression(terms[k]) ==> 0 <= d <= 7;
    if !StepsFit(terms) {
      var d :| d in dow && !(0 <= d <= 7);
      assert d in days;
    } else {
      forall d ensures d in days <==>
        d != 7 && exists k :: 0 <= k < |terms| && (d in Progression(terms[k]) || (d == 0 && 7 in Progression(terms[k])))
      {
        assert d in dow <==> exists k :: 0 <= k < |terms| && d in Progression(terms[k]);
        assert 7 in dow <==> exists k :: 0 <= k < |terms| && 7 in Progression(terms[k]);
      }
    }
  }

  /** A written expression of five fields is read: each set is non-empty and the union of what its
      field stands for, within its own bounds, if and only if no first step overflows; 7 counts as
      Sunday; and the flags say which fields are stars. */
  lemma CronDenotes(w: seq<Written>)
    requires Writables(w)
    ensures CronOf(PrintCron(w)).Some?
    ensures var c := CronOf(PrintCron(w)).value;
            && Means(c.minute, WrittenTerms(w[0], 0, 59), 0, 59) && Means(c.hour, WrittenTerms(w[1], 0, 23), 0, 23)
            && Means(c.dom, WrittenTerms(w[2], 1, 31), 1, 31) && Means(c.month, WrittenTerms(w[3], 1, 12), 1, 12)
            && MeansDays(c.dow, WrittenTerms(w[4], 0, 7))
            && (c.domStar <==> w[2].Every?) && (c.dowStar <==> w[4].Every?)
  {
    hide CronOf, Words, TrimSpace, Split, Means, MeansDays, AllParse, TermsOf, PrintWritten, NoSpace;
    PrintedWords(w);
    var expr := PrintCron(w);
    CronIsRead(expr);
    WrittenParses(w[0], 0, 59);
    WrittenParses(w[1], 0, 23);
    WrittenParses(w[2], 1, 31);
    WrittenParses(w[3], 1, 12);
    WrittenParses(w[4], 0, 7);
    var c := CronOf(expr).value;
    WrittenReads(w[0], 0, 59, c.minute);
    WrittenReads(w[1], 0, 23, c.hour);
    WrittenReads(w[2], 1, 31, c.dom);
    WrittenReads(w[3], 1, 12, c.month);
    var dow :| Reads(PrintWritten(w[4]), 0, 7, dow) && Folded(dow, c.dow);
    WrittenReads(w[4], 0, 7, dow);
    FoldedMeans(dow, c.dow, WrittenTerms(w[4], 0, 7));
    WrittenWord(w[2]);
    WrittenWord(w[4]);
  }

  lemma WrittenParses(w: Written, lo: int, hi: int)
    requires 0 <= lo <= hi <= 59 && Writable(w, lo, hi) && Writable(w, 0, 59)
    ensures AllParse(Split(PrintWritten(w), ','), lo, hi)
  {
    WrittenReads(w, lo, hi, {});
  }

  lemma PrintedWords(w: seq<Written>)
    requires Writables(w)
    ensures Words(TrimSpace(PrintCron(w)))
            == [PrintWritten(w[0]), PrintWritten(w[1]), PrintWritten(w[2]), PrintWritten(w[3]), PrintWritten(w[4])]
  {
    hide PrintWritten, TrimSpace, NoSpace, Words, Join;
    var words := [PrintWritten(w[0]), PrintWritten(w[1]), PrintWritten(w[2]), PrintWritten(w[3]), PrintWritten(w[4])];
    WrittenWord(w[0]);
    WrittenWord(w[1]);
    WrittenWord(w[2]);
    WrittenWord(w[3]);
    WrittenWord(w[4]);
    WordsInvertJoin(words);
    Untrimmed(Join(words, ' '));
  }
}
