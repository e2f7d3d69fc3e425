/** The reference language: `step.path[0].field` references, and templates that interpolate
    `${reference}` into text. */
module Selector {
  import opened Wrappers
  import opened Text

  const MAX_SELECTOR_LEN := 1024
  const MAX_SELECTOR_DEPTH := 32
  const MAX_TEMPLATE_EXPAND := 256
  const MAX_EXPANDED := 262144

  datatype Seg = Key(name: string) | Idx(index: nat)

  datatype ParseError =
    | EmptyRef | TooLong | EmptySegment | MalformedIndex | BadIndex | TooDeep | TrailingDot | NoRoot

  type Parsed = Result<seq<Seg>, ParseError>

  // ----- parsing a reference -----

  /** The length of the identifier at the front of `rest`. */
  function KeyLength(rest: string): (n: nat)
    ensures n <= |rest|
    ensures n < |rest| ==> rest[n] == '.' || rest[n] == '['
    ensures forall k :: 0 <= k < n ==> rest[k] != '.' && rest[k] != '['
  {
    if rest == [] || rest[0] == '.' || rest[0] == '[' then 0 else 1 + KeyLength(rest[1..])
  }

  datatype Next = Stop(error: ParseError) | Go(rest: string, expectKey: bool, segs: seq<Seg>)

  /** One turn of the parser's loop, on the unread part of the reference. */
  function Step(rest: string, expectKey: bool, segs: seq<Seg>): (n: Next)
    requires rest != ""
    ensures n.Go? ==> |n.rest| < |rest|
  {
    if rest[0] == '.' then
      if expectKey then Stop(EmptySegment) else Go(rest[1..], true, segs)
    else if rest[0] == '[' then
      var j := Index(rest, "]");
      if j <= 1 then Stop(MalformedIndex)
      else
        var idx := Atoi(rest[1..j]);
        if idx.None? || idx.value < 0 then Stop(BadIndex)
        else if |segs| >= MAX_SELECTOR_DEPTH then Stop(TooDeep)
        else Go(rest[j + 1..], false, segs + [Idx(idx.value)])
    else
      var n := KeyLength(rest);
      if |segs| >= MAX_SELECTOR_DEPTH then Stop(TooDeep)
      else Go(rest[n..], false, segs + [Key(rest[..n])])
  }

  function ParseRest(rest: string, expectKey: bool, segs: seq<Seg>): Parsed
    decreases |rest|
  {
    if rest == "" then
      if expectKey then Err(TrailingDot)
      else if segs == [] || segs[0].Idx? then Err(NoRoot)
      else Ok(segs)
    else
      match Step(rest, expectKey, segs)
      case Stop(e) => Err(e)
      case Go(rest', expectKey', segs') => ParseRest(rest', expectKey', segs')
  }

  function Parse(ref: string): Parsed {
    if ref == "" then Err(EmptyRef)
    else if |ref| > MAX_SELECTOR_LEN then Err(TooLong)
    else ParseRest(ref, true, [])
  }

  /** The inner loop of the parser: where the identifier that starts at `i` ends. */
  method KeyEnd(ref: string, i: nat) returns (k: nat)
    requires i <= |ref|
    ensures k == i + KeyLength(ref[i..])
  {
    k := i;
    while k < |ref| && ref[k] != '.' && ref[k] != '['
      invariant i <= k <= |ref|
      invariant KeyLength(ref[i..]) == k - i + KeyLength(ref[k..])
    {
      assert ref[k..][1..] == ref[k + 1..];
      k := k + 1;
    }
  }

  /** The body of the parser's loop, on its three variables. */
  method ParseTurn(ref: string, at: nat, expectKey: bool, segs: seq<Seg>)
    returns (error: Option<ParseError>, i: nat, expectKey': bool, segs': seq<Seg>)
    requires at < |ref| && |segs| <= MAX_SELECTOR_DEPTH
    ensures error.Some? ==> Step(ref[at..], expectKey, segs) == Stop(error.value)
    ensures error.None? ==> i <= |ref| && |segs'| <= MAX_SELECTOR_DEPTH
                            && Step(ref[at..], expectKey, segs) == Go(ref[i..], expectKey', segs')
  {
    hide KeyLength, Index, Atoi;
    ghost var rest := ref[at..];
    i, expectKey', segs' := at, expectKey, segs;
    if ref[i] == '.' {
      if expectKey { return Some(EmptySegment), i, expectKey', segs'; }
      expectKey' := true;
      i := i + 1;
      assert ref[i..] == rest[1..];
    } else if ref[i] == '[' {
      var j := Index(ref[i..], "]");
      if j <= 1 { return Some(MalformedIndex), i, expectKey', segs'; }
      var idx := Atoi(ref[i + 1..i + j]);
      assert ref[i + 1..i + j] == rest[1..j];
      if idx.None? || idx.value < 0 { return Some(BadIndex), i, expectKey', segs'; }
      segs' := segs' + [Idx(idx.value)];
      assert rest[j + 1..] == ref[i + j + 1..];
      i := i + j + 1;
      expectKey' := false;
    } else {
      var start := i;
      i := KeyEnd(ref, i);
      segs' := segs' + [Key(ref[start..i])];
      assert rest[i - start..] == ref[i..] && rest[..i - start] == ref[start..i];
      expectKey' := false;
    }
    error := if |segs'| > MAX_SELECTOR_DEPTH then Some(TooDeep) else None;
  }

  method ParsePath(ref: string) returns (r: Parsed)
    ensures r == Parse(ref)
  {
    if ref == "" { return Err(EmptyRef); }
    if |ref| > MAX_SELECTOR_LEN { return Err(TooLong); }
    var segs: seq<Seg> := [];
    var i := 0;
    var expectKey := true;
    var error: Option<ParseError>;
    assert ref[i..] == ref;
    while i < |ref|
      invariant i <= |ref| && |segs| <= MAX_SELECTOR_DEPTH
      invariant ParseRest(ref[i..], expectKey, segs) == Parse(ref)
    {
      error, i, expectKey, segs := ParseTurn(ref, i, expectKey, segs);
      if error.Some? { return Err(error.value); }
    }
    if expectKey { return Err(TrailingDot); }
    if segs == [] || segs[0].Idx? { return Err(NoRoot); }
    return Ok(segs);
  }

  // ----- the canonical printer, and the round trip -----

  function PrintSeg(s: Seg): string {
    match s
    case Key(name) => "." + name
    case Idx(index) => "[" + Decimal(index) + "]"
  }

  function PrintTail(segs: seq<Seg>): string {
    if segs == [] then "" else PrintSeg(segs[0]) + PrintTail(segs[1..])
  }

  function Print(segs: seq<Seg>): string
    requires segs != [] && segs[0].Key?
  {
    segs[0].name + PrintTail(segs[1..])
  }

  predicate PlainKey(name: string) { name != "" && '.' !in name && '[' !in name }

  predicate Printable(s: Seg) {
    match s
    case Key(name) => PlainKey(name)
    case Idx(index) => index <= MAX_INT
  }

  lemma {:induction false} KeyLengthOf(name: string, tail: string)
    requires '.' !in name && '[' !in name
    requires tail == "" || tail[0] == '.' || tail[0] == '['
    ensures KeyLength(name + tail) == |name|
  {
    if name == "" {
      assert name + tail == tail;
    } else {
      assert (name + tail)[1..] == name[1..] + tail;
      KeyLengthOf(name[1..], tail);
    }
  }

  lemma ParseKeySeg(name: string, tail: string, done: seq<Seg>)
    requires PlainKey(name) && |done| < MAX_SELECTOR_DEPTH
    requires tail == "" || tail[0] == '.' || tail[0] == '['
    ensures ParseRest(name + tail, true, done) == ParseRest(tail, false, done + [Key(name)])
  {
    var rest := name + tail;
    assert rest[0] == name[0] && name[0] in name;
    KeyLengthOf(name, tail);
    assert rest[..|name|] == name && rest[|name|..] == tail;
  }

  /** The first closing bracket after `x` is the one that follows it. */
  lemma Bracketed(x: string, y: string)
    requires ']' !in x
    ensures var rest := "[" + x + "]" + y;
            Index(rest, "]") == |x| + 1 && rest[1..|x| + 1] == x && rest[|x| + 2..] == y
  {
    hide Index;
    var rest := "[" + x + "]" + y;
    assert OccursAt(rest, "]", |x| + 1);
    forall k | 0 <= k <= |x| ensures rest[k] != ']' { if k > 0 { assert rest[k] == x[k - 1]; } }
    var j := Index(rest, "]");
    assert rest[j] == ']';
  }

  lemma NoBracket(index: nat)
    ensures ']' !in Decimal(index)
  {
    hide Decimal;
  }

  lemma ParseIdxSeg(index: nat, tail: string, done: seq<Seg>, expectKey: bool)
    requires index <= MAX_INT && |done| < MAX_SELECTOR_DEPTH
    ensures ParseRest("[" + Decimal(index) + "]" + tail, expectKey, done) == ParseRest(tail, false, done + [Idx(index)])
  {
    hide Index, Decimal, Atoi, KeyLength;
    NoBracket(index);
    Bracketed(Decimal(index), tail);
    AtoiDecimal(index);
  }

  lemma SkipDot(name: string, tail: string, done: seq<Seg>)
    ensures ParseRest("." + name + tail, false, done) == ParseRest(name + tail, true, done)
  {
    hide KeyLength, Index, Atoi;
    assert ("." + name + tail)[1..] == name + tail;
  }

  lemma ParseSegThen(seg: Seg, tail: string, done: seq<Seg>)
    requires Printable(seg) && |done| < MAX_SELECTOR_DEPTH && Follows(tail)
    ensures ParseRest(PrintSeg(seg) + tail, false, done) == ParseRest(tail, false, done + [seg])
  {
    hide Decimal, KeyLength, Index, Atoi, ParseRest;
    if seg.Key? {
      assert PrintSeg(seg) + tail == "." + seg.name + tail;
      SkipDot(seg.name, tail, done);
      ParseKeySeg(seg.name, tail, done);
    } else {
      ParseIdxSeg(seg.index, tail, done, false);
    }
  }

  lemma AppendHead<T>(a: seq<T>, b: seq<T>)
    requires b != []
    ensures a + [b[0]] + b[1..] == a + b
  {
  }

  /** What may follow a segment. */
  predicate Follows(t: string) { t == "" || t[0] == '.' || t[0] == '[' }

  lemma TailFollows(todo: seq<Seg>, t: string)
    requires Follows(t)
    ensures Follows(PrintTail(todo) + t)
  {
    if todo == [] {
      assert PrintTail(todo) + t == t;
    } else {
      assert (PrintTail(todo) + t)[0] == PrintSeg(todo[0])[0];
    }
  }

  lemma TailSplits(todo: seq<Seg>, t: string)
    requires todo != []
    ensures PrintTail(todo) + t == PrintSeg(todo[0]) + (PrintTail(todo[1..]) + t)
  {
    hide PrintSeg;
  }

  lemma NothingPrinted(t: string)
    ensures PrintTail([]) + t == t
  {
  }

  lemma {:induction false} ParseTail(done: seq<Seg>, todo: seq<Seg>, t: string)
    requires forall s :: s in todo ==> Printable(s)
    requires |done + todo| <= MAX_SELECTOR_DEPTH && Follows(t)
    ensures ParseRest(PrintTail(todo) + t, false, done) == ParseRest(t, false, done + todo)
    decreases |todo|
  {
    hide ParseRest, Printable, PrintTail, PrintSeg, Follows;
    if todo == [] {
      assert done + todo == done;
      NothingPrinted(t);
    } else {
      assert todo[0] in todo && forall s :: s in todo[1..] ==> s in todo;
      TailFollows(todo[1..], t);
      TailSplits(todo, t);
      ParseSegThen(todo[0], PrintTail(todo[1..]) + t, done);
      ParseTail(done + [todo[0]], todo[1..], t);
      AppendHead(done, todo);
    }
  }

  /** A printed path is consumed: the parser goes on with what follows it. */
  lemma ParsePrinted(segs: seq<Seg>, t: string)
    requires segs != [] && segs[0].Key? && |segs| <= MAX_SELECTOR_DEPTH
    requires forall s :: s in segs ==> Printable(s)
    requires Follows(t) && |Print(segs) + t| <= MAX_SELECTOR_LEN
    ensures Parse(Print(segs) + t) == ParseRest(t, false, segs)
  {
    hide Decimal, KeyLength, Index, Atoi, ParseRest;
    var name, tail := segs[0].name, PrintTail(segs[1..]);
    assert tail != "" ==> tail[0] == PrintSeg(segs[1])[0];
    assert Printable(segs[0]);
    ParseKeySeg(name, tail + t, []);
    assert name + (tail + t) == Print(segs) + t;
    assert [] + [Key(name)] == [segs[0]];
    assert [segs[0]] + segs[1..] == segs;
    assert forall s :: s in segs[1..] ==> s in segs;
    ParseTail([segs[0]], segs[1..], t);
  }

  /** parsePath inverts the printer on every path within the bounds. */
  lemma ParseInvertsPrint(segs: seq<Seg>)
    requires segs != [] && segs[0].Key? && |segs| <= MAX_SELECTOR_DEPTH
    requires forall s :: s in segs ==> Printable(s)
    requires |Print(segs)| <= MAX_SELECTOR_LEN
    ensures Parse(Print(segs)) == Ok(segs)
  {
    hide Print, Printable;
    assert Print(segs) + "" == Print(segs);
    ParsePrinted(segs, "");
  }

  /** The faults a reader can see right after a path that is well formed so far: a dot at the end, two
      dots, an index that is empty or not closed, one that is not a number, one segment too many. */
  lemma ParseFaults(segs: seq<Seg>, x: string, y: string)
    requires segs != [] && segs[0].Key? && |segs| <= MAX_SELECTOR_DEPTH
    requires forall s :: s in segs ==> Printable(s)
    requires |Print(segs) + "[" + x + "]" + y| <= MAX_SELECTOR_LEN
    ensures Parse(Print(segs) + ".") == Err(TrailingDot)
    ensures Parse(Print(segs) + ".." + x) == Err(EmptySegment)
    ensures Parse(Print(segs) + "[]" + x) == Err(MalformedIndex)
    ensures ']' !in x ==> Parse(Print(segs) + "[" + x) == Err(MalformedIndex)
    ensures x != "" && ']' !in x && (Atoi(x).None? || Atoi(x).value < 0) ==>
              Parse(Print(segs) + "[" + x + "]" + y) == Err(BadIndex)
    ensures |segs| == MAX_SELECTOR_DEPTH ==>
              && (x != "" && ']' !in x && Atoi(x).Some? && Atoi(x).value >= 0 ==>
                    Parse(Print(segs) + "[" + x + "]" + y) == Err(TooDeep))
              && (PlainKey(x) && Follows(y) ==> Parse(Print(segs) + "." + x + y) == Err(TooDeep))
  {
    hide Print, Printable, ParseRest, KeyLength, Atoi;
    ParsePrinted(segs, ".");
    DotEnds(segs);
    assert Print(segs) + ".." + x == Print(segs) + (".." + x);
    ParsePrinted(segs, ".." + x);
    DotDot(segs, x);
    assert Print(segs) + "[]" + x == Print(segs) + ("[]" + x);
    ParsePrinted(segs, "[]" + x);
    NoIndex(segs, x);
    assert Print(segs) + "[" + x == Print(segs) + ("[" + x);
    ParsePrinted(segs, "[" + x);
    assert Print(segs) + "[" + x + "]" + y == Print(segs) + ("[" + x + "]" + y);
    ParsePrinted(segs, "[" + x + "]" + y);
    WrongIndex(segs, x, y);
    assert Print(segs) + "." + x + y == Print(segs) + ("." + x + y);
    ParsePrinted(segs, "." + x + y);
    if |segs| == MAX_SELECTOR_DEPTH { OneKeyMore(segs, x, y); }
  }

  lemma DotEnds(segs: seq<Seg>)
    ensures ParseRest(".", false, segs) == Err(TrailingDot)
  {
    assert "."[1..] == "";
  }

  lemma DotDot(segs: seq<Seg>, x: string)
    ensures ParseRest(".." + x, false, segs) == Err(EmptySegment)
  {
    var rest := (".." + x)[1..];
    assert rest[0] == '.';
  }

  lemma NoIndex(segs: seq<Seg>, x: string)
    ensures ParseRest("[]" + x, false, segs) == Err(MalformedIndex)
    ensures ']' !in x ==> ParseRest("[" + x, false, segs) == Err(MalformedIndex)
  {
    assert OccursAt("[]" + x, "]", 1);
    var open := "[" + x;
    if ']' !in x {
      forall k | 0 <= k < |open| ensures open[k] != ']' { if k > 0 { assert open[k] == x[k - 1]; } }
    }
  }

  lemma WrongIndex(segs: seq<Seg>, x: string, y: string)
    requires |segs| <= MAX_SELECTOR_DEPTH
    ensures x != "" && ']' !in x ==>
              var r := ParseRest("[" + x + "]" + y, false, segs);
              && (Atoi(x).None? || Atoi(x).value < 0 ==> r == Err(BadIndex))
              && (|segs| == MAX_SELECTOR_DEPTH && Atoi(x).Some? && Atoi(x).value >= 0 ==> r == Err(TooDeep))
  {
    hide Atoi, Index, KeyLength;
    if x != "" && ']' !in x { Bracketed(x, y); }
  }

  lemma OneKeyMore(segs: seq<Seg>, x: string, y: string)
    requires |segs| == MAX_SELECTOR_DEPTH
    ensures PlainKey(x) && Follows(y) ==> ParseRest("." + x + y, false, segs) == Err(TooDeep)
  {
    hide KeyLength;
    if PlainKey(x) {
      SkipDot(x, y, segs);
      assert (x + y)[0] == x[0] && x[0] in x;
    }
  }

  /** The faults at the front of a reference. */
  lemma FrontFaults(index: nat, x: string)
    requires index <= MAX_INT && |Decimal(index)| < MAX_SELECTOR_LEN - 1 && |x| < MAX_SELECTOR_LEN
    ensures Parse("") == Err(EmptyRef)
    ensures Parse("." + x) == Err(EmptySegment)
    ensures Parse("[" + Decimal(index) + "]") == Err(NoRoot)
  {
    hide Decimal, Index, Atoi, KeyLength;
    assert ("." + x)[0] == '.';
    var ref := "[" + Decimal(index) + "]";
    assert ref + "" == ref;
    ParseIdxSeg(index, "", [], true);
    assert [] + [Idx(index)] == [Idx(index)];
  }

  /** What every accepted path looks like: a key first, no empty key, at most 32 segments. */
  predicate WellFormed(segs: seq<Seg>) {
    && |segs| <= MAX_SELECTOR_DEPTH
    && forall s :: s in segs && s.Key? ==> s.name != ""
  }

  lemma {:induction false} ParseRestShape(rest: string, expectKey: bool, segs: seq<Seg>)
    requires WellFormed(segs)
    ensures var r := ParseRest(rest, expectKey, segs);
            r.Ok? ==> r.value != [] && r.value[0].Key? && WellFormed(r.value)
    decreases |rest|
  {
    if rest != "" {
      var next := Step(rest, expectKey, segs);
      if next.Go? {
        assert WellFormed(next.segs);
        ParseRestShape(next.rest, next.expectKey, next.segs);
      }
    }
  }

  lemma ParseShape(ref: string)
    ensures Parse(ref).Ok? ==>
              Parse(ref).value != [] && Parse(ref).value[0].Key? && WellFormed(Parse(ref).value)
  {
    ParseRestShape(ref, true, []);
  }

  /** The leading step id of a reference, "" for a malformed one. */
  function RootOf(ref: string): string {
    var p := Parse(ref);
    ParseShape(ref);
    if p.Err? then "" else p.value[0].name
  }

  /** "" stands exactly for the references that do not parse. */
  lemma RootIffParses(ref: string)
    ensures RootOf(ref) != "" <==> Parse(ref).Ok?
  {
    ParseShape(ref);
    if Parse(ref).Ok? {
      assert Parse(ref).value[0] in Parse(ref).value;
    }
  }
}
