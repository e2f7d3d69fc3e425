/** The unigram tokenizer: Viterbi segmentation and its inverse. Scores are reals; strings are
    sequences of code points. */
module Tokenizers {
  import opened Wrappers
  import opened Text

  const MARKER: char := '\U{2581}'
  const UNK: nat := 0
  const UNK_PENALTY := 100.0

  /** The negated largest float32, standing for "not reached". */
  const NEG_INF: real := -340282346638528859811704183484516925440.0

  datatype Tokenizer = Tokenizer(pieces: seq<string>, scores: seq<real>, byId: map<string, nat>, langTags: set<nat>,
                                 maxRunes: nat)

  predicate IsLower(c: char) { 'a' <= c <= 'z' }
  predicate IsUpper(c: char) { 'A' <= c <= 'Z' }

  predicate IsLangTag(piece: string) {
    && |piece| >= 4 && piece[0] == '<' && piece[|piece| - 1] == '>'
    && var inner := piece[1..|piece| - 1];
       || (|inner| == 2 && IsLower(inner[0]) && IsLower(inner[1]))
       || (|inner| == 5 && IsLower(inner[0]) && IsLower(inner[1]) && inner[2] == '-' && IsUpper(inner[3]) && IsUpper(inner[4]))
  }

  /** The tables agree with the pieces; of equal pieces the last one counts. */
  ghost predicate Valid(t: Tokenizer) {
    && t.pieces != [] && |t.scores| == |t.pieces|
    && (forall i :: 0 <= i < |t.pieces| ==> t.pieces[i] in t.byId && i <= t.byId[t.pieces[i]] && |t.pieces[i]| <= t.maxRunes)
    && (forall p :: p in t.byId ==> t.byId[p] < |t.pieces| && t.pieces[t.byId[p]] == p)
    && (forall i: nat :: i in t.langTags <==> i < |t.pieces| && IsLangTag(t.pieces[i]))
  }

  /** The tables of TokenizerFromBytes; None when the model holds no pieces. */
  method Build(pieces: seq<string>, scores: seq<real>) returns (r: Option<Tokenizer>)
    requires |scores| == |pieces|
    ensures r.None? <==> pieces == []
    ensures r.Some? ==> Valid(r.value) && r.value.pieces == pieces && r.value.scores == scores
  {
    if pieces == [] { return None; }
    var byId: map<string, nat> := map[];
    var langTags: set<nat> := {};
    var maxRunes: nat := 0;
    var i := 0;
    while i < |pieces|
      invariant 0 <= i <= |pieces|
      invariant forall k :: 0 <= k < i ==> pieces[k] in byId && k <= byId[pieces[k]] && |pieces[k]| <= maxRunes
      invariant forall p :: p in byId ==> byId[p] < i && pieces[byId[p]] == p
      invariant forall k: nat :: k in langTags <==> k < i && IsLangTag(pieces[k])
    {
      byId := byId[pieces[i] := i];
      if IsLangTag(pieces[i]) { langTags := langTags + {i}; }
      if |pieces[i]| > maxRunes { maxRunes := |pieces[i]|; }
      i := i + 1;
    }
    return Some(Tokenizer(pieces, scores, byId, langTags, maxRunes));
  }

  // ----- paths through the text -----

  /** One step of a segmentation: the piece spelled by r[start..end], or one unknown rune. */
  datatype Edge = Edge(start: nat, end: nat, id: nat, unk: bool)

  predicate EdgeIn(t: Tokenizer, r: string, e: Edge) {
    && e.start < e.end <= |r|
    && if e.unk then e.end == e.start + 1 && e.id == UNK
       else r[e.start..e.end] in t.byId && e.id == t.byId[r[e.start..e.end]]
  }

  function Weight(t: Tokenizer, e: Edge): real {
    if e.unk then -UNK_PENALTY else if e.id < |t.scores| then t.scores[e.id] else 0.0
  }

  /** `p` covers r[..i] exactly, edge by edge. */
  predicate PathTo(t: Tokenizer, r: string, p: seq<Edge>, i: nat)
    decreases |p|
  {
    if p == [] then i == 0
    else
      var e := p[|p| - 1];
      e.end == i && EdgeIn(t, r, e) && PathTo(t, r, p[..|p| - 1], e.start)
  }

  function Score(t: Tokenizer, p: seq<Edge>): real {
    if p == [] then 0.0 else Score(t, p[..|p| - 1]) + Weight(t, p[|p| - 1])
  }

  function Ids(p: seq<Edge>): seq<nat> { seq(|p|, i requires 0 <= i < |p| => p[i].id) }

  /** A piece spells r[s..i]. */
  predicate PieceAt(t: Tokenizer, r: string, s: int, i: int) { 0 <= s < i <= |r| && r[s..i] in t.byId }

  function PieceEdge(t: Tokenizer, r: string, s: int, i: int): Edge
    requires PieceAt(t, r, s, i)
  {
    Edge(s, i, t.byId[r[s..i]], false)
  }

  ghost predicate PieceEnds(t: Tokenizer, r: string, i: int) { exists s :: PieceAt(t, r, s, i) }

  /** Unknown runes are used exactly where no piece ends. */
  ghost predicate Strict(t: Tokenizer, r: string, p: seq<Edge>) {
    forall k :: 0 <= k < |p| && p[k].unk ==> !PieceEnds(t, r, p[k].end)
  }

  /** A best segmentation of r[..i]: strict, and no strict segmentation scores more. */
  ghost predicate Optimal(t: Tokenizer, r: string, p: seq<Edge>, i: nat) {
    && PathTo(t, r, p, i) && Strict(t, r, p)
    && forall q :: PathTo(t, r, q, i) && Strict(t, r, q) ==> Score(t, q) <= Score(t, p)
  }

  // ----- the score of a best segmentation -----

  function Value(t: Tokenizer, r: string, i: nat): real
    requires i <= |r|
    decreases i, i + 1
  {
    if i == 0 then 0.0
    else
      match BestInto(t, r, i, i)
      case Some(v) => v
      case None => Value(t, r, i - 1) - UNK_PENALTY
  }

  /** The best score of a piece into i that starts before k. */
  function BestInto(t: Tokenizer, r: string, i: nat, k: nat): Option<real>
    requires k <= i <= |r|
    decreases i, k
  {
    if k == 0 then None
    else
      var before := BestInto(t, r, i, k - 1);
      if !PieceAt(t, r, k - 1, i) then before
      else
        var v := Value(t, r, k - 1) + Weight(t, PieceEdge(t, r, k - 1, i));
        if before.Some? && before.value >= v then before else Some(v)
  }

  function Candidate(t: Tokenizer, r: string, s: int, i: int): real
    requires PieceAt(t, r, s, i)
  {
    Value(t, r, s) + Weight(t, PieceEdge(t, r, s, i))
  }

  lemma {:induction false} BestIntoIsMax(t: Tokenizer, r: string, i: nat, k: nat)
    requires k <= i <= |r|
    ensures forall s :: s < k && PieceAt(t, r, s, i) ==>
              BestInto(t, r, i, k).Some? && Candidate(t, r, s, i) <= BestInto(t, r, i, k).value
    ensures BestInto(t, r, i, k).Some? ==>
              exists s :: s < k && PieceAt(t, r, s, i) && Candidate(t, r, s, i) == BestInto(t, r, i, k).value
    decreases k
  {
    hide Weight;
    if k > 0 { BestIntoIsMax(t, r, i, k - 1); }
  }

  /** One step of the recursion of Value, in terms of the pieces that end at i. */
  lemma ValueStep(t: Tokenizer, r: string, i: nat)
    requires 1 <= i <= |r|
    ensures forall s :: PieceAt(t, r, s, i) ==> Candidate(t, r, s, i) <= Value(t, r, i)
    ensures PieceEnds(t, r, i) ==> exists s :: PieceAt(t, r, s, i) && Candidate(t, r, s, i) == Value(t, r, i)
    ensures !PieceEnds(t, r, i) ==> Value(t, r, i) == Value(t, r, i - 1) - UNK_PENALTY
  {
    BestIntoIsMax(t, r, i, i);
    assert forall s :: PieceAt(t, r, s, i) ==> s < i;
  }

  /** No strict segmentation scores more than Value ... */
  lemma {:induction false} NoneBetter(t: Tokenizer, r: string, q: seq<Edge>, i: nat)
    requires i <= |r| && PathTo(t, r, q, i) && Strict(t, r, q)
    ensures Score(t, q) <= Value(t, r, i)
    decreases |q|
  {
    hide Value, PieceEnds;
    if q == [] {
      ValueOfNothing(t, r);
    } else {
      var e := q[|q| - 1];
      var rest := q[..|q| - 1];
      assert forall k :: 0 <= k < |rest| ==> rest[k] == q[k];
      NoneBetter(t, r, rest, e.start);
      ValueStep(t, r, i);
      if !e.unk { assert PieceAt(t, r, e.start, i) && e == PieceEdge(t, r, e.start, i); }
    }
  }

  lemma ValueOfNothing(t: Tokenizer, r: string)
    ensures Value(t, r, 0) == 0.0
  {
  }

  /** ... and one scores exactly that. */
  lemma {:induction false} ValueAttained(t: Tokenizer, r: string, i: nat) returns (q: seq<Edge>)
    requires i <= |r|
    ensures PathTo(t, r, q, i) && Strict(t, r, q) && Score(t, q) == Value(t, r, i)
    decreases i
  {
    hide Value, PieceEnds;
    if i == 0 {
      ValueOfNothing(t, r);
      return [];
    }
    ValueStep(t, r, i);
    var e := Edge(i - 1, i, UNK, true);
    if PieceEnds(t, r, i) {
      var s :| PieceAt(t, r, s, i) && Candidate(t, r, s, i) == Value(t, r, i);
      e := PieceEdge(t, r, s, i);
    }
    var rest := ValueAttained(t, r, e.start);
    q := rest + [e];
    assert q[..|q| - 1] == rest;
  }

  lemma OptimalIffValue(t: Tokenizer, r: string, p: seq<Edge>, i: nat)
    requires i <= |r| && PathTo(t, r, p, i)
    ensures Optimal(t, r, p, i) <==> Strict(t, r, p) && Score(t, p) == Value(t, r, i)
  {
    hide PathTo, Strict, Score, Value;
    var best := ValueAttained(t, r, i);
    forall q | PathTo(t, r, q, i) && Strict(t, r, q) ensures Score(t, q) <= Value(t, r, i) { NoneBetter(t, r, q, i); }
  }

  // ----- when scores stay clear of the sentinel -----

  predicate Reached(x: real) { x != NEG_INF }

  /** If pieces end at i, a best one scores above the sentinel and starts where the score is not the
      sentinel itself. */
  ghost predicate ClearAt(t: Tokenizer, r: string, i: nat)
    requires i <= |r|
  {
    PieceEnds(t, r, i) ==>
      && Value(t, r, i) > NEG_INF
      && exists s :: PieceAt(t, r, s, i) && Candidate(t, r, s, i) == Value(t, r, i) && Reached(Value(t, r, s))
  }

  ghost predicate Clear(t: Tokenizer, r: string) { forall i :: 1 <= i <= |r| ==> ClearAt(t, r, i) }

  /** The largest loss of one edge. */
  function Loss(scores: seq<real>): (b: real)
    ensures b >= UNK_PENALTY && forall i :: 0 <= i < |scores| ==> scores[i] >= -b
  {
    if scores == [] then UNK_PENALTY
    else
      var b := Loss(scores[..|scores| - 1]);
      if -scores[|scores| - 1] > b then -scores[|scores| - 1] else b
  }

  function Lowest(loss: real, n: nat): real { if n == 0 then 0.0 else Lowest(loss, n - 1) - loss }

  lemma {:induction false} LowestFalls(loss: real, i: nat, n: nat)
    requires loss >= 0.0 && i <= n
    ensures Lowest(loss, n) <= Lowest(loss, i)
    decreases n
  {
    if i < n { LowestFalls(loss, i, n - 1); }
  }

  /** No segmentation of n runes can score as low as the sentinel. */
  predicate Tame(t: Tokenizer, n: nat) { Lowest(Loss(t.scores), n) > NEG_INF }

  lemma {:induction false} ValueAtLeast(t: Tokenizer, r: string, i: nat)
    requires i <= |r|
    ensures Value(t, r, i) >= Lowest(Loss(t.scores), i)
    decreases i
  {
    hide PieceEnds, Value, Loss;
    if i == 0 {
      ValueOfNothing(t, r);
    } else {
      ValueStep(t, r, i);
      ValueAtLeast(t, r, i - 1);
      if PieceEnds(t, r, i) {
        var s :| PieceAt(t, r, s, i) && Candidate(t, r, s, i) == Value(t, r, i);
        ValueAtLeast(t, r, s);
        LowestFalls(Loss(t.scores), s, i - 1);
      }
    }
  }

  lemma PieceBounds(t: Tokenizer, r: string, s: int, i: int)
    requires PieceAt(t, r, s, i)
    ensures 0 <= s < i <= |r|
  {
  }

  /** Scores that cannot add up to the sentinel are clear of it. */
  lemma TameIsClear(t: Tokenizer, r: string)
    requires Tame(t, |r|)
    ensures Clear(t, r)
  {
    hide Value, Loss, Lowest, PieceAt;
    forall i | 0 <= i <= |r| ensures Value(t, r, i) > NEG_INF {
      ValueAtLeast(t, r, i);
      LowestFalls(Loss(t.scores), i, |r|);
    }
    forall i | 1 <= i <= |r| ensures ClearAt(t, r, i) {
      ValueStep(t, r, i);
      if PieceEnds(t, r, i) {
        var s :| PieceAt(t, r, s, i) && Candidate(t, r, s, i) == Value(t, r, i);
        PieceBounds(t, r, s, i);
      }
    }
  }

  // ----- the tables of the dynamic program -----

  /** Entry i is reached by its edge from an earlier entry. */
  predicate Linked(t: Tokenizer, r: string, best: seq<real>, e: Edge, i: nat)
    requires i < |best|
  {
    e.end == i && EdgeIn(t, r, e) && best[i] == best[e.start] + Weight(t, e)
  }

  /** The best of the pieces into i from reached entries, the first of equals; the unknown rune if
      none of them scores above the sentinel. */
  ghost predicate Chosen(t: Tokenizer, r: string, best: seq<real>, e: Edge, i: nat)
    requires i < |best|
  {
    && (!e.unk ==> e.start < i && Reached(best[e.start]) && best[i] > NEG_INF)
    && forall s :: PieceAt(t, r, s, i) && Reached(best[s]) ==>
         && best[s] + Weight(t, PieceEdge(t, r, s, i)) <= (if e.unk then NEG_INF else best[i])
         && (!e.unk && s < e.start ==> best[s] + Weight(t, PieceEdge(t, r, s, i)) < best[i])
  }

  ghost predicate Solved(t: Tokenizer, r: string, best: seq<real>, edges: seq<Edge>, n: nat) {
    && n < |best| == |edges| && n <= |r| && best[0] == 0.0
    && forall i :: 1 <= i <= n ==> Linked(t, r, best, edges[i], i) && Chosen(t, r, best, edges[i], i)
  }

  /** The entry holds the score of a best segmentation; an unknown rune only stands where no piece ends. */
  ghost predicate Right(t: Tokenizer, r: string, best: seq<real>, edges: seq<Edge>, i: nat)
    requires i < |best| == |edges| && i <= |r|
  {
    best[i] == Value(t, r, i) && (i > 0 && edges[i].unk ==> !PieceEnds(t, r, i))
  }

  /** Given right entries before it, an entry is right exactly when its position is clear. */
  lemma RightIffClear(t: Tokenizer, r: string, best: seq<real>, edges: seq<Edge>, n: nat, i: nat)
    requires Solved(t, r, best, edges, n) && 1 <= i <= n
    requires forall k :: 0 <= k < i ==> Right(t, r, best, edges, k)
    ensures Right(t, r, best, edges, i) <==> ClearAt(t, r, i)
  {
    hide Value, Solved;
    SolvedAt(t, r, best, edges, n, i);
    ValueStep(t, r, i);
    var e := edges[i];
    assert forall s :: PieceAt(t, r, s, i) ==> Right(t, r, best, edges, s);
    assert Right(t, r, best, edges, e.start);
    if !e.unk { assert PieceAt(t, r, e.start, i) && e == PieceEdge(t, r, e.start, i); }
  }

  lemma SolvedAt(t: Tokenizer, r: string, best: seq<real>, edges: seq<Edge>, n: nat, i: nat)
    requires Solved(t, r, best, edges, n) && 1 <= i <= n
    ensures i < |best| == |edges| && i <= |r| && Linked(t, r, best, edges[i], i) && Chosen(t, r, best, edges[i], i)
  {
  }

  /** The whole table is right exactly when the scores stay clear of the sentinel. */
  lemma {:induction false} TableIsRight(t: Tokenizer, r: string, best: seq<real>, edges: seq<Edge>, n: nat)
    requires Solved(t, r, best, edges, |r|) && n <= |r|
    ensures (forall i :: 0 <= i <= n ==> Right(t, r, best, edges, i)) <==> forall i :: 1 <= i <= n ==> ClearAt(t, r, i)
    decreases n
  {
    hide ClearAt, Right, Linked, Chosen;
    if n == 0 {
      assert Right(t, r, best, edges, 0) by { ValueOfNothing(t, r); FirstIsRight(t, r, best, edges); }
    } else {
      TableIsRight(t, r, best, edges, n - 1);
      if forall i :: 0 <= i < n ==> Right(t, r, best, edges, i) { RightIffClear(t, r, best, edges, |r|, n); }
    }
  }

  lemma FirstIsRight(t: Tokenizer, r: string, best: seq<real>, edges: seq<Edge>)
    requires 0 < |best| == |edges| && best[0] == 0.0
    ensures Right(t, r, best, edges, 0)
  {
  }

  /** The path the back pointers describe. */
  function Trace(edges: seq<Edge>, i: nat): seq<Edge>
    decreases i
  {
    if i == 0 || i >= |edges| || edges[i].start >= i then [] else Trace(edges, edges[i].start) + [edges[i]]
  }

  lemma {:induction false} TraceOk(t: Tokenizer, r: string, best: seq<real>, edges: seq<Edge>, n: nat, i: nat)
    requires Solved(t, r, best, edges, n) && i <= n
    ensures PathTo(t, r, Trace(edges, i), i) && Score(t, Trace(edges, i)) == best[i]
    decreases i
  {
    hide Weight, Chosen;
    if i > 0 {
      SolvedAt(t, r, best, edges, n, i);
      TraceOk(t, r, best, edges, n, edges[i].start);
      var before := Trace(edges, edges[i].start);
      assert Trace(edges, i)[..|before|] == before;
    }
  }

  /** A right table gives strict paths. */
  lemma {:induction false} TraceStrict(t: Tokenizer, r: string, best: seq<real>, edges: seq<Edge>, n: nat, i: nat)
    requires Solved(t, r, best, edges, n) && i <= n && forall k :: 0 <= k <= n ==> Right(t, r, best, edges, k)
    ensures Strict(t, r, Trace(edges, i))
    decreases i
  {
    hide PieceEnds, Value, Weight, Chosen;
    if i > 0 {
      SolvedAt(t, r, best, edges, n, i);
      assert Right(t, r, best, edges, i);
      TraceStrict(t, r, best, edges, n, edges[i].start);
    }
  }

  /** A best traced path makes its entry right. */
  lemma OptimalTraceIsRight(t: Tokenizer, r: string, best: seq<real>, edges: seq<Edge>, n: nat, i: nat)
    requires Solved(t, r, best, edges, n) && i <= n && Optimal(t, r, Trace(edges, i), i)
    ensures Right(t, r, best, edges, i)
  {
    hide Value, PieceEnds, Weight, Chosen, Score;
    TraceOk(t, r, best, edges, n, i);
    OptimalIffValue(t, r, Trace(edges, i), i);
    if i > 0 {
      SolvedAt(t, r, best, edges, n, i);
      var p := Trace(edges, i);
      assert p[|p| - 1] == edges[i];
    }
  }

  /** Every prefix is segmented best exactly when the scores stay clear of the sentinel. */
  lemma TracesOptimalIffClear(t: Tokenizer, r: string, best: seq<real>, edges: seq<Edge>)
    requires Solved(t, r, best, edges, |r|)
    ensures (forall i :: 0 <= i <= |r| ==> Optimal(t, r, Trace(edges, i), i)) <==> Clear(t, r)
  {
    hide Solved, Right, Optimal, ClearAt;
    TableIsRight(t, r, best, edges, |r|);
    SolvedSizes(t, r, best, edges, |r|);
    if Clear(t, r) {
      forall i | 0 <= i <= |r| ensures Optimal(t, r, Trace(edges, i), i) { RightTrace(t, r, best, edges, i); }
    } else {
      var i: nat :| i <= |r| && !Right(t, r, best, edges, i);
      if Optimal(t, r, Trace(edges, i), i) {
        OptimalTraceIsRight(t, r, best, edges, |r|, i);
        assert false;
      }
      assert exists j :: 0 <= j <= |r| && !Optimal(t, r, Trace(edges, j), j);
    }
  }

  lemma SolvedSizes(t: Tokenizer, r: string, best: seq<real>, edges: seq<Edge>, n: nat)
    requires Solved(t, r, best, edges, n)
    ensures n < |best| == |edges|
  {
  }

  lemma RightTrace(t: Tokenizer, r: string, best: seq<real>, edges: seq<Edge>, i: nat)
    requires Solved(t, r, best, edges, |r|) && i <= |r| && forall k :: 0 <= k <= |r| ==> Right(t, r, best, edges, k)
    ensures Optimal(t, r, Trace(edges, i), i)
  {
    hide Value, PieceEnds, Chosen, Linked, Optimal, Strict, PathTo, Score, Trace;
    TraceOk(t, r, best, edges, |r|, i);
    TraceStrict(t, r, best, edges, |r|, i);
    OptimalIffValue(t, r, Trace(edges, i), i);
    assert Right(t, r, best, edges, i);
  }

  // ----- Encode -----

  /** strings.ReplaceAll for one character. */
  function Replace(s: string, from: char, to: char): string { seq(|s|, i requires 0 <= i < |s| => if s[i] == from then to else s[i]) }

  function Normalize(text: string): string {
    var trimmed := TrimSpace(text);
    if trimmed == "" then "" else [MARKER] + Replace(trimmed, ' ', MARKER)
  }

  /** The best edge into `end` found by the inner loop before `start`, if any beats the sentinel. */
  ghost predicate Scanned(t: Tokenizer, r: string, best: seq<real>, lo: nat, start: nat, end: nat, found: Option<Edge>, value: real)
    requires start <= end <= |best|
  {
    && (found.None? ==> value == NEG_INF)
    && (found.Some? ==>
          && !found.value.unk && found.value.end == end && EdgeIn(t, r, found.value) && found.value.start < start
          && Reached(best[found.value.start])
          && value > NEG_INF && value == best[found.value.start] + Weight(t, found.value))
    && (forall s :: lo <= s < start && Reached(best[s]) && PieceAt(t, r, s, end) ==>
          && best[s] + Weight(t, PieceEdge(t, r, s, end)) <= value
          && (found.Some? && s < found.value.start ==> best[s] + Weight(t, PieceEdge(t, r, s, end)) < value))
  }

  /** The inner loop and the fallback for one end position. */
  method Relax(t: Tokenizer, r: string, end: nat, best: array<real>, backPiece: array<int>, backStart: array<nat>)
    returns (ghost edge: Edge)
    requires Valid(t) && 1 <= end <= |r|
    requires best.Length == backPiece.Length == backStart.Length == |r| + 1
    requires best[end] == NEG_INF
    modifies best, backPiece, backStart
    ensures forall i :: 0 <= i <= |r| && i != end ==>
              best[i] == old(best[i]) && backPiece[i] == old(backPiece[i]) && backStart[i] == old(backStart[i])
    ensures backPiece[end] == edge.id && backStart[end] == edge.start
    ensures Linked(t, r, best[..], edge, end) && Chosen(t, r, best[..], edge, end)
  {
    hide Valid;
    ghost var before := best[..end];
    ghost var found: Option<Edge> := None;
    var lo := if end >= t.maxRunes then end - t.maxRunes else 0;
    var start := lo;
    while start < end
      invariant lo <= start <= end && best[..end] == before
      invariant forall i :: end < i <= |r| ==> best[i] == old(best[i])
      invariant forall i :: 0 <= i <= |r| && i != end ==> backPiece[i] == old(backPiece[i]) && backStart[i] == old(backStart[i])
      invariant Scanned(t, r, before, lo, start, end, found, best[end])
      invariant found.Some? ==> backPiece[end] == found.value.id && backStart[end] == found.value.start
    {
      hide Scanned, Linked, Chosen, PieceEdge, Weight;
      ScanSkip(t, r, before, lo, start, end, found, best[end]);
      if best[start] != NEG_INF {
        var sub := r[start..end];
        if sub in t.byId {
          var id := t.byId[sub];
          KnownPiece(t, sub);
          ghost var e := Edge(start, end, id, false);
          var cand := best[start] + t.scores[id];
          EdgeOfPiece(t, r, e);
          assert best[..end][start] == best[start];
          ScanStep(t, r, before, lo, end, found, best[end], e, cand);
          if cand > best[end] {
            best[end] := cand;
            backPiece[end] := id;
            backStart[end] := start;
            found := Some(e);
          }
        }
      }
      start := start + 1;
    }
    NoLongPiece(t, r, lo, end);
    if best[end] == NEG_INF {
      best[end] := best[end - 1] - UNK_PENALTY;
      backPiece[end] := UNK;
      backStart[end] := end - 1;
      edge := Edge(end - 1, end, UNK, true);
    } else {
      edge := found.value;
    }
    assert forall s :: 0 <= s < end ==> best[..][s] == before[s];
  }

  /** A piece replaces the best edge found so far only if it scores more. */
  lemma ScanStep(t: Tokenizer, r: string, best: seq<real>, lo: nat, end: nat, found: Option<Edge>, value: real, e: Edge, cand: real)
    requires e.start < end <= |best| && Scanned(t, r, best, lo, e.start, end, found, value) && Reached(best[e.start])
    requires PieceAt(t, r, e.start, end) && e == PieceEdge(t, r, e.start, end) && cand == best[e.start] + Weight(t, e)
    ensures if cand > value then Scanned(t, r, best, lo, e.start + 1, end, Some(e), cand)
            else Scanned(t, r, best, lo, e.start + 1, end, found, value)
  {
    hide Weight;
  }

  /** A position from which no piece can be taken changes nothing. */
  lemma ScanSkip(t: Tokenizer, r: string, best: seq<real>, lo: nat, start: nat, end: nat, found: Option<Edge>, value: real)
    requires start < end <= |best| && end <= |r| && Scanned(t, r, best, lo, start, end, found, value)
    ensures !Reached(best[start]) || r[start..end] !in t.byId ==> Scanned(t, r, best, lo, start + 1, end, found, value)
  {
    hide Weight, PieceEdge;
  }

  lemma EdgeOfPiece(t: Tokenizer, r: string, e: Edge)
    requires e.start < e.end <= |r| && r[e.start..e.end] in t.byId && !e.unk && e.id == t.byId[r[e.start..e.end]]
    requires Valid(t)
    ensures PieceAt(t, r, e.start, e.end) && PieceEdge(t, r, e.start, e.end) == e
    ensures e.id < |t.scores| && Weight(t, e) == t.scores[e.id]
  {
  }

  lemma KnownPiece(t: Tokenizer, piece: string)
    requires Valid(t) && piece in t.byId
    ensures t.byId[piece] < |t.scores|
  {
  }

  /** No piece reaches back beyond the longest one. */
  lemma NoLongPiece(t: Tokenizer, r: string, lo: nat, end: nat)
    requires Valid(t) && end <= |r| && (lo == 0 || lo + t.maxRunes == end)
    ensures forall s :: PieceAt(t, r, s, end) ==> s >= lo
  {
    forall s | PieceAt(t, r, s, end) ensures s >= lo {
      ShortPiece(t, r[s..end]);
    }
  }

  lemma ShortPiece(t: Tokenizer, piece: string)
    requires Valid(t)
    ensures piece in t.byId ==> |piece| <= t.maxRunes
  {
  }

  /** Filling in one entry keeps the table solved. */
  lemma Extended(t: Tokenizer, r: string, best: seq<real>, edges: seq<Edge>, best': seq<real>, edge: Edge, end: nat)
    requires |best| == |edges| == |best'| == |r| + 1 && 1 <= end <= |r|
    requires Solved(t, r, best, edges, end - 1)
    requires forall i :: 0 <= i < end ==> best'[i] == best[i]
    requires Linked(t, r, best', edge, end) && Chosen(t, r, best', edge, end)
    ensures Solved(t, r, best', edges[end := edge], end)
  {
    hide Linked, Chosen;
    var edges' := edges[end := edge];
    forall i | 1 <= i < end ensures Linked(t, r, best', edges'[i], i) && Chosen(t, r, best', edges'[i], i) {
      EntryFrame(t, r, best, best', edges[i], i);
    }
  }

  lemma EntryFrame(t: Tokenizer, r: string, best: seq<real>, best': seq<real>, e: Edge, i: nat)
    requires i < |best| == |best'| && Linked(t, r, best, e, i) && Chosen(t, r, best, e, i)
    requires forall k :: 0 <= k <= i ==> best'[k] == best[k]
    ensures Linked(t, r, best', e, i) && Chosen(t, r, best', e, i)
  {
    hide Weight;
  }

  /** The ids are those of a best segmentation of the text. */
  ghost predicate BestIds(t: Tokenizer, r: string, ids: seq<int>) {
    exists p :: Optimal(t, r, p, |r|) && ids == Ids(p)
  }

  /** Returns the ids of the segmentation that the filled table describes. Each prefix of the text is
      segmented best exactly when the scores stay clear of the sentinel. */
  method Encode(t: Tokenizer, text: string) returns (out: seq<int>, ghost best: seq<real>, ghost edges: seq<Edge>)
    requires Valid(t)
    ensures var r := Normalize(text);
            && Solved(t, r, best, edges, |r|) && |edges| == |r| + 1
            && out == Ids(Trace(edges, |r|)) && PathTo(t, r, Trace(edges, |r|), |r|)
            && ((forall i :: 0 <= i <= |r| ==> Optimal(t, r, Trace(edges, i), i)) <==> Clear(t, r))
    ensures Clear(t, Normalize(text)) ==> BestIds(t, Normalize(text), out)
  {
    hide Valid, Linked, Chosen, Clear, Optimal, Normalize;
    var r := Normalize(text);
    var n := |r|;
    if n == 0 {
      out, best, edges := [], [0.0], [Edge(0, 0, 0, false)];
      TraceOk(t, r, best, edges, 0, 0);
      TracesOptimalIffClear(t, r, best, edges);
      return;
    }
    var score := new real[n + 1];
    var backPiece := new int[n + 1];
    var backStart := new nat[n + 1];
    score[0] := 0.0;
    var i := 1;
    while i <= n
      invariant 1 <= i <= n + 1 && score[0] == 0.0
      invariant forall k :: 1 <= k < i ==> score[k] == NEG_INF
    {
      score[i] := NEG_INF;
      backPiece[i] := -1;
      i := i + 1;
    }
    edges := seq(n + 1, k => Edge(0, 0, 0, false));
    var end := 1;
    while end <= n
      invariant 1 <= end <= n + 1 && |edges| == n + 1
      invariant Solved(t, r, score[..], edges, end - 1)
      invariant forall k :: end <= k <= n ==> score[k] == NEG_INF
      invariant forall k :: 1 <= k < end ==> backPiece[k] == edges[k].id && backStart[k] == edges[k].start
    {
      ghost var before := score[..];
      ghost var edge := Relax(t, r, end, score, backPiece, backStart);
      Extended(t, r, before, edges, score[..], edge, end);
      edges := edges[end := edge];
      end := end + 1;
    }
    best := score[..];
    TraceOk(t, r, best, edges, n, n);
    TracesOptimalIffClear(t, r, best, edges);
    out := WalkBack(n, backPiece, backStart, edges, r, t, best);
  }

  /** Recovers the ids from the back pointers, last first, and puts them in order. */
  method WalkBack(n: nat, backPiece: array<int>, backStart: array<nat>, ghost edges: seq<Edge>, ghost r: string, ghost t: Tokenizer,
                  ghost best: seq<real>)
    returns (out: seq<int>)
    requires |edges| == backPiece.Length == backStart.Length == n + 1 == |r| + 1
    requires Solved(t, r, best, edges, n)
    requires forall k :: 1 <= k <= n ==> backPiece[k] == edges[k].id && backStart[k] == edges[k].start
    ensures out == Ids(Trace(edges, n))
  {
    hide Linked, Chosen;
    var rev: seq<int> := [];
    var i := n;
    assert Flip([]) == [];
    while i > 0
      invariant 0 <= i <= n
      invariant Ids(Trace(edges, i)) + Flip(rev) == Ids(Trace(edges, n))
    {
      LinkBack(t, r, best, edges, n, i);
      ghost var before := Trace(edges, edges[i].start);
      assert Ids(before + [edges[i]]) == Ids(before) + [edges[i].id];
      assert Flip(rev + [backPiece[i]]) == [backPiece[i]] + Flip(rev);
      rev := rev + [backPiece[i]];
      i := backStart[i];
    }
    out := [];
    var k := 0;
    while k < |rev|
      invariant 0 <= k <= |rev| && out == Flip(rev)[..k]
    {
      out := out + [rev[|rev| - 1 - k]];
      k := k + 1;
    }
  }

  function Flip(s: seq<int>): seq<int> { seq(|s|, i requires 0 <= i < |s| => s[|s| - 1 - i]) }

  lemma LinkBack(t: Tokenizer, r: string, best: seq<real>, edges: seq<Edge>, n: nat, i: nat)
    requires Solved(t, r, best, edges, n) && 1 <= i <= n
    ensures edges[i].start < i && edges[i].end == i && edges[i].start <= n
  {
    SolvedAt(t, r, best, edges, n, i);
  }

  // ----- Decode, and the round trip -----

  function Rendered(t: Tokenizer, id: int): string {
    if id < 0 || id >= |t.pieces| || id in t.langTags then "" else Replace(t.pieces[id], MARKER, ' ')
  }

  function Joined(t: Tokenizer, ids: seq<int>): string {
    if ids == [] then "" else Joined(t, ids[..|ids| - 1]) + Rendered(t, ids[|ids| - 1])
  }

  /** strings.TrimLeft(s, " ") */
  function TrimSpaces(s: string): string { if s != "" && s[0] == ' ' then TrimSpaces(s[1..]) else s }

  /** A language tag is two small letters, or those, a dash and two capitals, between angle brackets. */
  lemma LangTagForms(piece: string)
    ensures IsLangTag(piece) <==>
              || (|piece| == 4 && piece[0] == '<' && IsLower(piece[1]) && IsLower(piece[2]) && piece[3] == '>')
              || (|piece| == 7 && piece[0] == '<' && IsLower(piece[1]) && IsLower(piece[2]) && piece[3] == '-'
                  && IsUpper(piece[4]) && IsUpper(piece[5]) && piece[6] == '>')
  {
  }

  lemma {:induction false} JoinedSplit(t: Tokenizer, a: seq<int>, b: seq<int>)
    ensures Joined(t, a + b) == Joined(t, a) + Joined(t, b)
    decreases |b|
  {
    hide Rendered;
    if b == [] {
      assert a + b == a;
    } else {
      var n := |b| - 1;
      assert (a + b)[..|a + b| - 1] == a + b[..n];
      JoinedSplit(t, a, b[..n]);
    }
  }

  /** Ids are shown one after the other; a tag or an id outside the vocabulary shows nothing, any other its
      piece with markers as spaces. */
  lemma JoinedShows(t: Tokenizer, a: seq<int>, id: int, b: seq<int>)
    ensures id < 0 || id >= |t.pieces| || id in t.langTags ==> Joined(t, a + [id] + b) == Joined(t, a + b)
    ensures 0 <= id < |t.pieces| && id !in t.langTags ==>
              exists shown: string ::
                && Joined(t, a + [id] + b) == Joined(t, a) + shown + Joined(t, b) && |shown| == |t.pieces[id]|
                && forall k :: 0 <= k < |shown| ==> shown[k] == if t.pieces[id][k] == MARKER then ' ' else t.pieces[id][k]
  {
    hide Joined, Rendered;
    JoinedSplit(t, a + [id], b);
    JoinedSplit(t, a, [id]);
    JoinedSplit(t, a, b);
    OneShown(t, id);
    var shown := Joined(t, [id]);
    assert Joined(t, a + [id] + b) == Joined(t, a) + shown + Joined(t, b);
    assert Joined(t, a) + "" == Joined(t, a);
  }

  lemma OneShown(t: Tokenizer, id: int)
    ensures id < 0 || id >= |t.pieces| || id in t.langTags ==> Joined(t, [id]) == ""
    ensures 0 <= id < |t.pieces| && id !in t.langTags ==>
              var shown := Joined(t, [id]);
              && |shown| == |t.pieces[id]|
              && forall k :: 0 <= k < |shown| ==> shown[k] == if t.pieces[id][k] == MARKER then ' ' else t.pieces[id][k]
  {
    assert [id][..0] == [];
    assert Joined(t, [id]) == Rendered(t, id);
  }

  method Decode(t: Tokenizer, ids: seq<int>) returns (text: string)
    ensures text == TrimSpaces(Joined(t, ids))
  {
    var b := "";
    var i := 0;
    while i < |ids|
      invariant 0 <= i <= |ids| && b == Joined(t, ids[..i])
    {
      assert ids[..i + 1][..i] == ids[..i];
      if !(ids[i] < 0 || ids[i] >= |t.pieces| || ids[i] in t.langTags) {
        b := b + Replace(t.pieces[ids[i]], MARKER, ' ');
      } else {
        assert b + "" == b;
      }
      i := i + 1;
    }
    assert ids[..i] == ids;
    var k := 0;
    while k < |b| && b[k] == ' '
      invariant 0 <= k <= |b| && TrimSpaces(b[k..]) == TrimSpaces(b)
    {
      assert b[k..][1..] == b[k + 1..];
      k := k + 1;
    }
    text := b[k..];
  }

  /** Neither unknown runes nor language tags were emitted. */
  predicate Plain(t: Tokenizer, ids: seq<int>) { forall k :: 0 <= k < |ids| ==> ids[k] != UNK && ids[k] !in t.langTags }

  /** The pieces of a path spell the text it covers. */
  lemma {:induction false} PathSpells(t: Tokenizer, r: string, p: seq<Edge>, i: nat)
    requires Valid(t) && PathTo(t, r, p, i) && i <= |r| && Plain(t, Ids(p))
    ensures Joined(t, Ids(p)) == Replace(r[..i], MARKER, ' ')
    decreases |p|
  {
    hide Valid;
    if p != [] {
      var e := p[|p| - 1];
      var rest := p[..|p| - 1];
      assert Ids(p) == Ids(rest) + [e.id];
      assert Ids(p)[..|rest|] == Ids(rest);
      assert Ids(p)[|rest|] == e.id;
      assert forall k :: 0 <= k < |rest| ==> Ids(rest)[k] == Ids(p)[k];
      PathSpells(t, r, rest, e.start);
      PieceOf(t, r[e.start..i], e.id);
      assert r[..i] == r[..e.start] + r[e.start..i];
    }
  }

  lemma PieceOf(t: Tokenizer, piece: string, id: nat)
    requires Valid(t) && piece in t.byId && t.byId[piece] == id
    ensures id < |t.pieces| && t.pieces[id] == piece
  {
  }

  /** Decoding what Encode returned gives the trimmed text back. */
  lemma DecodeInvertsEncode(t: Tokenizer, text: string, path: seq<Edge>)
    requires Valid(t) && PathTo(t, Normalize(text), path, |Normalize(text)|)
    requires Plain(t, Ids(path)) && MARKER !in text
    ensures TrimSpaces(Joined(t, Ids(path))) == TrimSpace(text)
  {
    hide TrimSpace, Valid, PathTo, Plain, Ids, Joined, Replace;
    var r := Normalize(text);
    var trimmed := TrimSpace(text);
    PathSpells(t, r, path, |r|);
    assert r[..|r|] == r;
    TrimmedFrom(text);
    if trimmed == "" {
      assert Replace("", MARKER, ' ') == "" by { NothingShown(); }
    } else {
      MarkersAreSpaces(trimmed);
      Unpadded(trimmed);
    }
  }

  lemma NothingShown()
    ensures Replace("", MARKER, ' ') == ""
  {
  }

  /** With no marker of its own, the text shows with one space before it. */
  lemma MarkersAreSpaces(trimmed: string)
    requires MARKER !in trimmed
    ensures Replace([MARKER] + Replace(trimmed, ' ', MARKER), MARKER, ' ') == [' '] + trimmed
  {
    assert forall k :: 0 <= k < |trimmed| ==> trimmed[k] in trimmed;
  }

  lemma Unpadded(trimmed: string)
    requires trimmed != "" && !IsSpace(trimmed[0])
    ensures TrimSpaces([' '] + trimmed) == trimmed
  {
    assert ([' '] + trimmed)[1..] == trimmed;
    assert trimmed[0] != ' ';
  }

  lemma TrimmedFrom(text: string)
    ensures var trimmed := TrimSpace(text);
            && (forall c :: c in trimmed ==> c in text)
            && (trimmed != "" ==> !IsSpace(trimmed[0]))
  {
    var l := TrimLeft(text);
    assert forall c :: c in l ==> c in text;
    var trimmed := TrimRight(l);
    assert forall c :: c in trimmed ==> c in l;
  }

  /** The marker as a piece that scores the sentinel itself. */
  const LOSSY := Tokenizer(["<unk>", [MARKER]], [0.0, NEG_INF], map["<unk>" := 0, [MARKER] := 1], {}, 5)

  lemma LossyIsValid()
    ensures Valid(LOSSY)
  {
    assert !IsLangTag("<unk>") && !IsLangTag([MARKER]);
  }

  lemma Shown()
    ensures Normalize("a") == [MARKER, 'a']
  {
    hide IsSpace, TrimLeft, TrimRight;
    LetterIsTrimmed();
    assert Replace("a", ' ', MARKER) == "a";
  }

  lemma LetterIsTrimmed()
    ensures TrimLeft("a") == "a" && TrimRight("a") == "a"
  {
    hide IsSpace;
    LetterIsNoSpace();
  }

  lemma LetterIsNoSpace()
    ensures !IsSpace('a')
  {
  }

  const SHOWN: string := [MARKER, 'a']

  lemma LossyPieces()
    ensures PieceAt(LOSSY, SHOWN, 0, 1) && PieceEdge(LOSSY, SHOWN, 0, 1) == Edge(0, 1, 1, false)
    ensures forall s :: PieceAt(LOSSY, SHOWN, s, 1) ==> s == 0
    ensures forall s :: !PieceAt(LOSSY, SHOWN, s, 2)
  {
    assert SHOWN[0..1] == [MARKER] && SHOWN[1..2] == ['a'] && SHOWN[0..2] == SHOWN;
  }

  lemma LossyValue()
    ensures !ClearAt(LOSSY, SHOWN, 1)
  {
    hide Value, PieceAt, PieceEdge;
    LossyPieces();
    ValueStep(LOSSY, SHOWN, 1);
    ValueOfNothing(LOSSY, SHOWN);
    assert PieceEnds(LOSSY, SHOWN, 1);
    assert Candidate(LOSSY, SHOWN, 0, 1) == NEG_INF;
  }

  lemma LossyEntry(best: seq<real>, e: Edge, i: nat)
    requires i < |best| && 1 <= i <= 2 && best[0] == 0.0
    requires Linked(LOSSY, SHOWN, best, e, i) && Chosen(LOSSY, SHOWN, best, e, i)
    ensures e.unk && e == Edge(i - 1, i, UNK, true)
  {
    hide PieceEdge;
    LossyPieces();
    if !e.unk { NotLossyPiece(best, e, i); }
  }

  /** The marker's own score keeps it out of the table. */
  lemma NotLossyPiece(best: seq<real>, e: Edge, i: nat)
    requires i < |best| && 1 <= i <= 2 && best[0] == 0.0 && !e.unk && Linked(LOSSY, SHOWN, best, e, i)
    ensures best[i] == NEG_INF
  {
    hide PieceEdge;
    LossyPieces();
    assert PieceAt(LOSSY, SHOWN, e.start, i);
    assert i == 1 && e.start == 0 && e.id == 1;
    assert Weight(LOSSY, e) == NEG_INF;
  }

  /** A piece that scores the sentinel is taken for unreachable, and the unknown rune is used where
      it ends: whatever table Encode fills for the text "a", the path it returns is not a best one. */
  lemma SentinelScoreLosesPiece(best: seq<real>, edges: seq<Edge>)
    requires Solved(LOSSY, Normalize("a"), best, edges, 2)
    ensures Valid(LOSSY) && Normalize("a") == [MARKER, 'a'] && PieceAt(LOSSY, Normalize("a"), 0, 1)
    ensures Ids(Trace(edges, 2)) == [UNK, UNK]
    ensures !Strict(LOSSY, Normalize("a"), Trace(edges, 2))
    ensures !Optimal(LOSSY, Normalize("a"), Trace(edges, 2), 2) && !Clear(LOSSY, Normalize("a"))
  {
    hide Valid, Value, ClearAt, Normalize, Linked, Chosen, PieceAt, PathTo, Score;
    LossyIsValid();
    Shown();
    LossyPieces();
    LossyValue();
    SolvedAt(LOSSY, SHOWN, best, edges, 2, 1);
    SolvedAt(LOSSY, SHOWN, best, edges, 2, 2);
    LossyEntry(best, edges[1], 1);
    LossyEntry(best, edges[2], 2);
    assert Trace(edges, 1) == [edges[1]] by { assert Trace(edges, 0) == []; }
    var p := Trace(edges, 2);
    assert p == [edges[1], edges[2]] && p[0].unk && p[0].end == 1;
    assert PieceEnds(LOSSY, SHOWN, 1);
  }
}
