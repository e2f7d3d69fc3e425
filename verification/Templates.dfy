/** Values, scopes, and how references and templates are resolved against a scope. */
module Templates {
  import opened Wrappers
  import opened Text
  import opened Selector

  /** A decoded JSON value. */
  datatype Value =
    | Null
    | Bool(b: bool)
    | Num(x: real)
    | Str(s: string)
    | Arr(items: seq<Value>)
    | Obj(fields: map<string, Value>)

  type Scope = map<string, Value>

  datatype LookupError =
    | Malformed(why: ParseError)
    | Unbound(root: string)    // the root is not in the scope
    | Missing                  // a deeper key or index is absent
    | WrongShape               // an object is indexed, an array is keyed, or a scalar is entered

  function Walk(cur: Value, segs: seq<Seg>): Result<Value, LookupError>
    decreases |segs|
  {
    if segs == [] then Ok(cur)
    else
      match (cur, segs[0])
      case (Obj(m), Key(k)) => if k in m then Walk(m[k], segs[1..]) else Err(Missing)
      case (Arr(a), Idx(i)) => if i < |a| then Walk(a[i], segs[1..]) else Err(Missing)
      case _ => Err(WrongShape)
  }

  /** The specification of scope.resolve. */
  function Resolve(sc: Scope, ref: string): Result<Value, LookupError> {
    ParseShape(ref);
    match Parse(ref)
    case Err(e) => Err(Malformed(e))
    case Ok(segs) => if segs[0].name in sc then Walk(sc[segs[0].name], segs[1..]) else Err(Unbound(segs[0].name))
  }

  method ResolveRef(sc: Scope, ref: string) returns (r: Result<Value, LookupError>)
    ensures r == Resolve(sc, ref)
  {
    var parsed := ParsePath(ref);
    ParseShape(ref);
    if parsed.Err? { return Err(Malformed(parsed.error)); }
    var segs := parsed.value;
    if segs[0].name !in sc { return Err(Unbound(segs[0].name)); }
    var cur := sc[segs[0].name];
    var k := 1;
    while k < |segs|
      invariant 1 <= k <= |segs|
      invariant Walk(cur, segs[k..]) == Resolve(sc, ref)
    {
      assert segs[k..][0] == segs[k] && segs[k..][1..] == segs[k + 1..];
      match cur {
        case Obj(m) =>
          if segs[k].Idx? { return Err(WrongShape); }
          if segs[k].name !in m { return Err(Missing); }
          cur := m[segs[k].name];
        case Arr(a) =>
          if segs[k].Key? { return Err(WrongShape); }
          if segs[k].index >= |a| { return Err(Missing); }
          cur := a[segs[k].index];
        case _ => return Err(WrongShape);
      }
      k := k + 1;
    }
    return Ok(cur);
  }

  /** A reference fails for its root only if it does not parse or the root is unbound. */
  lemma ResolveRoot(sc: Scope, ref: string)
    ensures Resolve(sc, ref).Err? && Resolve(sc, ref).error.Malformed? <==> RootOf(ref) == ""
    ensures Resolve(sc, ref).Err? && Resolve(sc, ref).error.Unbound?
            <==> RootOf(ref) != "" && RootOf(ref) !in sc
    ensures Resolve(sc, ref) == Err(Unbound(RootOf(ref))) <== RootOf(ref) != "" && RootOf(ref) !in sc
  {
    RootIffParses(ref);
    ParseShape(ref);
    if Parse(ref).Ok? && RootOf(ref) in sc {
      WalkErrors(sc[RootOf(ref)], Parse(ref).value[1..]);
    }
  }

  lemma {:induction false} WalkErrors(cur: Value, segs: seq<Seg>)
    ensures Walk(cur, segs).Err? ==> Walk(cur, segs).error == Missing || Walk(cur, segs).error == WrongShape
    decreases |segs|
  {
    if segs != [] {
      match (cur, segs[0]) {
        case (Obj(m), Key(k)) => if k in m { WalkErrors(m[k], segs[1..]); }
        case (Arr(a), Idx(i)) => if i < |a| { WalkErrors(a[i], segs[1..]); }
        case _ =>
      }
    }
  }

  // ----- what a reference denotes -----

  /** One step of a path: the object holds the key, or the list is longer than the index, with `next` there. */
  predicate Link(cur: Value, seg: Seg, next: Value) {
    || (cur.Obj? && seg.Key? && seg.name in cur.fields && cur.fields[seg.name] == next)
    || (cur.Arr? && seg.Idx? && seg.index < |cur.items| && cur.items[seg.index] == next)
  }

  /** The values along a path: the one it starts from, and one after each segment. */
  ghost predicate Chain(vs: seq<Value>, path: seq<Seg>) {
    |vs| == |path| + 1 && forall k :: 0 <= k < |path| ==> Link(vs[k], path[k], vs[k + 1])
  }

  /** An object lacks the key, or a list is too short. */
  predicate Lacks(cur: Value, seg: Seg) {
    || (cur.Obj? && seg.Key? && seg.name !in cur.fields)
    || (cur.Arr? && seg.Idx? && seg.index >= |cur.items|)
  }

  /** A list is keyed, an object indexed, or something else entered. */
  predicate Misfits(cur: Value, seg: Seg) {
    (cur.Obj? && seg.Idx?) || (cur.Arr? && seg.Key?) || (!cur.Obj? && !cur.Arr?)
  }

  /** The path can be followed along vs, to the value that its next segment is applied to. */
  ghost predicate LeadsThrough(vs: seq<Value>, path: seq<Seg>) { 0 < |vs| <= |path| && Chain(vs, path[..|vs| - 1]) }

  ghost predicate MissesAt(vs: seq<Value>, path: seq<Seg>) {
    LeadsThrough(vs, path) && Lacks(vs[|vs| - 1], path[|vs| - 1])
  }

  ghost predicate MisfitsAt(vs: seq<Value>, path: seq<Seg>) {
    LeadsThrough(vs, path) && Misfits(vs[|vs| - 1], path[|vs| - 1])
  }

  lemma {:induction false} WalkChain(cur: Value, path: seq<Seg>) returns (vs: seq<Value>)
    ensures vs != [] && vs[0] == cur
    ensures Walk(cur, path).Ok? ==> Chain(vs, path) && vs[|vs| - 1] == Walk(cur, path).value
    ensures Walk(cur, path) == Err(Missing) ==> MissesAt(vs, path)
    ensures Walk(cur, path) == Err(WrongShape) ==> MisfitsAt(vs, path)
    decreases |path|
  {
    vs := [cur];
    if path != [] {
      match (cur, path[0]) {
        case (Obj(m), Key(k)) =>
          if k in m {
            var rest := WalkChain(m[k], path[1..]);
            Prepend(cur, rest, path);
            vs := [cur] + rest;
          }
        case (Arr(a), Idx(i)) =>
          if i < |a| {
            var rest := WalkChain(a[i], path[1..]);
            Prepend(cur, rest, path);
            vs := [cur] + rest;
          }
        case _ =>
      }
    }
  }

  lemma PrependChain(cur: Value, rest: seq<Value>, path: seq<Seg>)
    requires path != [] && rest != [] && Link(cur, path[0], rest[0]) && Chain(rest, path[1..])
    ensures Chain([cur] + rest, path)
  {
    hide Link;
    var vs := [cur] + rest;
    forall k | 0 <= k < |path| ensures Link(vs[k], path[k], vs[k + 1]) {
      if k > 0 { assert Link(rest[k - 1], path[1..][k - 1], rest[k]); }
    }
  }

  lemma TakeTail<T>(path: seq<T>, n: nat)
    requires n < |path|
    ensures path[..n + 1][1..] == path[1..][..n] && path[..n + 1][0] == path[0]
  {
  }

  lemma Prepend(cur: Value, rest: seq<Value>, path: seq<Seg>)
    requires path != [] && rest != [] && Link(cur, path[0], rest[0])
    ensures Chain(rest, path[1..]) ==> Chain([cur] + rest, path)
    ensures MissesAt(rest, path[1..]) ==> MissesAt([cur] + rest, path)
    ensures MisfitsAt(rest, path[1..]) ==> MisfitsAt([cur] + rest, path)
  {
    hide Link, Lacks, Misfits, Chain;
    if Chain(rest, path[1..]) { PrependChain(cur, rest, path); }
    if LeadsThrough(rest, path[1..]) {
      TakeTail(path, |rest| - 1);
      PrependChain(cur, rest, path[..|rest|]);
      assert ([cur] + rest)[|rest|] == rest[|rest| - 1];
    }
  }

  /** A path followed to its end leads where Walk goes, and one that breaks fails as Walk does. */
  lemma {:induction false} ChainWalks(vs: seq<Value>, path: seq<Seg>)
    requires vs != []
    ensures Chain(vs, path) ==> Walk(vs[0], path) == Ok(vs[|vs| - 1])
    ensures MissesAt(vs, path) ==> Walk(vs[0], path) == Err(Missing)
    ensures MisfitsAt(vs, path) ==> Walk(vs[0], path) == Err(WrongShape)
    decreases |path|
  {
    if path != [] && |vs| > 1 && (Chain(vs, path) || LeadsThrough(vs, path)) {
      assert Link(vs[0], path[0], vs[1]) by {
        if LeadsThrough(vs, path) { assert path[..|vs| - 1][0] == path[0]; }
      }
      Behead(vs, path);
      ChainWalks(vs[1..], path[1..]);
    }
  }

  lemma BeheadChain(vs: seq<Value>, path: seq<Seg>)
    requires path != [] && |vs| > 1 && Chain(vs, path)
    ensures Chain(vs[1..], path[1..])
  {
    hide Link;
    forall k | 0 <= k < |path| - 1 ensures Link(vs[1..][k], path[1..][k], vs[1..][k + 1]) {
      assert Link(vs[k + 1], path[k + 1], vs[k + 2]);
    }
  }

  lemma Behead(vs: seq<Value>, path: seq<Seg>)
    requires path != [] && |vs| > 1
    ensures Chain(vs, path) ==> Chain(vs[1..], path[1..])
    ensures MissesAt(vs, path) ==> MissesAt(vs[1..], path[1..])
    ensures MisfitsAt(vs, path) ==> MisfitsAt(vs[1..], path[1..])
  {
    hide Link, Lacks, Misfits, Chain;
    if Chain(vs, path) { BeheadChain(vs, path); }
    if LeadsThrough(vs, path) {
      TakeTail(path, |vs| - 2);
      BeheadChain(vs, path[..|vs| - 1]);
    }
  }

  /** The reference parses, its root is bound, and vs starts from the root's value. */
  ghost predicate Starts(sc: Scope, ref: string, vs: seq<Value>) {
    Parse(ref).Ok? && RootOf(ref) in sc && vs != [] && vs[0] == sc[RootOf(ref)]
  }

  /** The segments after the root. */
  function PathOf(ref: string): seq<Seg> { if Parse(ref).Ok? && |Parse(ref).value| > 0 then Parse(ref).value[1..] else [] }

  /** A reference resolves to v exactly if a chain of links leads from its bound root to v; it fails
      for a missing key or index, or for a wrong shape, exactly if the first link that breaks does so
      for that reason. */
  lemma ResolveMeans(sc: Scope, ref: string, v: Value)
    ensures Resolve(sc, ref) == Ok(v) <==> exists vs :: Starts(sc, ref, vs) && Chain(vs, PathOf(ref)) && vs[|vs| - 1] == v
    ensures Resolve(sc, ref) == Err(Missing) <==> exists vs :: Starts(sc, ref, vs) && MissesAt(vs, PathOf(ref))
    ensures Resolve(sc, ref) == Err(WrongShape) <==> exists vs :: Starts(sc, ref, vs) && MisfitsAt(vs, PathOf(ref))
  {
    hide Walk, Parse, Chain, MissesAt, MisfitsAt;
    RootIffParses(ref);
    ParseShape(ref);
    if Parse(ref).Ok? && RootOf(ref) in sc {
      var path := PathOf(ref);
      assert Resolve(sc, ref) == Walk(sc[RootOf(ref)], path);
      var us := WalkChain(sc[RootOf(ref)], path);
      WalkErrors(sc[RootOf(ref)], path);
      assert Starts(sc, ref, us);
      forall vs | Starts(sc, ref, vs)
        ensures Chain(vs, path) ==> Resolve(sc, ref) == Ok(vs[|vs| - 1])
        ensures MissesAt(vs, path) ==> Resolve(sc, ref) == Err(Missing)
        ensures MisfitsAt(vs, path) ==> Resolve(sc, ref) == Err(WrongShape)
      {
        ChainWalks(vs, path);
      }
    }
  }

  // ----- templates -----

  datatype Cut = NoMore | Unclosed | Cut(before: string, ref: string, rest: string)

  /** The first `${...}` of a template. */
  function CutRef(t: string): (c: Cut)
    ensures c.Cut? ==> |c.rest| < |t|
  {
    var start := Index(t, "${");
    if start < 0 then NoMore
    else
      var end := Index(t[start..], "}");
      if end < 0 then Unclosed
      else
        assert t[start..][..2] == "${" && t[start..][end] == '}';
        Cut(t[..start], TrimSpace(t[start + 2..start + end]), t[start + end + 1..])
  }

  datatype ExpandError =
    | TemplateTooLong | Unterminated | Lookup(why: LookupError) | Unrenderable | TooBig | TooMany

  type Render = Value -> Option<string>

  datatype Turn = Return(r: Result<string, ExpandError>) | Continue(rest: string, built: string)

  /** One turn of the expander's loop, after `n` expansions. */
  function ExpandTurn(sc: Scope, render: Render, t: string, built: string, n: nat): (turn: Turn)
    ensures turn.Continue? ==> |turn.rest| < |t|
  {
    match CutRef(t)
    case NoMore => Return(if |built + t| > MAX_EXPANDED then Err(TooBig) else Ok(built + t))
    case Unclosed => Return(Err(Unterminated))
    case Cut(before, ref, rest) =>
      var v := Resolve(sc, ref);
      if v.Err? then Return(Err(Lookup(v.error)))
      else
        var text := render(v.value);
        if text.None? then Return(Err(Unrenderable))
        else
          var built' := built + before + text.value;
          if |built'| > MAX_EXPANDED then Return(Err(TooBig))
          else if n + 1 > MAX_TEMPLATE_EXPAND then Return(Err(TooMany))
          else Continue(rest, built')
  }

  function ExpandRest(sc: Scope, render: Render, t: string, built: string, n: nat): Result<string, ExpandError>
    decreases |t|
  {
    match ExpandTurn(sc, render, t, built, n)
    case Return(r) => r
    case Continue(rest, built') => ExpandRest(sc, render, rest, built', n + 1)
  }

  /** The specification of scope.expand. */
  function Expand(sc: Scope, render: Render, t: string): Result<string, ExpandError> {
    if |t| > MAX_SELECTOR_LEN * MAX_TEMPLATE_EXPAND then Err(TemplateTooLong)
    else ExpandRest(sc, render, t, "", 0)
  }

  method ExpandTemplate(sc: Scope, render: Render, tmpl: string) returns (r: Result<string, ExpandError>)
    ensures r == Expand(sc, render, tmpl)
  {
    hide Resolve, CutRef;
    if |tmpl| > MAX_SELECTOR_LEN * MAX_TEMPLATE_EXPAND { return Err(TemplateTooLong); }
    var t, b, n := tmpl, "", 0;
    while true
      invariant ExpandRest(sc, render, t, b, n) == Expand(sc, render, tmpl)
      decreases |t|
    {
      ghost var turn := ExpandTurn(sc, render, t, b, n);
      var cut := CutRef(t);
      if cut.NoMore? {
        b := b + t;
        break;
      }
      if cut.Unclosed? { return Err(Unterminated); }
      var v := ResolveRef(sc, cut.ref);
      if v.Err? { return Err(Lookup(v.error)); }
      var text := render(v.value);
      if text.None? { return Err(Unrenderable); }
      b := b + cut.before + text.value;
      if |b| > MAX_EXPANDED { return Err(TooBig); }
      n := n + 1;
      if n > MAX_TEMPLATE_EXPAND { return Err(TooMany); }
      t := cut.rest;
      assert turn == Continue(t, b);
    }
    if |b| > MAX_EXPANDED { return Err(TooBig); }
    return Ok(b);
  }

  // ----- what a template expands to -----

  /** Literal text, and what stands between the braces after it. */
  datatype Part = Part(before: string, inner: string)

  /** The text opens no interpolation, and nothing between the braces closes one. */
  predicate PartOk(p: Part) { Index(p.before, "${") < 0 && Index(p.inner, "}") < 0 }

  ghost predicate PartsOk(parts: seq<Part>, last: string) {
    (forall k :: 0 <= k < |parts| ==> PartOk(parts[k])) && Index(last, "${") < 0
  }

  /** The template as it is written. */
  function Source(parts: seq<Part>, last: string): string {
    if parts == [] then last else parts[0].before + "${" + parts[0].inner + "}" + Source(parts[1..], last)
  }

  predicate Shows(sc: Scope, render: Render, p: Part) {
    Resolve(sc, TrimSpace(p.inner)).Ok? && render(Resolve(sc, TrimSpace(p.inner)).value).Some?
  }

  ghost predicate AllShow(sc: Scope, render: Render, parts: seq<Part>) {
    forall k :: 0 <= k < |parts| ==> Shows(sc, render, parts[k])
  }

  /** The text with every interpolation replaced by the rendering of what it refers to. */
  function Rendered(sc: Scope, render: Render, parts: seq<Part>, last: string): string {
    if parts == [] then last
    else if !Shows(sc, render, parts[0]) then ""
    else
      parts[0].before + render(Resolve(sc, TrimSpace(parts[0].inner)).value).value
      + Rendered(sc, render, parts[1..], last)
  }

  lemma OpensAt(t: string, j: int)
    ensures OccursAt(t, "${", j) <==> 0 <= j && j + 1 < |t| && t[j] == '$' && t[j + 1] == '{'
  {
    if 0 <= j && j + 1 < |t| { assert t[j..] == [t[j], t[j + 1]] + t[j + 2..]; }
  }

  lemma ClosesAt(t: string, j: int)
    ensures OccursAt(t, "}", j) <==> 0 <= j < |t| && t[j] == '}'
  {
    if 0 <= j < |t| { assert t[j..] == [t[j]] + t[j + 1..]; }
  }

  lemma FirstOpen(before: string, rest: string)
    requires Index(before, "${") < 0
    ensures Index(before + "${" + rest, "${") == |before|
  {
    var t := before + "${" + rest;
    OpensAt(t, |before|);
    forall j | 0 <= j < |before| ensures !OccursAt(t, "${", j) {
      OpensAt(t, j);
      OpensAt(before, j);
    }
  }

  lemma FirstClose(inner: string, rest: string)
    requires Index(inner, "}") < 0
    ensures Index("${" + inner + "}" + rest, "}") == 2 + |inner|
  {
    var t := "${" + inner + "}" + rest;
    ClosesAt(t, 2 + |inner|);
    forall j | 0 <= j < 2 + |inner| ensures !OccursAt(t, "}", j) {
      ClosesAt(t, j);
      ClosesAt(inner, j - 2);
    }
  }

  lemma CutPart(p: Part, rest: string)
    requires PartOk(p)
    ensures CutRef(p.before + "${" + p.inner + "}" + rest) == Cut(p.before, TrimSpace(p.inner), rest)
  {
    hide Index, TrimSpace;
    var t := p.before + "${" + p.inner + "}" + rest;
    assert t == p.before + "${" + (p.inner + "}" + rest);
    FirstOpen(p.before, p.inner + "}" + rest);
    assert t[|p.before|..] == "${" + p.inner + "}" + rest;
    FirstClose(p.inner, rest);
    assert t[..|p.before|] == p.before;
    assert t[|p.before| + 2..|p.before| + 2 + |p.inner|] == p.inner;
    assert t[|p.before| + 2 + |p.inner| + 1..] == rest;
  }

  lemma FirstShows(sc: Scope, render: Render, parts: seq<Part>)
    requires parts != [] && Shows(sc, render, parts[0])
    ensures AllShow(sc, render, parts) <==> AllShow(sc, render, parts[1..])
  {
    hide Shows;
    if AllShow(sc, render, parts[1..]) {
      forall k | 0 <= k < |parts| ensures Shows(sc, render, parts[k]) {
        if k > 0 { assert Shows(sc, render, parts[1..][k - 1]); }
      }
    }
  }

  lemma Joined(a: string, b: string, c: string, d: string)
    ensures a + b + c + d == a + (b + c + d)
  {
  }

  /** The expansion of what remains, after what is built. */
  function Whole(sc: Scope, render: Render, parts: seq<Part>, last: string, built: string): string {
    built + Rendered(sc, render, parts, last)
  }

  /** The expander's result on a written template: the rendered text, unless something does not
      resolve or render, or a limit is passed. */
  lemma {:induction false} ExpandParts(sc: Scope, render: Render, parts: seq<Part>, last: string, built: string, n: nat)
    requires PartsOk(parts, last) && n <= MAX_TEMPLATE_EXPAND
    ensures var r, whole := ExpandRest(sc, render, Source(parts, last), built, n), Whole(sc, render, parts, last, built);
            if AllShow(sc, render, parts) && |whole| <= MAX_EXPANDED && n + |parts| <= MAX_TEMPLATE_EXPAND
            then r == Ok(whole) else r.Err?
    decreases |parts|
  {
    hide ExpandRest, Shows, Source, Whole, Rendered, AllShow, PartOk, Grown;
    if parts == [] {
      PlainEnd(sc, render, last, built, n);
    } else {
      assert PartOk(parts[0]);
      assert forall k :: 0 <= k < |parts[1..]| ==> parts[1..][k] == parts[k + 1];
      ExpandOnce(sc, render, parts, last, built, n);
      if Shows(sc, render, parts[0]) {
        WholeSplits(sc, render, parts, last, built);
        if n < MAX_TEMPLATE_EXPAND { ExpandParts(sc, render, parts[1..], last, Grown(sc, render, parts[0], built), n + 1); }
        FirstShows(sc, render, parts);
      } else {
        NotAllShow(sc, render, parts);
      }
    }
  }

  /** What is built once the part's text and rendering are appended. */
  function Grown(sc: Scope, render: Render, p: Part, built: string): string
    requires Shows(sc, render, p)
  {
    built + p.before + render(Resolve(sc, TrimSpace(p.inner)).value).value
  }

  lemma ExpandOnce(sc: Scope, render: Render, parts: seq<Part>, last: string, built: string, n: nat)
    requires parts != [] && PartOk(parts[0])
    ensures var r := ExpandRest(sc, render, Source(parts, last), built, n);
            if !Shows(sc, render, parts[0]) then r.Err?
            else
              var built' := Grown(sc, render, parts[0], built);
              if |built'| > MAX_EXPANDED || n >= MAX_TEMPLATE_EXPAND then r.Err?
              else r == ExpandRest(sc, render, Source(parts[1..], last), built', n + 1)
  {
    hide CutRef, Resolve, TrimSpace, Index;
    CutPart(parts[0], Source(parts[1..], last));
  }

  lemma WholeSplits(sc: Scope, render: Render, parts: seq<Part>, last: string, built: string)
    requires parts != [] && Shows(sc, render, parts[0])
    ensures var built' := Grown(sc, render, parts[0], built);
            && Whole(sc, render, parts, last, built) == Whole(sc, render, parts[1..], last, built')
            && |built'| <= |Whole(sc, render, parts[1..], last, built')|
  {
    hide Resolve, TrimSpace;
    Joined(built, parts[0].before, render(Resolve(sc, TrimSpace(parts[0].inner)).value).value,
           Rendered(sc, render, parts[1..], last));
  }

  lemma NotAllShow(sc: Scope, render: Render, parts: seq<Part>)
    requires parts != [] && !Shows(sc, render, parts[0])
    ensures !AllShow(sc, render, parts)
  {
  }

  lemma PlainEnd(sc: Scope, render: Render, last: string, built: string, n: nat)
    requires Index(last, "${") < 0
    ensures Source([], last) == last && AllShow(sc, render, [])
    ensures var r, whole := ExpandRest(sc, render, last, built, n), Whole(sc, render, [], last, built);
            if |whole| <= MAX_EXPANDED then r == Ok(whole) else r.Err?
  {
    PlainCut(last);
  }

  lemma PlainCut(last: string)
    requires Index(last, "${") < 0
    ensures CutRef(last) == NoMore
  {
  }

  /** Every template is written in one of two ways: closed parts and a plain end, or with an
      interpolation that never closes. */
  lemma {:induction false} Written(t: string) returns (parts: seq<Part>, last: string, closed: bool)
    ensures forall k :: 0 <= k < |parts| ==> PartOk(parts[k])
    ensures t == Source(parts, last) && (closed ==> PartsOk(parts, last))
    ensures !closed ==> CutRef(last) == Unclosed
    decreases |t|
  {
    hide TrimSpace, Index, PartOk;
    parts, last, closed := [], t, CutRef(t).NoMore?;
    if CutRef(t).Cut? {
      var start := Index(t, "${");
      var end := Index(t[start..], "}");
      CutBounds(t, start, end);
      CutPartOk(t, start, end);
      var close := start + end;
      Reassembled(t, start, close);
      var p := Part(t[..start], t[start + 2..close]);
      var more, last', closed' := Written(t[close + 1..]);
      parts, last, closed := [p] + more, last', closed';
      assert parts[1..] == more;
    }
  }

  lemma CutBounds(t: string, start: int, end: int)
    requires start == Index(t, "${") && 0 <= start <= |t| && end == Index(t[start..], "}") && end >= 0
    ensures 2 <= end && start + end < |t|
    ensures t[start] == '$' && t[start + 1] == '{' && t[start + end] == '}'
  {
    hide Index, OccursAt;
    var tail := t[start..];
    OpensAt(t, start);
    ClosesAt(tail, end);
    assert tail[0] == t[start] && tail[1] == t[start + 1] && tail[end] == t[start + end];
  }

  lemma CutPartOk(t: string, start: int, end: int)
    requires start == Index(t, "${") && 0 <= start <= |t| && end == Index(t[start..], "}")
    requires 2 <= end && start + end < |t|
    ensures PartOk(Part(t[..start], t[start + 2..start + end]))
  {
    hide Index, OccursAt;
    NoOpenBefore(t, start);
    NoCloseInside(t[start..], end);
    SliceOfTail(t, start, 2, end);
  }

  lemma SliceOfTail(t: string, start: nat, a: nat, b: nat)
    requires a <= b && start + b <= |t|
    ensures t[start..][a..b] == t[start + a..start + b]
  {
  }

  lemma Reassembled(t: string, i: nat, j: nat)
    requires i + 2 <= j < |t| && t[i] == '$' && t[i + 1] == '{' && t[j] == '}'
    ensures t == t[..i] + "${" + t[i + 2..j] + "}" + t[j + 1..]
  {
    assert t[i..i + 2] == "${" && t[j..j + 1] == "}";
    assert t == t[..i] + t[i..i + 2] + t[i + 2..j] + t[j..j + 1] + t[j + 1..];
  }

  lemma NoOpenBefore(t: string, start: int)
    requires start == Index(t, "${") && 0 <= start <= |t|
    ensures Index(t[..start], "${") < 0
  {
    var j := Index(t[..start], "${");
    OpensAt(t[..start], j);
    OpensAt(t, j);
  }

  lemma NoCloseInside(tail: string, end: int)
    requires end == Index(tail, "}") && 2 <= end <= |tail|
    ensures Index(tail[2..end], "}") < 0
  {
    var j := Index(tail[2..end], "}");
    ClosesAt(tail[2..end], j);
    ClosesAt(tail, j + 2);
  }

  /** An expansion is the template's text with every interpolation replaced by the rendering of the
      value its trimmed reference resolves to; it succeeds exactly if all of them resolve and render
      and no limit is passed. */
  lemma ExpandMeans(sc: Scope, render: Render, parts: seq<Part>, last: string)
    requires PartsOk(parts, last)
    ensures var t := Source(parts, last);
            && (Expand(sc, render, t).Ok? <==>
                  && |t| <= MAX_SELECTOR_LEN * MAX_TEMPLATE_EXPAND && |parts| <= MAX_TEMPLATE_EXPAND
                  && AllShow(sc, render, parts) && |Rendered(sc, render, parts, last)| <= MAX_EXPANDED)
            && (Expand(sc, render, t).Ok? ==> Expand(sc, render, t).value == Rendered(sc, render, parts, last))
  {
    hide ExpandRest;
    ExpandParts(sc, render, parts, last, "", 0);
    assert "" + Rendered(sc, render, parts, last) == Rendered(sc, render, parts, last);
  }

  /** The references of a template in order, or None where it cannot be scanned. */
  function Refs(t: string): Option<seq<string>>
    decreases |t|
  {
    match CutRef(t)
    case NoMore => Some([])
    case Unclosed => None
    case Cut(_, ref, rest) =>
      var more := Refs(rest);
      if RootOf(ref) == "" || more.None? then None else Some([ref] + more.value)
  }

  ghost predicate RootsOf(roots: seq<string>, refs: seq<string>) {
    && (forall ref :: ref in refs ==> RootOf(ref) in roots)
    && (forall r :: r in roots ==> exists ref :: ref in refs && RootOf(ref) == r)
    && (forall i, j :: 0 <= i < j < |roots| ==> roots[i] != roots[j])
  }

  /** scanTemplateRefs: the deduplicated roots, or an error. */
  method ScanTemplateRefs(tmpl: string) returns (r: Option<seq<string>>)
    ensures r.Some? <==> Refs(tmpl).Some?
    ensures r.Some? ==> RootsOf(r.value, Refs(tmpl).value)
  {
    hide RootOf, CutRef;
    var rest := tmpl;
    var roots: seq<string> := [];
    ghost var seen: seq<string> := [];
    assert Refs(tmpl).Some? ==> seen + Refs(tmpl).value == Refs(tmpl).value;
    while true
      invariant RootsOf(roots, seen)
      invariant Refs(tmpl).Some? <==> Refs(rest).Some?
      invariant Refs(rest).Some? ==> Refs(tmpl) == Some(seen + Refs(rest).value)
      decreases |rest|
    {
      var cut := CutRef(rest);
      if cut.NoMore? {
        assert seen + [] == seen;
        return Some(roots);
      }
      if cut.Unclosed? { return None; }
      var root := RootOf(cut.ref);
      if root == "" { return None; }
      ghost var more := Refs(cut.rest);
      assert more.Some? ==> seen + ([cut.ref] + more.value) == seen + [cut.ref] + more.value;
      AddRoot(roots, seen, cut.ref);
      if root !in roots { roots := roots + [root]; }
      seen := seen + [cut.ref];
      rest := cut.rest;
    }
  }

  lemma AddRoot(roots: seq<string>, refs: seq<string>, ref: string)
    requires RootsOf(roots, refs)
    ensures RootsOf(if RootOf(ref) in roots then roots else roots + [RootOf(ref)], refs + [ref])
  {
    var refs' := refs + [ref];
    forall r | r in roots ensures exists f :: f in refs' && RootOf(f) == r {
      var f :| f in refs && RootOf(f) == r;
      assert f in refs';
    }
    assert ref in refs';
  }

  predicate Structural(e: ExpandError) { e.Unterminated? || (e.Lookup? && e.why.Malformed?) }

  lemma {:induction false} ScanRest(sc: Scope, render: Render, t: string, built: string, n: nat)
    ensures Refs(t).Some? ==>
              var r := ExpandRest(sc, render, t, built, n);
              && (r.Err? ==> !Structural(r.error))
              && (r.Err? && r.error.Lookup? && r.error.why.Unbound? ==>
                    r.error.why.root !in sc && exists ref :: ref in Refs(t).value && RootOf(ref) == r.error.why.root)
              && (r.Ok? ==> forall ref :: ref in Refs(t).value ==> RootOf(ref) in sc)
    ensures Refs(t).None? ==> ExpandRest(sc, render, t, built, n).Err?
    decreases |t|
  {
    hide RootOf, Resolve, CutRef;
    var cut := CutRef(t);
    if cut.Cut? {
      ResolveRoot(sc, cut.ref);
      var turn := ExpandTurn(sc, render, t, built, n);
      if turn.Continue? { ScanRest(sc, render, turn.rest, turn.built, n + 1); }
      if Refs(t).Some? {
        assert Refs(t).value == [cut.ref] + Refs(cut.rest).value;
        assert cut.ref in Refs(t).value;
      }
    }
  }

  /** A template that scans fails to expand only on a lookup, on rendering or on size; the roots
      it can miss are exactly the scanned ones; a template that does not scan never expands. */
  lemma ScanIsExact(sc: Scope, render: Render, t: string, roots: seq<string>)
    requires Refs(t).Some? ==> RootsOf(roots, Refs(t).value)
    ensures Refs(t).Some? && Expand(sc, render, t).Err? ==> !Structural(Expand(sc, render, t).error)
    ensures Refs(t).Some? && (forall r :: r in roots ==> r in sc) ==>
              var e := Expand(sc, render, t);
              !(e.Err? && e.error.Lookup? && e.error.why.Unbound?)
    ensures Refs(t).Some? && (exists r :: r in roots && r !in sc) ==> Expand(sc, render, t).Err?
    ensures Refs(t).None? ==> Expand(sc, render, t).Err?
  {
    ScanRest(sc, render, t, "", 0);
    if r :| Refs(t).Some? && r in roots && r !in sc {
      var ref :| ref in Refs(t).value && RootOf(ref) == r;
    }
  }
}
