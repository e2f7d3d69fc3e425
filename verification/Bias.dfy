/** Decode-time biasing: a trie over the token sequences of the configured phrases, and a cursor
    that follows the emitted tokens through it. Trie nodes are indices into an arena. */
module Bias {
  import opened Wrappers

  const DEFAULT_SCORE := 1.0
  const DEFAULT_SCALING := 2.0

  type Phrase = seq<int>

  datatype Node = Node(children: map<int, nat>, depth: nat, terminal: bool)

  // ----- what the trie stands for -----

  /** Some configured phrase starts with `p`. */
  ghost predicate IsPrefix(phrases: seq<Phrase>, p: Phrase) { exists k :: 0 <= k < |phrases| && p <= phrases[k] }

  /** A phrase goes on after `p`. */
  ghost predicate GoesOn(phrases: seq<Phrase>, p: Phrase) { exists tok :: IsPrefix(phrases, p + [tok]) }

  /** The depth and the children of node i agree with its path. */
  ghost predicate NodeOk(nodes: seq<Node>, paths: seq<Phrase>, i: nat)
    requires i < |nodes| == |paths|
  {
    && nodes[i].depth == |paths[i]|
    && forall tok :: tok in nodes[i].children ==> ChildOk(nodes, paths, i, tok)
  }

  predicate ChildOk(nodes: seq<Node>, paths: seq<Phrase>, i: nat, tok: int)
    requires i < |nodes| == |paths| && tok in nodes[i].children
  {
    var c := nodes[i].children[tok]; 0 < c < |nodes| && paths[c] == paths[i] + [tok]
  }

  /** Node c is a child of another node. */
  ghost predicate HasParent(nodes: seq<Node>, paths: seq<Phrase>, c: nat)
    requires c < |nodes| == |paths|
  {
    paths[c] != [] && exists i :: 0 <= i < |nodes| && Parent(nodes, paths, i, c)
  }

  predicate Parent(nodes: seq<Node>, paths: seq<Phrase>, i: nat, c: nat)
    requires i < |nodes| == |paths| && c < |paths| && paths[c] != []
  {
    var tok := paths[c][|paths[c]| - 1];
    paths[i] == paths[c][..|paths[c]| - 1] && tok in nodes[i].children && nodes[i].children[tok] == c
  }

  ghost predicate DistinctPaths(paths: seq<Phrase>) { forall i, j :: 0 <= i < j < |paths| ==> paths[i] != paths[j] }

  /** Node i is reached by the tokens paths[i]. */
  ghost predicate Shaped(nodes: seq<Node>, paths: seq<Phrase>) {
    && |nodes| == |paths| > 0 && paths[0] == [] && DistinctPaths(paths)
    && (forall i :: 0 <= i < |nodes| ==> NodeOk(nodes, paths, i))
    && (forall c :: 0 < c < |nodes| ==> HasParent(nodes, paths, c))
  }

  ghost predicate HasPrefixes(paths: seq<Phrase>, ph: Phrase) { forall n :: 0 <= n <= |ph| ==> ph[..n] in paths }

  /** The nodes are exactly the prefixes of the phrases, and the terminal ones their ends. */
  ghost predicate Denotes(nodes: seq<Node>, paths: seq<Phrase>, phrases: seq<Phrase>) {
    && (forall i :: 0 < i < |paths| ==> IsPrefix(phrases, paths[i]))
    && (forall k :: 0 <= k < |phrases| ==> HasPrefixes(paths, phrases[k]))
    && (forall i :: 0 < i < |nodes| && i < |paths| ==> (nodes[i].terminal <==> paths[i] in phrases))
  }

  /** The parent of the node with path p + [tok] is the node with path p. */
  lemma OnlyParent(nodes: seq<Node>, paths: seq<Phrase>, i: nat, tok: int, c: nat)
    requires Shaped(nodes, paths) && i < |nodes| && c < |nodes| && paths[c] == paths[i] + [tok]
    ensures tok in nodes[i].children && nodes[i].children[tok] == c
  {
    assert c != 0;
    assert HasParent(nodes, paths, c);
    var j :| 0 <= j < |nodes| && Parent(nodes, paths, j, c);
    assert paths[c][..|paths[c]| - 1] == paths[i];
    assert j == i;
  }

  /** A node has a child for a token exactly when that token extends its path to a prefix. */
  lemma ChildIffPrefix(nodes: seq<Node>, paths: seq<Phrase>, phrases: seq<Phrase>, i: nat, tok: int)
    requires Shaped(nodes, paths) && Denotes(nodes, paths, phrases) && i < |nodes|
    ensures tok in nodes[i].children <==> IsPrefix(phrases, paths[i] + [tok])
  {
    hide Shaped, IsPrefix;
    NodesArePaths(nodes, paths);
    var p := paths[i] + [tok];
    if IsPrefix(phrases, p) {
      var c := PrefixNode(paths, phrases, p);
      OnlyParent(nodes, paths, i, tok, c);
    }
    if tok in nodes[i].children {
      ChildPath(nodes, paths, i, tok);
    }
  }

  lemma NodesArePaths(nodes: seq<Node>, paths: seq<Phrase>)
    requires Shaped(nodes, paths)
    ensures |nodes| == |paths|
  {
  }

  lemma ChildPath(nodes: seq<Node>, paths: seq<Phrase>, i: nat, tok: int)
    requires Shaped(nodes, paths) && i < |nodes| && tok in nodes[i].children
    ensures |paths| == |nodes|
    ensures var c := nodes[i].children[tok];
            0 < c < |nodes| && paths[c] == paths[i] + [tok] && nodes[c].depth == |paths[i]| + 1
  {
    assert NodeOk(nodes, paths, i) && ChildOk(nodes, paths, i, tok);
    assert NodeOk(nodes, paths, nodes[i].children[tok]);
  }

  lemma PrefixNode(paths: seq<Phrase>, phrases: seq<Phrase>, p: Phrase) returns (c: nat)
    requires IsPrefix(phrases, p) && forall k :: 0 <= k < |phrases| ==> HasPrefixes(paths, phrases[k])
    ensures c < |paths| && paths[c] == p
  {
    var k :| 0 <= k < |phrases| && p <= phrases[k];
    assert HasPrefixes(paths, phrases[k]);
    assert phrases[k][..|p|] == p;
    assert p in paths;
    c :| 0 <= c < |paths| && paths[c] == p;
  }

  // ----- what the cursor does, on paths -----

  /** advance: extend the path, or restart from the root; a completed phrase goes back to the root. */
  ghost function Advance(phrases: seq<Phrase>, p: Phrase, tok: int): Phrase {
    if IsPrefix(phrases, p + [tok]) then if GoesOn(phrases, p + [tok]) then p + [tok] else []
    else if IsPrefix(phrases, [tok]) && GoesOn(phrases, [tok]) then [tok]
    else []
  }

  ghost function AdvanceAll(phrases: seq<Phrase>, emitted: seq<int>): Phrase {
    if emitted == [] then []
    else Advance(phrases, AdvanceAll(phrases, emitted[..|emitted| - 1]), emitted[|emitted| - 1])
  }

  predicate Suffix(p: seq<int>, s: seq<int>) { |p| <= |s| && s[|s| - |p|..] == p }

  /** After any emitted tokens, the cursor's path is a suffix of them that some phrase continues. */
  lemma {:induction false} CursorIsSuffix(phrases: seq<Phrase>, emitted: seq<int>)
    ensures var p := AdvanceAll(phrases, emitted);
            Suffix(p, emitted) && (p != [] ==> IsPrefix(phrases, p) && GoesOn(phrases, p))
    decreases |emitted|
  {
    if emitted != [] {
      var n := |emitted| - 1;
      CursorIsSuffix(phrases, emitted[..n]);
      var p, tok := AdvanceAll(phrases, emitted[..n]), emitted[n];
      assert emitted == emitted[..n] + [tok];
      assert emitted[n + 1 - (|p| + 1)..] == emitted[..n][n - |p|..] + [tok];
    }
  }

  /** From the root, a phrase is followed token by token to its end. */
  lemma {:induction false} FollowsFromRoot(phrases: seq<Phrase>, before: seq<int>, ph: Phrase, k: nat)
    requires AdvanceAll(phrases, before) == [] && ph in phrases && k < |ph|
    ensures AdvanceAll(phrases, before + ph[..k]) == ph[..k]
    decreases k
  {
    hide IsPrefix;
    if k == 0 {
      assert before + ph[..0] == before;
    } else {
      FollowsFromRoot(phrases, before, ph, k - 1);
      var emitted := before + ph[..k];
      assert emitted[..|emitted| - 1] == before + ph[..k - 1];
      assert ph[..k - 1] + [ph[k - 1]] == ph[..k];
      PrefixOfPhrase(phrases, ph, k);
      PrefixOfPhrase(phrases, ph, k + 1);
      assert ph[..k] + [ph[k]] == ph[..k + 1];
      var next := ph[k];
      assert IsPrefix(phrases, ph[..k] + [next]);
    }
  }

  lemma PrefixOfPhrase(phrases: seq<Phrase>, ph: Phrase, n: nat)
    requires ph in phrases && n <= |ph|
    ensures IsPrefix(phrases, ph[..n])
  {
    var i :| 0 <= i < |phrases| && phrases[i] == ph;
    assert ph[..n] <= phrases[i];
  }

  // ----- when the cursor misses nothing -----

  /** A path from which some phrase may still be completed. */
  ghost predicate Live(phrases: seq<Phrase>, p: Phrase) { p == [] || (IsPrefix(phrases, p) && GoesOn(phrases, p)) }

  /** The path is the longest suffix of the emitted tokens that is live. */
  ghost predicate Longest(phrases: seq<Phrase>, emitted: seq<int>, p: Phrase) {
    Suffix(p, emitted) && Live(phrases, p) && forall q :: Suffix(q, emitted) && Live(phrases, q) ==> |q| <= |p|
  }

  /** After `tok`, the path p is given up for less than the live q + [tok], with q a proper suffix of p. */
  ghost predicate Overlap(phrases: seq<Phrase>, p: Phrase, q: Phrase, tok: int) {
    && Live(phrases, p) && |q| < |p| && Suffix(q, p) && Live(phrases, q + [tok])
    && if IsPrefix(phrases, p + [tok]) then !GoesOn(phrases, p + [tok]) else q != []
  }

  ghost predicate NoOverlap(phrases: seq<Phrase>) { forall p, q, tok :: !Overlap(phrases, p, q, tok) }

  lemma SuffixOfSuffix(q: seq<int>, p: seq<int>, s: seq<int>)
    requires Suffix(q, s) && Suffix(p, s) && |q| <= |p|
    ensures Suffix(q, p)
  {
    assert p[|p| - |q|..] == s[|s| - |p|..][|p| - |q|..];
  }

  lemma SuffixSnoc(q: seq<int>, s: seq<int>, tok: int)
    ensures q != [] ==> (Suffix(q, s + [tok]) <==> q[|q| - 1] == tok && Suffix(q[..|q| - 1], s))
  {
    if q != [] && |q| <= |s| + 1 {
      var t := (s + [tok])[|s| + 1 - |q|..];
      assert t == s[|s| - (|q| - 1)..] + [tok];
      assert q == q[..|q| - 1] + [q[|q| - 1]];
    }
  }

  lemma LiveBefore(phrases: seq<Phrase>, q: Phrase, tok: int)
    requires Live(phrases, q + [tok])
    ensures Live(phrases, q)
  {
    assert q + [tok] != [];
    var k :| 0 <= k < |phrases| && q + [tok] <= phrases[k];
    assert q <= phrases[k];
    assert IsPrefix(phrases, q + [tok]);
  }

  lemma {:induction false} TracksLongest(phrases: seq<Phrase>, emitted: seq<int>)
    requires NoOverlap(phrases)
    ensures Longest(phrases, emitted, AdvanceAll(phrases, emitted))
    decreases |emitted|
  {
    hide IsPrefix, GoesOn, Suffix, Live;
    CursorIsLive(phrases, emitted);
    if emitted == [] {
      NoSuffix();
    } else {
      var n := |emitted| - 1;
      var p, tok := AdvanceAll(phrases, emitted[..n]), emitted[n];
      assert emitted == emitted[..n] + [tok];
      TracksLongest(phrases, emitted[..n]);
      forall q | Suffix(q, emitted) && Live(phrases, q) && q != []
        ensures |q| <= |AdvanceAll(phrases, emitted)|
      {
        SuffixSnoc(q, emitted[..n], tok);
        var r := q[..|q| - 1];
        assert q == r + [tok];
        LiveBefore(phrases, r, tok);
        SuffixOfSuffix(r, p, emitted[..n]);
        NotGivenUp(phrases, p, r, tok);
      }
    }
  }

  lemma NoSuffix()
    ensures forall q :: Suffix(q, []) ==> q == []
  {
  }

  lemma CursorIsLive(phrases: seq<Phrase>, emitted: seq<int>)
    ensures Suffix(AdvanceAll(phrases, emitted), emitted) && Live(phrases, AdvanceAll(phrases, emitted))
  {
    CursorIsSuffix(phrases, emitted);
  }

  /** Without overlaps, advancing never falls behind a live continuation. */
  lemma NotGivenUp(phrases: seq<Phrase>, p: Phrase, q: Phrase, tok: int)
    requires NoOverlap(phrases) && Live(phrases, p) && Suffix(q, p) && Live(phrases, q + [tok])
    ensures |q| + 1 <= |Advance(phrases, p, tok)|
  {
    assert !Overlap(phrases, p, q, tok);
    if |q| == |p| { assert q == p; }
    if q == [] { assert q + [tok] == [tok]; }
    assert p == [] ==> p + [tok] == [tok];
  }

  /** The cursor always has the longest live suffix exactly when no phrase path overlaps another
      in this way, a condition on the configured phrases alone. */
  lemma TracksIffNoOverlap(phrases: seq<Phrase>)
    ensures (forall emitted :: Longest(phrases, emitted, AdvanceAll(phrases, emitted))) <==> NoOverlap(phrases)
  {
    hide Longest, Overlap, AdvanceAll;
    if NoOverlap(phrases) {
      forall emitted ensures Longest(phrases, emitted, AdvanceAll(phrases, emitted)) { TracksLongest(phrases, emitted); }
    } else {
      var p, q, tok :| Overlap(phrases, p, q, tok);
      OverlapFallsBehind(phrases, p, q, tok);
    }
  }

  lemma OverlapFallsBehind(phrases: seq<Phrase>, p: Phrase, q: Phrase, tok: int)
    requires Overlap(phrases, p, q, tok)
    ensures !Longest(phrases, p + [tok], AdvanceAll(phrases, p + [tok]))
  {
    hide IsPrefix;
    ReachesItself(phrases, p);
    var emitted := p + [tok];
    assert emitted[..|p|] == p;
    assert AdvanceAll(phrases, emitted) == Advance(phrases, p, tok);
    SuffixSnoc(q + [tok], p, tok);
    assert (q + [tok])[..|q|] == q;
    assert q == [] ==> q + [tok] == [tok];
  }

  /** Emitting a live path from the root leads the cursor along it. */
  lemma ReachesItself(phrases: seq<Phrase>, p: Phrase)
    requires Live(phrases, p)
    ensures AdvanceAll(phrases, p) == p
  {
    if p != [] {
      var t :| IsPrefix(phrases, p + [t]);
      var k :| 0 <= k < |phrases| && p + [t] <= phrases[k];
      var ph := phrases[k];
      assert ph[..|p|] == p && ph in phrases;
      assert AdvanceAll(phrases, []) == [];
      FollowsFromRoot(phrases, [], ph, |p|);
      assert [] + p == p;
    }
  }

  /** A phrase inside another one's path is not boosted: after 1, 2 the cursor follows the phrase
      1, 2, 3, so the token 4 that completes the phrase 2, 4 gets nothing. */
  lemma InnerPhraseIsNotBoosted()
    ensures var phrases := [[1, 2, 3], [2, 4]];
            && AdvanceAll(phrases, [1, 2]) == [1, 2]
            && Suffix([2], [1, 2]) && IsPrefix(phrases, [2, 4])
            && !IsPrefix(phrases, AdvanceAll(phrases, [1, 2]) + [4])
  {
    var phrases := [[1, 2, 3], [2, 4]];
    var first := phrases[0];
    assert first == [1, 2, 3] && first in phrases;
    assert AdvanceAll(phrases, []) == [];
    FollowsFromRoot(phrases, [], first, 2);
    assert [] + first[..2] == [1, 2];
    assert phrases[1] == [2, 4] && [2, 4] <= phrases[1];
    assert [1, 2] + [4] == [1, 2, 4];
    assert forall k :: 0 <= k < |phrases| ==> !([1, 2, 4] <= phrases[k]) by {
      assert first[2] == 3 && phrases[1][0] == 2;
    }
  }

  /** A completed phrase hides one that starts with its last token: after 1, 2 completes the phrase
      1, 2 the cursor is at the root, although 2 starts the phrase 2, 3. */
  lemma CompletedPhraseHidesNext()
    ensures var phrases := [[1, 2], [2, 3]];
            && AdvanceAll(phrases, [1, 2]) == [] && IsPrefix(phrases, [2])
            && Overlap(phrases, [1], [], 2) && !NoOverlap(phrases)
  {
    var phrases := [[1, 2], [2, 3]];
    assert phrases[0] == [1, 2] && phrases[1] == [2, 3];
    assert [1] + [2] == [1, 2] && [] + [2] == [2] && [2] + [3] == [2, 3];
    assert [1, 2] <= phrases[0] && [2, 3] <= phrases[1] && [2] <= phrases[1] && [1] <= phrases[0];
    assert IsPrefix(phrases, [1] + [2]) && IsPrefix(phrases, [2] + [3]) && IsPrefix(phrases, [1]);
    forall tok ensures !IsPrefix(phrases, [1, 2] + [tok]) {
      assert |[1, 2] + [tok]| == 3;
    }
    assert Overlap(phrases, [1], [], 2);
    assert IsPrefix(phrases, [2]) && !GoesOn(phrases, [1, 2]);
    ReachesItself(phrases, [1]);
    assert [1, 2][..1] == [1];
    assert AdvanceAll(phrases, [1, 2]) == Advance(phrases, [1], 2);
  }

  // ----- the context -----

  class BiasContext {
    var nodes: seq<Node>
    var contextScore: real
    var depthScaling: real
    var empty: bool
    ghost var paths: seq<Phrase>
    ghost var phrases: seq<Phrase>

    ghost predicate Valid()
      reads this
    {
      && Shaped(nodes, paths) && Denotes(nodes, paths, phrases)
      && (empty <==> phrases == []) && (forall k :: 0 <= k < |phrases| ==> phrases[k] != [])
      && contextScore > 0.0 && depthScaling > 0.0
    }

    /** NewBiasContext: empty phrases are skipped, parameters that are not positive get defaults. */
    constructor (given: seq<Phrase>, score: real, scaling: real)
      ensures Valid()
      ensures forall ph :: ph in phrases <==> ph in given && ph != []
      ensures contextScore == (if score <= 0.0 then DEFAULT_SCORE else score)
      ensures depthScaling == (if scaling <= 0.0 then DEFAULT_SCALING else scaling)
    {
      contextScore := if score <= 0.0 then DEFAULT_SCORE else score;
      depthScaling := if scaling <= 0.0 then DEFAULT_SCALING else scaling;
      nodes, paths, phrases, empty := [Node(map[], 0, false)], [[]], [], true;
      new;
      var k := 0;
      while k < |given|
        invariant 0 <= k <= |given| && Valid()
        invariant forall ph :: ph in phrases <==> ph in given[..k] && ph != []
        invariant contextScore == (if score <= 0.0 then DEFAULT_SCORE else score)
        invariant depthScaling == (if scaling <= 0.0 then DEFAULT_SCALING else scaling)
      {
        assert given[..k + 1] == given[..k] + [given[k]];
        if given[k] != [] { Insert(given[k]); }
        k := k + 1;
      }
      assert given[..k] == given;
    }

    /** Adds one phrase to the trie. */
    method Insert(ph: Phrase)
      requires Valid() && ph != []
      modifies this
      ensures Valid() && phrases == old(phrases) + [ph]
      ensures contextScore == old(contextScore) && depthScaling == old(depthScaling)
    {
      var node: nat := 0;
      var i := 0;
      while i < |ph|
        invariant 0 <= i <= |ph|
        invariant Shaped(nodes, paths) && node < |nodes| == |paths| && paths[node] == ph[..i]
        invariant Grown(nodes, paths, old(nodes), old(paths), ph, i)
        invariant phrases == old(phrases) && empty == old(empty)
        invariant contextScore == old(contextScore) && depthScaling == old(depthScaling)
      {
        var tok := ph[i];
        assert ph[..i + 1] == ph[..i] + [tok];
        if tok !in nodes[node].children {
          NewPath(nodes, paths, node, tok);
          ghost var before, was := nodes, paths;
          var child := |nodes|;
          nodes := nodes[node := nodes[node].(children := nodes[node].children[tok := child])]
                   + [Node(map[], nodes[node].depth + 1, false)];
          paths := paths + [ph[..i + 1]];
          AddedNode(before, was, node, tok, nodes, paths);
          GrownBy(before, was, old(nodes), old(paths), ph, i, nodes, paths);
          node := child;
        } else {
          ChildPath(nodes, paths, node, tok);
          KnownNode(nodes, paths, old(nodes), old(paths), ph, i, node);
          node := nodes[node].children[tok];
        }
        i := i + 1;
      }
      assert ph[..i] == ph;
      ghost var before := nodes;
      nodes := nodes[node := nodes[node].(terminal := true)];
      phrases := phrases + [ph];
      empty := false;
      MarkedTerminal(before, nodes, paths, node);
      NowDenotes(before, nodes, paths, old(nodes), old(paths), old(phrases), ph, node);
    }

    /** apply: boosts exactly the in-range tokens that extend the cursor's path to a phrase's prefix. */
    method Apply(logits: array<real>, node: Option<nat>)
      requires Valid() && (node.Some? ==> node.value < |nodes|)
      modifies logits
      ensures forall v :: 0 <= v < logits.Length ==>
                logits[v] == old(logits[v])
                             + if node.Some? && !empty && IsPrefix(phrases, paths[node.value] + [v])
                               then if paths[node.value] == [] then contextScore else contextScore * depthScaling
                               else 0.0
    {
      hide Shaped, Denotes, IsPrefix;
      if empty || node.None? { return; }
      var children := nodes[node.value].children;
      NodesArePaths(nodes, paths);
      forall v
        ensures v in children <==> IsPrefix(phrases, paths[node.value] + [v])
        ensures v in children ==> children[v] < |nodes| && nodes[children[v]].depth == |paths[node.value]| + 1
      {
        ChildIffPrefix(nodes, paths, phrases, node.value, v);
        if v in children { ChildPath(nodes, paths, node.value, v); }
      }
      ghost var p := paths[node.value];
      ghost var boosted := if p == [] then contextScore else contextScore * depthScaling;
      var todo := children.Keys;
      while todo != {}
        invariant todo <= children.Keys
        invariant forall v :: 0 <= v < logits.Length ==>
                    logits[v] == old(logits[v]) + if v in children && v !in todo then boosted else 0.0
        decreases todo
      {
        Inhabited(todo);
        var tok :| tok in todo;
        todo := todo - {tok};
        if 0 <= tok < logits.Length {
          var boost := contextScore;
          if nodes[children[tok]].depth >= 2 { boost := contextScore * depthScaling; }
          assert boost == boosted;
          logits[tok] := logits[tok] + boost;
        }
      }
    }

    /** advance: the cursor after emitting a token. */
    method AdvanceCursor(node: Option<nat>, tok: int) returns (next: Option<nat>)
      requires Valid() && (node.Some? ==> node.value < |nodes|)
      ensures empty ==> next == None
      ensures !empty ==> next.Some? && next.value < |nodes|
                         && paths[next.value] == Advance(phrases, if node.Some? then paths[node.value] else [], tok)
    {
      hide Shaped, Denotes, IsPrefix, GoesOn;
      if empty { return None; }
      RootPath(nodes, paths);
      if node.Some? {
        ChildIffPrefix(nodes, paths, phrases, node.value, tok);
        if tok in nodes[node.value].children {
          var c := nodes[node.value].children[tok];
          ChildPath(nodes, paths, node.value, tok);
          LeafIffEnd(nodes, paths, phrases, c);
          if nodes[c].children == map[] { return Some(0); }
          return Some(c);
        }
      }
      ChildIffPrefix(nodes, paths, phrases, 0, tok);
      assert [] + [tok] == [tok];
      if tok in nodes[0].children {
        var c := nodes[0].children[tok];
        ChildPath(nodes, paths, 0, tok);
        LeafIffEnd(nodes, paths, phrases, c);
        if nodes[c].children == map[] { return Some(0); }
        return Some(c);
      }
      return Some(0);
    }
  }

  lemma Inhabited(s: set<int>)
    ensures s == {} || exists tok :: tok in s
  {
    if forall tok :: tok !in s { assert s == {}; }
  }

  lemma RootPath(nodes: seq<Node>, paths: seq<Phrase>)
    requires Shaped(nodes, paths)
    ensures |nodes| == |paths| > 0 && paths[0] == []
  {
  }

  lemma LeafIffEnd(nodes: seq<Node>, paths: seq<Phrase>, phrases: seq<Phrase>, c: nat)
    requires Shaped(nodes, paths) && Denotes(nodes, paths, phrases) && c < |nodes|
    ensures |paths| == |nodes| && (nodes[c].children == map[] <==> !GoesOn(phrases, paths[c]))
  {
    hide Shaped, Denotes, IsPrefix;
    NodesArePaths(nodes, paths);
    forall tok ensures tok in nodes[c].children <==> IsPrefix(phrases, paths[c] + [tok]) {
      ChildIffPrefix(nodes, paths, phrases, c, tok);
    }
    if nodes[c].children != map[] {
      Inhabited(nodes[c].children.Keys);
      var tok :| tok in nodes[c].children.Keys;
      assert IsPrefix(phrases, paths[c] + [tok]);
    }
  }

  // ----- building the trie -----

  /** While a phrase goes in: the old nodes are still there and the new ones are its prefixes. */
  ghost predicate Grown(nodes: seq<Node>, paths: seq<Phrase>, nodes0: seq<Node>, paths0: seq<Phrase>, ph: Phrase, i: nat)
    requires i <= |ph|
  {
    && |nodes0| == |paths0| && |nodes| == |paths| && paths0 <= paths
    && (forall k :: 0 <= k < |nodes0| ==> k < |nodes| && nodes[k].terminal == nodes0[k].terminal)
    && (forall k :: |paths0| <= k < |paths| ==> !nodes[k].terminal && exists n :: 0 < n <= i && paths[k] == ph[..n])
    && (forall n :: 0 <= n <= i ==> ph[..n] in paths)
  }

  lemma NewPath(nodes: seq<Node>, paths: seq<Phrase>, i: nat, tok: int)
    requires Shaped(nodes, paths) && i < |nodes| && tok !in nodes[i].children
    ensures paths[i] + [tok] !in paths
  {
    hide Shaped;
    NodesArePaths(nodes, paths);
    var p := paths[i] + [tok];
    forall c | 0 <= c < |paths| ensures paths[c] != p {
      if paths[c] == p { OnlyParent(nodes, paths, i, tok, c); }
    }
  }

  lemma AddedNode(nodes: seq<Node>, paths: seq<Phrase>, i: nat, tok: int, nodes': seq<Node>, paths': seq<Phrase>)
    requires Shaped(nodes, paths) && i < |nodes| && tok !in nodes[i].children && paths[i] + [tok] !in paths
    requires nodes' == nodes[i := nodes[i].(children := nodes[i].children[tok := |nodes|])]
                       + [Node(map[], nodes[i].depth + 1, false)]
    requires paths' == paths + [paths[i] + [tok]]
    ensures Shaped(nodes', paths')
  {
    hide HasParent;
    assert NodeOk(nodes, paths, i);
    var n := |nodes|;
    forall c | 0 < c < |nodes'| ensures HasParent(nodes', paths', c) {
      if c < n { assert HasParent(nodes, paths, c); }
      ParentAfter(nodes, paths, i, tok, nodes', paths', c);
    }
    forall k | 0 <= k < |nodes'| ensures NodeOk(nodes', paths', k) {
      if k < n { assert NodeOk(nodes, paths, k); }
      NodeAfter(nodes, paths, i, tok, nodes', paths', k);
    }
  }

  ghost predicate Extends(nodes: seq<Node>, paths: seq<Phrase>, i: nat, tok: int, nodes': seq<Node>, paths': seq<Phrase>) {
    && |nodes| == |paths| && i < |nodes| && tok !in nodes[i].children && nodes[i].depth == |paths[i]|
    && nodes' == nodes[i := nodes[i].(children := nodes[i].children[tok := |nodes|])] + [Node(map[], nodes[i].depth + 1, false)]
    && paths' == paths + [paths[i] + [tok]]
  }

  lemma ParentAfter(nodes: seq<Node>, paths: seq<Phrase>, i: nat, tok: int, nodes': seq<Node>, paths': seq<Phrase>, c: nat)
    requires Extends(nodes, paths, i, tok, nodes', paths') && 0 < c < |nodes'|
    requires c < |nodes| ==> HasParent(nodes, paths, c)
    ensures HasParent(nodes', paths', c)
  {
    if c == |nodes| {
      assert paths'[c][..|paths'[c]| - 1] == paths[i];
      assert Parent(nodes', paths', i, c);
    } else {
      var j :| 0 <= j < |nodes| && Parent(nodes, paths, j, c);
      assert Parent(nodes', paths', j, c);
    }
  }

  lemma NodeAfter(nodes: seq<Node>, paths: seq<Phrase>, i: nat, tok: int, nodes': seq<Node>, paths': seq<Phrase>, k: nat)
    requires Extends(nodes, paths, i, tok, nodes', paths') && k < |nodes'| && |nodes| > 0
    requires k < |nodes| ==> NodeOk(nodes, paths, k)
    ensures NodeOk(nodes', paths', k)
  {
    if k < |nodes| {
      forall t | t in nodes'[k].children ensures ChildOk(nodes', paths', k, t) {
        if t in nodes[k].children { assert ChildOk(nodes, paths, k, t); }
      }
    }
  }

  lemma GrownBy(nodes: seq<Node>, paths: seq<Phrase>, nodes0: seq<Node>, paths0: seq<Phrase>, ph: Phrase, i: nat,
                nodes': seq<Node>, paths': seq<Phrase>)
    requires i < |ph| && Grown(nodes, paths, nodes0, paths0, ph, i)
    requires |nodes'| == |nodes| + 1 && (forall k :: 0 <= k < |nodes| ==> nodes'[k].terminal == nodes[k].terminal)
    requires !nodes'[|nodes|].terminal && paths' == paths + [ph[..i + 1]]
    ensures Grown(nodes', paths', nodes0, paths0, ph, i + 1)
  {
    forall n | 0 <= n <= i + 1 ensures ph[..n] in paths' {
      if n <= i { assert ph[..n] in paths; }
      assert paths'[|paths|] == ph[..i + 1];
    }
    forall k | |paths0| <= k < |paths'| ensures !nodes'[k].terminal && exists n :: 0 < n <= i + 1 && paths'[k] == ph[..n] {
      if k < |paths| {
        assert paths'[k] == paths[k] && nodes'[k].terminal == nodes[k].terminal;
        assert exists n :: 0 < n <= i && paths[k] == ph[..n];
        var n :| 0 < n <= i && paths[k] == ph[..n];
      }
    }
  }

  lemma KnownNode(nodes: seq<Node>, paths: seq<Phrase>, nodes0: seq<Node>, paths0: seq<Phrase>, ph: Phrase, i: nat, node: nat)
    requires i < |ph| && Shaped(nodes, paths) && Grown(nodes, paths, nodes0, paths0, ph, i)
    requires node < |nodes| && paths[node] == ph[..i] && ph[i] in nodes[node].children
    ensures Grown(nodes, paths, nodes0, paths0, ph, i + 1)
    ensures nodes[node].children[ph[i]] < |nodes| == |paths|
    ensures paths[nodes[node].children[ph[i]]] == ph[..i + 1]
  {
    hide Shaped;
    assert ph[..i + 1] == ph[..i] + [ph[i]];
    ChildPath(nodes, paths, node, ph[i]);
    assert paths[nodes[node].children[ph[i]]] == ph[..i + 1];
    forall k | |paths0| <= k < |paths| ensures !nodes[k].terminal && exists n :: 0 < n <= i + 1 && paths[k] == ph[..n] {
      var n :| 0 < n <= i && paths[k] == ph[..n];
    }
  }

  lemma MarkedTerminal(nodes: seq<Node>, nodes': seq<Node>, paths: seq<Phrase>, node: nat)
    requires Shaped(nodes, paths) && node < |nodes| && nodes' == nodes[node := nodes[node].(terminal := true)]
    ensures Shaped(nodes', paths)
  {
    forall c | 0 < c < |nodes'| ensures HasParent(nodes', paths, c) {
      assert HasParent(nodes, paths, c);
      var j :| 0 <= j < |nodes| && Parent(nodes, paths, j, c);
      assert Parent(nodes', paths, j, c);
    }
    forall k | 0 <= k < |nodes'| ensures NodeOk(nodes', paths, k) {
      assert NodeOk(nodes, paths, k);
      forall t | t in nodes'[k].children ensures ChildOk(nodes', paths, k, t) { assert ChildOk(nodes, paths, k, t); }
    }
  }

  lemma NowDenotes(nodes: seq<Node>, nodes': seq<Node>, paths: seq<Phrase>, nodes0: seq<Node>, paths0: seq<Phrase>,
                   phrases: seq<Phrase>, ph: Phrase, node: nat)
    requires Shaped(nodes, paths) && Shaped(nodes0, paths0) && Denotes(nodes0, paths0, phrases) && ph != []
    requires Grown(nodes, paths, nodes0, paths0, ph, |ph|)
    requires node < |nodes| && paths[node] == ph && nodes' == nodes[node := nodes[node].(terminal := true)]
    ensures Denotes(nodes', paths, phrases + [ph])
  {
    var all := phrases + [ph];
    assert all[|phrases|] == ph;
    forall i | 0 < i < |paths| ensures IsPrefix(all, paths[i]) {
      if i < |paths0| {
        var k :| 0 <= k < |phrases| && paths0[i] <= phrases[k];
        assert all[k] == phrases[k];
      } else {
        var n :| 0 < n <= |ph| && paths[i] == ph[..n];
        assert paths[i] <= all[|phrases|];
      }
    }
    forall k | 0 <= k < |all| ensures HasPrefixes(paths, all[k]) {
      if k < |phrases| {
        assert HasPrefixes(paths0, phrases[k]);
        assert forall p :: p in paths0 ==> p in paths;
      }
    }
    forall i | 0 < i < |nodes'| ensures nodes'[i].terminal <==> paths[i] in all {
      if i < |nodes0| {
        assert nodes0[i].terminal <==> paths0[i] in phrases;
      } else if i != node {
        NewNodeUnknown(paths0, phrases, paths, nodes0, nodes, i);
      }
    }
  }

  /** A node that was not there before is not a phrase that was. */
  lemma NewNodeUnknown(paths0: seq<Phrase>, phrases: seq<Phrase>, paths: seq<Phrase>, nodes0: seq<Node>, nodes: seq<Node>, i: nat)
    requires Shaped(nodes, paths) && Denotes(nodes0, paths0, phrases) && paths0 <= paths && |paths0| <= i < |paths|
    ensures paths[i] !in phrases
  {
    forall k | 0 <= k < |phrases| ensures phrases[k] != paths[i] {
      assert HasPrefixes(paths0, phrases[k]);
      assert phrases[k][..|phrases[k]|] == phrases[k];
      assert phrases[k] in paths0;
      var j :| 0 <= j < |paths0| && paths0[j] == phrases[k];
      assert paths[j] == paths0[j];
    }
  }
}
