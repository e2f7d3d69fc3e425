/** The engine's shared state: the call budgets, the log-byte pool, the step-log budget and the
    promoted artifacts, each changed under the engine's mutex. */
module EngineStates {
  import opened Wrappers
  import opened Templates
  import opened Engines

  newtype Byte = b: int | 0 <= b < 256
  type Bytes = seq<Byte>

  /** The UTF-8 bytes of the mark appended to a cut log: an ellipsis and "[truncated]". */
  const TRUNCATED: Bytes := [0xE2, 0x80, 0xA6, 91, 116, 114, 117, 110, 99, 97, 116, 101, 100, 93]
  const EXHAUSTED: Bytes := [91, 108, 111, 103, 32, 98, 117, 100, 103, 101, 116, 32, 101, 120, 104, 97, 117, 115, 116, 101, 100, 93]
  const MAX_ARTIFACTS := 200

  /** The ceilings of one run; a ceiling of zero or less means unlimited, except for step logs. */
  datatype Limits = Limits(maxModelCalls: int, maxAgentRuns: int, maxToolCalls: int,
                           maxLogBytes: int, maxArtifactBytes: int, maxStepLogs: nat)

  /** One configured artifact output of a step. */
  datatype Output = Output(name: string, fromField: string)

  datatype Artifact = Artifact(name: string, round: nat, step: string, content: Bytes)

  datatype Counters = Counters(calls: map<Kind, nat>, logBytes: nat, recorded: nat, truncated: bool,
                               artifacts: seq<Artifact>, artifactBytes: nat, rounds: map<string, nat>)

  const ZERO := Counters(map[ToolCall := 0, ModelCall := 0, AgentRun := 0], 0, 0, false, [], 0, map[])

  function Ceiling(l: Limits, k: Kind): int {
    match k
    case ToolCall => l.maxToolCalls
    case ModelCall => l.maxModelCalls
    case AgentRun => l.maxAgentRuns
  }

  function ContentBytes(artifacts: seq<Artifact>): nat {
    if artifacts == [] then 0
    else ContentBytes(artifacts[..|artifacts| - 1]) + |artifacts[|artifacts| - 1].content|
  }

  /** What the shared state satisfies after any sequence of its operations. */
  predicate WithinLimits(l: Limits, c: Counters) {
    && c.calls.Keys == {ToolCall, ModelCall, AgentRun}
    && (forall k :: k in c.calls ==> Ceiling(l, k) > 0 ==> c.calls[k] <= Ceiling(l, k))
    && (l.maxLogBytes > 0 ==> c.logBytes <= l.maxLogBytes + 14)
    && c.recorded <= l.maxStepLogs + (if c.truncated then 1 else 0)
    && c.artifactBytes == ContentBytes(c.artifacts)
    && |c.artifacts| <= MAX_ARTIFACTS
    && (l.maxArtifactBytes > 0 ==> c.artifactBytes <= l.maxArtifactBytes)
  }

  // ----- what each operation does -----

  function ChargeSpec(l: Limits, c: Counters, k: Kind): (Counters, bool)
    requires k in c.calls
  {
    if Ceiling(l, k) > 0 && c.calls[k] >= Ceiling(l, k) then (c, false)
    else (c.(calls := c.calls[k := c.calls[k] + 1]), true)
  }

  datatype Admission = Admission(counters: Counters, kept: nat, marked: bool)

  /** recordLogs on log subtrees of the given sizes: how many are kept, and whether the marker is added. */
  function AdmitSpec(l: Limits, c: Counters, sizes: seq<nat>): (a: Admission)
    ensures a.kept <= |sizes|
    decreases |sizes|
  {
    if sizes == [] then Admission(c, 0, false)
    else if c.recorded + sizes[0] > l.maxStepLogs then
      if c.truncated then Admission(c, 0, false)
      else Admission(c.(truncated := true, recorded := c.recorded + 1), 0, true)
    else
      var a := AdmitSpec(l, c.(recorded := c.recorded + sizes[0]), sizes[1..]);
      a.(kept := a.kept + 1)
  }

  function CapLogSpec(l: Limits, c: Counters, s: Bytes): (Counters, Bytes) {
    if s == [] then (c, [])
    else if l.maxLogBytes <= 0 then (c.(logBytes := c.logBytes + |s|), s)
    else
      var remaining := l.maxLogBytes - c.logBytes;
      if remaining <= 0 then (c, EXHAUSTED)
      else
        var text := if |s| > remaining then s[..remaining] + TRUNCATED else s;
        (c.(logBytes := c.logBytes + |text|), text)
  }

  function ChargeBytesSpec(l: Limits, c: Counters, n: nat): (Counters, bool) {
    if l.maxLogBytes > 0 && c.logBytes + n > l.maxLogBytes then (c, false)
    else (c.(logBytes := c.logBytes + n), true)
  }

  type Encode = Value -> Option<Bytes>

  /** The bytes one configured output captures from a step's value, if any. */
  function Captured(encode: Encode, o: Output, v: Value): Option<Bytes> {
    if o.fromField == "" then encode(v)
    else if v.Obj? && o.fromField in v.fields then encode(v.fields[o.fromField])
    else None
  }

  /** Stores one artifact, cut to what remains of the byte budget; None when a cap is reached. */
  function StoreSpec(l: Limits, c: Counters, name: string, round: nat, step: string, content: Bytes): Option<Counters> {
    var remaining := l.maxArtifactBytes - c.artifactBytes;
    if |c.artifacts| >= MAX_ARTIFACTS || (l.maxArtifactBytes > 0 && remaining <= 0) then None
    else
      var kept := if l.maxArtifactBytes > 0 && |content| > remaining then content[..remaining] else content;
      Some(c.(artifactBytes := c.artifactBytes + |kept|,
              artifacts := c.artifacts + [Artifact(name, round, step, kept)]))
  }

  /** One promotion round, over the configured outputs in order. */
  function PromoteSpec(l: Limits, c: Counters, step: string, round: nat, encode: Encode, v: Value, outs: seq<Output>): Counters
    decreases |outs|
  {
    if outs == [] then c
    else
      var content := Captured(encode, outs[0], v);
      var stored := if content.None? then Some(c) else StoreSpec(l, c, outs[0].name, round, step, content.value);
      if stored.None? then c else PromoteSpec(l, stored.value, step, round, encode, v, outs[1..])
  }

  // ----- what each operation answers -----

  /** A call is granted just while its own ceiling, if it has one, is not reached; it is then counted. */
  lemma ChargeMeans(l: Limits, c: Counters, k: Kind)
    requires k in c.calls
    ensures var (c', granted) := ChargeSpec(l, c, k);
            && (granted <==>
                  match k
                  case ToolCall => l.maxToolCalls <= 0 || c.calls[ToolCall] < l.maxToolCalls
                  case ModelCall => l.maxModelCalls <= 0 || c.calls[ModelCall] < l.maxModelCalls
                  case AgentRun => l.maxAgentRuns <= 0 || c.calls[AgentRun] < l.maxAgentRuns)
            && c' == if granted then c.(calls := c.calls[k := c.calls[k] + 1]) else c
  {
  }

  /** A log that fits what is left of the pool is kept as it is; one that does not is cut to what is
      left, with the mark after it; and once nothing is left it is replaced. */
  lemma CapLogMeans(l: Limits, c: Counters, s: Bytes)
    ensures var (c', text) := CapLogSpec(l, c, s);
            var room := l.maxLogBytes - c.logBytes;
            && (s == [] || l.maxLogBytes <= 0 || |s| <= room ==> text == s && c'.logBytes == c.logBytes + |s|)
            && (s != [] && l.maxLogBytes > 0 && room <= 0 ==> text == EXHAUSTED && c' == c)
            && (l.maxLogBytes > 0 && 0 < room < |s| ==>
                  && |text| == room + |TRUNCATED| && text[..room] == s[..room] && text[room..] == TRUNCATED
                  && c'.logBytes == l.maxLogBytes + |TRUNCATED|)
  {
  }

  /** Log subtrees are kept while they fit; the first that does not is dropped with all after it, and
      leaves the run's one marker. */
  lemma {:induction false} AdmitMeans(l: Limits, c: Counters, sizes: seq<nat>)
    ensures var a := AdmitSpec(l, c, sizes);
            && (a.kept > 0 ==> c.recorded + Total(sizes[..a.kept]) <= l.maxStepLogs)
            && (a.kept < |sizes| ==> c.recorded + Total(sizes[..a.kept]) + sizes[a.kept] > l.maxStepLogs)
            && (a.marked <==> a.kept < |sizes| && !c.truncated)
            && (a.counters.truncated <==> c.truncated || a.marked)
    decreases |sizes|
  {
    if sizes != [] && c.recorded + sizes[0] <= l.maxStepLogs {
      var c' := c.(recorded := c.recorded + sizes[0]);
      AdmitMeans(l, c', sizes[1..]);
      var a := AdmitSpec(l, c', sizes[1..]);
      assert sizes[..a.kept + 1] == [sizes[0]] + sizes[1..][..a.kept];
      assert Total([sizes[0]]) == sizes[0];
    }
  }

  /** An artifact is refused just at a cap; one that is stored holds the captured bytes, cut to what is
      left of the byte budget. */
  lemma StoreMeans(l: Limits, c: Counters, name: string, round: nat, step: string, content: Bytes)
    ensures var s := StoreSpec(l, c, name, round, step, content);
            var room := l.maxArtifactBytes - c.artifactBytes;
            && (s.None? <==> |c.artifacts| >= MAX_ARTIFACTS || (l.maxArtifactBytes > 0 && room <= 0))
            && (s.Some? ==>
                  exists kept: Bytes ::
                    && s.value.artifacts == c.artifacts + [Artifact(name, round, step, kept)]
                    && kept <= content && s.value.artifactBytes == c.artifactBytes + |kept|
                    && if l.maxArtifactBytes <= 0 || |content| <= room then kept == content else |kept| == room)
  {
    var s := StoreSpec(l, c, name, round, step, content);
    if s.Some? {
      var kept := s.value.artifacts[|c.artifacts|].content;
      assert kept <= content;
    }
  }

  // ----- the bounds -----

  /** Every operation keeps every bound, whatever order they come in. */
  lemma {:induction false} AdmitKeeps(l: Limits, c: Counters, sizes: seq<nat>)
    requires WithinLimits(l, c)
    ensures WithinLimits(l, AdmitSpec(l, c, sizes).counters)
    ensures var a := AdmitSpec(l, c, sizes);
            a.counters.recorded == c.recorded + Total(sizes[..a.kept]) + (if a.marked then 1 else 0)
    decreases |sizes|
  {
    hide WithinLimits;
    if sizes == [] {
    } else if c.recorded + sizes[0] > l.maxStepLogs {
      MarkKeeps(l, c);
    } else {
      var c' := c.(recorded := c.recorded + sizes[0]);
      RecordKeeps(l, c, sizes[0]);
      AdmitKeeps(l, c', sizes[1..]);
      var a := AdmitSpec(l, c', sizes[1..]);
      assert sizes[..a.kept + 1] == [sizes[0]] + sizes[1..][..a.kept];
    }
  }

  lemma MarkKeeps(l: Limits, c: Counters)
    requires WithinLimits(l, c)
    ensures !c.truncated ==> WithinLimits(l, c.(truncated := true, recorded := c.recorded + 1))
  {
    hide ContentBytes;
  }

  lemma RecordKeeps(l: Limits, c: Counters, n: nat)
    requires WithinLimits(l, c) && c.recorded + n <= l.maxStepLogs
    ensures WithinLimits(l, c.(recorded := c.recorded + n))
  {
    hide ContentBytes;
  }

  /** One turn of recordLogs. */
  lemma AdmitNext(l: Limits, c: Counters, sizes: seq<nat>, i: nat)
    requires i < |sizes|
    ensures if c.recorded + sizes[i] <= l.maxStepLogs then
              var a := AdmitSpec(l, c.(recorded := c.recorded + sizes[i]), sizes[i + 1..]);
              AdmitSpec(l, c, sizes[i..]) == a.(kept := a.kept + 1)
            else
              AdmitSpec(l, c, sizes[i..])
              == if c.truncated then Admission(c, 0, false)
                 else Admission(c.(truncated := true, recorded := c.recorded + 1), 0, true)
  {
    assert sizes[i..][1..] == sizes[i + 1..];
  }

  function Total(sizes: seq<nat>): nat {
    if sizes == [] then 0 else sizes[0] + Total(sizes[1..])
  }

  lemma NothingToAdmit(l: Limits, c: Counters)
    ensures AdmitSpec(l, c, []) == Admission(c, 0, false)
  {
  }

  lemma ChargeKeeps(l: Limits, c: Counters, k: Kind)
    requires WithinLimits(l, c)
    ensures WithinLimits(l, ChargeSpec(l, c, k).0)
  {
  }

  lemma LogKeeps(l: Limits, c: Counters, s: Bytes, n: nat)
    requires WithinLimits(l, c)
    ensures WithinLimits(l, CapLogSpec(l, c, s).0) && WithinLimits(l, ChargeBytesSpec(l, c, n).0)
  {
  }

  /** One turn of maybePromote. */
  lemma PromoteNext(l: Limits, c: Counters, step: string, round: nat, encode: Encode, v: Value, outs: seq<Output>, i: nat)
    requires i < |outs|
    ensures var content := Captured(encode, outs[i], v);
            var stored := if content.None? then Some(c) else StoreSpec(l, c, outs[i].name, round, step, content.value);
            PromoteSpec(l, c, step, round, encode, v, outs[i..])
            == if stored.None? then c else PromoteSpec(l, stored.value, step, round, encode, v, outs[i + 1..])
  {
    hide Captured, StoreSpec;
    assert outs[i..][1..] == outs[i + 1..];
  }

  lemma NothingToPromote(l: Limits, c: Counters, step: string, round: nat, encode: Encode, v: Value)
    ensures PromoteSpec(l, c, step, round, encode, v, []) == c
  {
  }

  lemma RoundKeeps(l: Limits, c: Counters, rounds: map<string, nat>)
    requires WithinLimits(l, c)
    ensures WithinLimits(l, c.(rounds := rounds))
  {
  }

  lemma StoreKeeps(l: Limits, c: Counters, name: string, round: nat, step: string, content: Bytes)
    requires WithinLimits(l, c)
    ensures var s := StoreSpec(l, c, name, round, step, content);
            s.Some? ==> WithinLimits(l, s.value) && c.artifacts <= s.value.artifacts
  {
    var s := StoreSpec(l, c, name, round, step, content);
    if s.Some? {
      assert s.value.artifacts[..|s.value.artifacts| - 1] == c.artifacts;
    }
  }

  lemma {:induction false} PromoteKeeps(l: Limits, c: Counters, step: string, round: nat, encode: Encode, v: Value, outs: seq<Output>)
    requires WithinLimits(l, c)
    ensures WithinLimits(l, PromoteSpec(l, c, step, round, encode, v, outs))
    ensures c.artifacts <= PromoteSpec(l, c, step, round, encode, v, outs).artifacts
    decreases |outs|
  {
    hide WithinLimits, StoreSpec, Captured;
    if outs != [] {
      var content := Captured(encode, outs[0], v);
      if content.None? {
        PromoteKeeps(l, c, step, round, encode, v, outs[1..]);
      } else {
        StoreKeeps(l, c, outs[0].name, round, step, content.value);
        var stored := StoreSpec(l, c, outs[0].name, round, step, content.value);
        if stored.Some? { PromoteKeeps(l, stored.value, step, round, encode, v, outs[1..]); }
      }
    }
  }

  class EngineState {
    const limits: Limits
    const promote: map<string, seq<Output>>
    var calls: map<Kind, nat>
    var logBytes: nat
    var recordedLogs: nat
    var logsTruncated: bool
    var artifacts: seq<Artifact>
    var artifactBytes: nat
    var promoteCount: map<string, nat>

    function Abs(): Counters
      reads this
    {
      Counters(calls, logBytes, recordedLogs, logsTruncated, artifacts, artifactBytes, promoteCount)
    }

    predicate Valid()
      reads this
    {
      WithinLimits(limits, Abs())
    }

    constructor (limits: Limits, promote: map<string, seq<Output>>)
      ensures this.limits == limits && this.promote == promote && Abs() == ZERO && Valid()
    {
      this.limits, this.promote := limits, promote;
      calls, logBytes, recordedLogs, logsTruncated := map[ToolCall := 0, ModelCall := 0, AgentRun := 0], 0, 0, false;
      artifacts, artifactBytes, promoteCount := [], 0, map[];
    }

    /** chargeModel, chargeAgent and chargeTool. */
    method Charge(k: Kind) returns (granted: bool)
      requires Valid()
      modifies this
      ensures Valid() && (Abs(), granted) == ChargeSpec(limits, old(Abs()), k)
    {
      ChargeKeeps(limits, Abs(), k);
      if Ceiling(limits, k) > 0 && calls[k] >= Ceiling(limits, k) { return false; }
      calls := calls[k := calls[k] + 1];
      granted := true;
    }

    method RecordLogs(dst: seq<Log>, src: seq<Log>) returns (out: seq<Log>)
      requires Valid()
      modifies this
      ensures Valid()
      ensures var a := AdmitSpec(limits, old(Abs()), Sizes(src));
              Abs() == a.counters
              && out == dst + src[..a.kept] + if a.marked then [Log("_truncated", false, [])] else []
    {
      hide WithinLimits, AdmitSpec;
      AdmitKeeps(limits, Abs(), Sizes(src));
      ghost var a := AdmitSpec(limits, Abs(), Sizes(src));
      out := dst;
      var i := 0;
      assert Sizes(src)[0..] == Sizes(src) && dst + src[..0] == dst;
      while i < |src|
        invariant 0 <= i <= |src|
        invariant out == dst + src[..i]
        invariant i <= a.kept
        invariant AdmitSpec(limits, Abs(), Sizes(src)[i..]) == a.(kept := a.kept - i)
      {
        var n := Nodes(src[i]);
        assert Sizes(src)[i] == n;
        AdmitNext(limits, Abs(), Sizes(src), i);
        if recordedLogs + n > limits.maxStepLogs {
          if !logsTruncated {
            logsTruncated := true;
            recordedLogs := recordedLogs + 1;
            out := out + [Log("_truncated", false, [])];
          }
          return;
        }
        out := out + [src[i]];
        assert src[..i + 1] == src[..i] + [src[i]];
        recordedLogs := recordedLogs + n;
        i := i + 1;
      }
      NothingToAdmit(limits, Abs());
    }

    method CapLog(s: Bytes) returns (text: Bytes)
      requires Valid()
      modifies this
      ensures Valid() && (Abs(), text) == CapLogSpec(limits, old(Abs()), s)
    {
      LogKeeps(limits, Abs(), s, 0);
      if s == [] { return []; }
      if limits.maxLogBytes <= 0 {
        logBytes := logBytes + |s|;
        return s;
      }
      var remaining := limits.maxLogBytes - logBytes;
      if remaining <= 0 { return EXHAUSTED; }
      text := s;
      if |s| > remaining { text := s[..remaining] + TRUNCATED; }
      logBytes := logBytes + |text|;
    }

    method ChargeRecordBytes(n: nat) returns (charged: bool)
      requires Valid()
      modifies this
      ensures Valid() && (Abs(), charged) == ChargeBytesSpec(limits, old(Abs()), n)
    {
      LogKeeps(limits, Abs(), [], n);
      if limits.maxLogBytes > 0 && logBytes + n > limits.maxLogBytes { return false; }
      logBytes := logBytes + n;
      charged := true;
    }

    /** Stores one captured artifact; `full` when the round must stop. */
    method Store(name: string, round: nat, step: string, content: Bytes) returns (full: bool)
      requires Valid()
      modifies this
      ensures Valid()
      ensures var stored := StoreSpec(limits, old(Abs()), name, round, step, content);
              full == stored.None? && Abs() == if full then old(Abs()) else stored.value
    {
      hide WithinLimits;
      StoreKeeps(limits, Abs(), name, round, step, content);
      if |artifacts| >= MAX_ARTIFACTS { return true; }
      var kept := content;
      if limits.maxArtifactBytes > 0 {
        var remaining := limits.maxArtifactBytes - artifactBytes;
        if remaining <= 0 { return true; }
        if |kept| > remaining { kept := kept[..remaining]; }
      }
      artifactBytes := artifactBytes + |kept|;
      artifacts := artifacts + [Artifact(name, round, step, kept)];
      full := false;
    }

    method MaybePromote(id: string, v: Value, encode: Encode)
      requires Valid()
      modifies this
      ensures Valid()
      ensures var before := old(Abs());
              var round := if id in before.rounds then before.rounds[id] else 0;
              Abs() == if id !in promote || promote[id] == [] then before
                       else PromoteSpec(limits, before.(rounds := before.rounds[id := round + 1]), id, round, encode, v, promote[id])
    {
      hide Captured, WithinLimits, StoreSpec, PromoteSpec;
      if id !in promote || promote[id] == [] { return; }
      var outs := promote[id];
      var round := if id in promoteCount then promoteCount[id] else 0;
      RoundKeeps(limits, Abs(), promoteCount[id := round + 1]);
      promoteCount := promoteCount[id := round + 1];
      ghost var goal := PromoteSpec(limits, Abs(), id, round, encode, v, outs);
      var i := 0;
      assert outs[0..] == outs;
      while i < |outs|
        invariant 0 <= i <= |outs|
        invariant Valid() && PromoteSpec(limits, Abs(), id, round, encode, v, outs[i..]) == goal
      {
        PromoteNext(limits, Abs(), id, round, encode, v, outs, i);
        var content := Captured(encode, outs[i], v);
        if content.Some? {
          var full := Store(outs[i].name, round, id, content.value);
          if full { return; }
        }
        i := i + 1;
      }
      assert outs[i..] == [];
      NothingToPromote(limits, Abs(), id, round, encode, v);
    }
  }
}
