/** Streaming recognition: which windows of frames are decoded, and how the audio buffer is trimmed.
    The encoder and decoder are arbitrary; frame positions on the absolute axis count from the
    start of the utterance. */
module Recognizers {
  import opened Wrappers

  const HOP := 160
  const WIN := 400
  const CHUNK := 56            // main frames of a chunk
  const CONTEXT := 9           // frames of left context
  const WIDTH := 65            // encoder input frames
  const KEEP := (CONTEXT + CHUNK) * HOP + WIN
  const MAX_SAMPLES := 300 * 16000
  const MAX_TOKENS := 16384
  const MAX_CHUNKS := 536      // the chunks that start within MAX_SAMPLES

  /** numMelFrames: a centred transform of 512 samples, padded by 256 on each side. */
  function Frames(n: nat): nat { if n == 0 then 0 else (n + 2 * 256 - 512) / HOP + 1 }

  /** One decoded window: its first main frame on the absolute axis, and its real left context. */
  datatype Window = Window(first: nat, frames: nat, left: nat)

  /** The numbers that drive the chunking. `trimmed` samples were cut from the front of the buffer,
      `heard` were accepted in all; `failed` says a decode has returned an error. */
  datatype Proc = Proc(buffered: nat, processed: nat, consumed: nat, chunks: nat, tokens: seq<int>,
                       trimmed: nat, heard: nat, calls: nat, failed: bool, windows: seq<Window>)

  const RESET := Proc(0, 0, 0, 0, [], 0, 0, 0, false, [])

  /** The tokens the n-th decode emits, or an error. */
  type Decoder = nat -> Option<seq<int>>

  predicate Capped(s: Proc) { s.consumed >= MAX_SAMPLES || |s.tokens| >= MAX_TOKENS }

  /** The left context a chunk copies: up to nine frames before it, none for the first chunk. */
  function Left(s: Proc): nat {
    var at := s.processed / HOP;
    if s.chunks == 0 then 0 else if at < CONTEXT then at else CONTEXT
  }

  /** decodeChunk and the bookkeeping after it, for `frames` main frames. */
  function Decode(dec: Decoder, s: Proc, frames: nat): Proc {
    var at := s.processed / HOP;
    match dec(s.calls)
    case None => s.(calls := s.calls + 1, failed := true)
    case Some(emitted) =>
      s.(calls := s.calls + 1, tokens := s.tokens + emitted, processed := s.processed + frames * HOP,
         consumed := s.consumed + frames * HOP, chunks := s.chunks + 1,
         windows := s.windows + [Window(s.trimmed / HOP + at, frames, Left(s))])
  }

  /** The chunk loop of feed over a buffer of `total` frames; false on an error. */
  function DecodeAll(dec: Decoder, s: Proc, total: nat): (Proc, bool)
    decreases total * HOP - s.processed
  {
    if Capped(s) || total - s.processed / HOP < CHUNK then (s, true)
    else if dec(s.calls).None? then (Decode(dec, s, CHUNK), false)
    else DecodeAll(dec, Decode(dec, s, CHUNK), total)
  }

  function Trim(s: Proc): Proc {
    if s.buffered <= KEEP * 2 then s
    else
      var excess := s.buffered - KEEP;
      var most := if excess > s.processed then s.processed else excess;
      var remove := most - most % HOP;
      if remove <= 0 then s
      else s.(buffered := s.buffered - remove, processed := s.processed - remove, trimmed := s.trimmed + remove)
  }

  function Feed(dec: Decoder, s: Proc, n: nat): Proc {
    if Capped(s) then s
    else
      var s1 := s.(buffered := s.buffered + n, heard := s.heard + n);
      if s1.buffered < WIN then s1 else AfterLoop(dec, s1)
  }

  /** The chunk loop over what is buffered, and the trim unless it failed. */
  function AfterLoop(dec: Decoder, s: Proc): Proc {
    var (s', ok) := DecodeAll(dec, s, Frames(s.buffered));
    if ok then Trim(s') else s'
  }

  /** The frames flush has left to decode. */
  function Tail(s: Proc): int { Frames(s.buffered) - s.processed / HOP }

  function Flush(dec: Decoder, s: Proc): Proc {
    if Capped(s) || s.buffered < WIN || Tail(s) <= 0 then s else Decode(dec, s, Tail(s))
  }

  function Run(dec: Decoder, feeds: seq<nat>): Proc
    decreases |feeds|
  {
    if feeds == [] then RESET else Feed(dec, Run(dec, feeds[..|feeds| - 1]), feeds[|feeds| - 1])
  }

  // ----- what every utterance keeps -----

  /** Windows tile the absolute frame axis in blocks of a chunk, all but the first with full context. */
  ghost predicate Tiled(windows: seq<Window>) {
    forall k :: 0 <= k < |windows| ==> windows[k] == Window(k * CHUNK, CHUNK, if k == 0 then 0 else CONTEXT)
  }

  ghost predicate Aligned(s: Proc) {
    && s.processed % HOP == 0 && s.trimmed % HOP == 0
    && s.heard == s.trimmed + s.buffered
    && s.chunks == |s.windows| && s.consumed == s.chunks * CHUNK * HOP == s.processed + s.trimmed
    && (s.trimmed > 0 ==> s.buffered > 0)
    && s.processed / HOP <= Frames(s.buffered)
    && Tiled(s.windows)
  }

  /** The next chunk would find its left context in the buffer. */
  predicate HasContext(s: Proc) { s.chunks > 0 && !Capped(s) ==> s.processed >= CONTEXT * HOP }

  /** Fewer frames than a chunk are waiting, in a bounded buffer. */
  predicate CaughtUp(s: Proc) { !Capped(s) && !s.failed ==> Tail(s) < CHUNK && s.buffered <= 2 * KEEP }

  lemma DecodeKeeps(dec: Decoder, s: Proc)
    requires Aligned(s) && HasContext(s) && !Capped(s) && Tail(s) >= CHUNK
    ensures Aligned(Decode(dec, s, CHUNK)) && HasContext(Decode(dec, s, CHUNK))
    ensures Decode(dec, s, CHUNK).buffered == s.buffered && Decode(dec, s, CHUNK).heard == s.heard
  {
    assert (s.processed + CHUNK * HOP) / HOP == s.processed / HOP + CHUNK;
    assert s.trimmed / HOP + s.processed / HOP == s.chunks * CHUNK;
  }

  lemma {:induction false} DecodeAllKeeps(dec: Decoder, s: Proc, total: nat)
    requires Aligned(s) && HasContext(s) && total == Frames(s.buffered)
    ensures var (s', ok) := DecodeAll(dec, s, total);
            && Aligned(s') && HasContext(s')
            && s'.buffered == s.buffered && s'.heard == s.heard
            && (ok && !Capped(s') ==> Tail(s') < CHUNK)
            && (!ok ==> s'.failed) && (s.failed ==> s'.failed)
    decreases total * HOP - s.processed
  {
    hide Aligned, Decode;
    if !Capped(s) && Tail(s) >= CHUNK {
      DecodeKeeps(dec, s);
      DecodeEffect(dec, s);
      if dec(s.calls).Some? { DecodeAllKeeps(dec, Decode(dec, s, CHUNK), total); }
    }
  }

  lemma DecodeEffect(dec: Decoder, s: Proc)
    ensures var s' := Decode(dec, s, CHUNK);
            && s'.calls == s.calls + 1
            && (dec(s.calls).Some? ==> s'.processed == s.processed + CHUNK * HOP && s'.failed == s.failed)
            && (dec(s.calls).None? ==> s'.failed && s'.processed == s.processed)
  {
  }

  /** How many hops a trim removes. */
  lemma TrimRemoves(s: Proc) returns (hops: nat)
    requires s.processed % HOP == 0
    ensures hops * HOP <= s.processed && hops * HOP <= s.buffered
    ensures Trim(s) == s.(buffered := s.buffered - hops * HOP, processed := s.processed - hops * HOP,
                          trimmed := s.trimmed + hops * HOP)
    ensures s.buffered <= 2 * KEEP ==> hops == 0
    ensures s.buffered > 2 * KEEP ==> hops * HOP <= s.buffered - KEEP
    ensures s.buffered > 2 * KEEP && s.processed >= s.buffered - KEEP ==> s.buffered - KEEP - hops * HOP < HOP
  {
    hops := 0;
    if s.buffered > 2 * KEEP {
      var excess := s.buffered - KEEP;
      var most := if excess > s.processed then s.processed else excess;
      hops := most / HOP;
      assert most - most % HOP == hops * HOP;
    }
  }

  /** A chunk's frames and context always survive a trim that follows a finished chunk loop. */
  lemma ContextSurvives(s: Proc, hops: nat)
    requires s.processed % HOP == 0 && Tail(s) < CHUNK && s.buffered > 2 * KEEP
    requires hops * HOP <= s.buffered - KEEP
    ensures s.processed >= s.buffered - KEEP && s.processed - hops * HOP >= CONTEXT * HOP
  {
  }

  lemma ShiftBack(s: Proc, hops: nat)
    requires s.processed % HOP == 0 && hops * HOP <= s.processed && hops * HOP < s.buffered
    ensures Frames(s.buffered - hops * HOP) == Frames(s.buffered) - hops
    ensures (s.processed - hops * HOP) / HOP == s.processed / HOP - hops && (s.processed - hops * HOP) % HOP == 0
  {
    Shifted(hops, s.buffered - hops * HOP);
  }

  lemma TrimKeeps(s: Proc)
    requires Aligned(s) && HasContext(s) && (!Capped(s) ==> Tail(s) < CHUNK)
    ensures Aligned(Trim(s)) && HasContext(Trim(s)) && CaughtUp(Trim(s))
    ensures Trim(s).heard == s.heard
  {
    hide Trim, Frames, Tiled;
    var hops := TrimRemoves(s);
    if hops > 0 {
      ShiftBack(s, hops);
      assert (s.trimmed + hops * HOP) % HOP == 0;
    }
    if !Capped(s) && s.buffered > 2 * KEEP { ContextSurvives(s, hops); }
  }

  lemma AppendKeeps(s: Proc, n: nat)
    requires Aligned(s) && HasContext(s)
    ensures var s' := s.(buffered := s.buffered + n, heard := s.heard + n); Aligned(s') && HasContext(s')
  {
    hide Tiled;
  }

  lemma FeedKeeps(dec: Decoder, s: Proc, n: nat)
    requires Aligned(s) && HasContext(s) && CaughtUp(s)
    ensures var s' := Feed(dec, s, n); Aligned(s') && HasContext(s') && CaughtUp(s')
  {
    hide Trim, DecodeAll, Aligned;
    if !Capped(s) {
      var s1 := s.(buffered := s.buffered + n, heard := s.heard + n);
      AppendKeeps(s, n);
      if s1.buffered >= WIN {
        DecodeAllKeeps(dec, s1, Frames(s1.buffered));
        var (s2, ok) := DecodeAll(dec, s1, Frames(s1.buffered));
        if ok { TrimKeeps(s2); }
      }
    }
  }

  lemma ResetOk()
    ensures Aligned(RESET) && HasContext(RESET) && CaughtUp(RESET)
  {
    hide Aligned, HasContext, CaughtUp;
    Nothing(RESET);
  }

  lemma Nothing(s: Proc)
    requires s.buffered == s.processed == s.consumed == s.chunks == s.trimmed == s.heard == 0 && s.windows == []
    ensures Aligned(s) && HasContext(s) && CaughtUp(s)
  {
  }

  lemma {:induction false} Reachable(dec: Decoder, feeds: seq<nat>)
    ensures var s := Run(dec, feeds); Aligned(s) && HasContext(s) && CaughtUp(s)
    decreases |feeds|
  {
    hide Feed, Aligned, HasContext, CaughtUp;
    ResetOk();
    if feeds != [] {
      Reachable(dec, feeds[..|feeds| - 1]);
      FeedKeeps(dec, Run(dec, feeds[..|feeds| - 1]), feeds[|feeds| - 1]);
    }
  }

  /** However the audio is split into feeds: the windows tile the frame axis and, past the first,
      have full left context; unless capped or failed, exactly the whole chunks of the audio so far
      have been decoded and the buffer is bounded. */
  lemma WindowsTile(dec: Decoder, feeds: seq<nat>)
    ensures var s := Run(dec, feeds);
            && Tiled(s.windows)
            && |s.windows| <= Frames(s.heard) / CHUNK
            && (!Capped(s) && !s.failed ==> |s.windows| == Frames(s.heard) / CHUNK && s.buffered <= 2 * KEEP)
  {
    Reachable(dec, feeds);
    Counted(Run(dec, feeds));
  }

  lemma Counted(s: Proc)
    requires Aligned(s) && CaughtUp(s)
    ensures |s.windows| <= Frames(s.heard) / CHUNK
    ensures !Capped(s) && !s.failed ==> |s.windows| == Frames(s.heard) / CHUNK
  {
    hide Tiled;
    Shifted(s.trimmed / HOP, s.buffered);
    assert Frames(s.heard) == s.trimmed / HOP + Frames(s.buffered);
    assert s.trimmed / HOP + s.processed / HOP == s.chunks * CHUNK;
  }

  /** Cutting whole hops off the front shifts the frame count. */
  lemma Shifted(k: nat, n: nat)
    ensures n > 0 ==> Frames(k * HOP + n) == k + Frames(n)
  {
  }

  /** Flushing an utterance without errors decodes the rest: at most 55 frames, so that no index
      leaves the encoder input, and every frame of the audio is in exactly one window. */
  lemma FlushCovers(dec: Decoder, feeds: seq<nat>)
    ensures var s := Run(dec, feeds);
            !Capped(s) && !s.failed ==>
              && Tail(s) < CHUNK && CONTEXT + Tail(s) < WIDTH
              && (s.buffered >= WIN && Tail(s) > 0 && dec(s.calls).Some? ==>
                    var w := Flush(dec, s).windows;
                    && w == s.windows + [Window(|s.windows| * CHUNK, Tail(s), if s.windows == [] then 0 else CONTEXT)]
                    && |s.windows| * CHUNK + Tail(s) == Frames(s.heard))
  {
    hide Tiled;
    Reachable(dec, feeds);
    var s := Run(dec, feeds);
    Shifted(s.trimmed / HOP, s.buffered);
    assert s.trimmed / HOP + s.processed / HOP == s.chunks * CHUNK;
  }

  /** The budget is overrun by less than a chunk. */
  lemma {:induction false} DecodeAllBudget(dec: Decoder, s: Proc, total: nat)
    requires s.consumed < MAX_SAMPLES + CHUNK * HOP
    ensures DecodeAll(dec, s, total).0.consumed < MAX_SAMPLES + CHUNK * HOP
    decreases total * HOP - s.processed
  {
    if !Capped(s) && total - s.processed / HOP >= CHUNK && dec(s.calls).Some? {
      DecodeAllBudget(dec, Decode(dec, s, CHUNK), total);
    }
  }

  lemma {:induction false} RunBudget(dec: Decoder, feeds: seq<nat>)
    ensures Run(dec, feeds).consumed < MAX_SAMPLES + CHUNK * HOP
    decreases |feeds|
  {
    hide DecodeAll, Frames;
    if feeds != [] {
      var s, n := Run(dec, feeds[..|feeds| - 1]), feeds[|feeds| - 1];
      RunBudget(dec, feeds[..|feeds| - 1]);
      var s1 := s.(buffered := s.buffered + n, heard := s.heard + n);
      DecodeAllBudget(dec, s1, Frames(s1.buffered));
    }
  }

  lemma ChunkBudget(dec: Decoder, feeds: seq<nat>)
    ensures |Run(dec, feeds).windows| <= MAX_CHUNKS
  {
    hide Run, Tiled, HasContext, CaughtUp;
    Reachable(dec, feeds);
    RunBudget(dec, feeds);
  }

  lemma CappedStays(dec: Decoder, s: Proc, n: nat)
    requires Capped(s)
    ensures Feed(dec, s, n) == s && Flush(dec, s) == s
  {
  }

  /** However much audio is fed, at most MAX_CHUNKS whole chunks are decoded; and once the budget is
      reached no further feed or flush buffers or decodes anything. */
  lemma {:induction false} CappedIsFinal(dec: Decoder, feeds: seq<nat>, more: seq<nat>)
    ensures |Run(dec, feeds).windows| <= MAX_CHUNKS
    ensures Capped(Run(dec, feeds)) ==>
              Run(dec, feeds + more) == Run(dec, feeds) && Flush(dec, Run(dec, feeds + more)) == Run(dec, feeds)
    decreases |more|
  {
    hide Feed, Flush, Capped;
    ChunkBudget(dec, feeds);
    if Capped(Run(dec, feeds)) { CappedStays(dec, Run(dec, feeds), if more == [] then 0 else more[|more| - 1]); }
    if more == [] {
      assert feeds + more == feeds;
    } else {
      var rest := more[..|more| - 1];
      CappedIsFinal(dec, feeds, rest);
      assert (feeds + more)[..|feeds + more| - 1] == feeds + rest;
    }
  }

  /** Below the budget every feed is taken in. */
  lemma UncappedHears(dec: Decoder, s: Proc, n: nat)
    requires s.consumed < MAX_SAMPLES && |s.tokens| < MAX_TOKENS
    ensures Feed(dec, s, n).heard == s.heard + n
  {
    var s1 := s.(buffered := s.buffered + n, heard := s.heard + n);
    if s1.buffered >= WIN { HearsAll(dec, s1, Frames(s1.buffered)); }
  }

  lemma {:induction false} HearsAll(dec: Decoder, s: Proc, total: nat)
    ensures DecodeAll(dec, s, total).0.heard == s.heard
    decreases total * HOP - s.processed
  {
    if !Capped(s) && total - s.processed / HOP >= CHUNK && dec(s.calls).Some? {
      HearsAll(dec, Decode(dec, s, CHUNK), total);
    }
  }

  // ----- the transcript -----

  /** What the first n calls of the decoder emit, one after the other; a failed call emits nothing. */
  function Transcript(dec: Decoder, n: nat): seq<int> {
    if n == 0 then [] else Transcript(dec, n - 1) + if dec(n - 1).Some? then dec(n - 1).value else []
  }

  /** How many of the first n calls of the decoder succeed. */
  function Successes(dec: Decoder, n: nat): nat {
    if n == 0 then 0 else Successes(dec, n - 1) + if dec(n - 1).Some? then 1 else 0
  }

  ghost predicate Transcribed(dec: Decoder, s: Proc) {
    s.tokens == Transcript(dec, s.calls) && |s.windows| == Successes(dec, s.calls)
  }

  lemma DecodeTranscribed(dec: Decoder, s: Proc, frames: nat)
    requires Transcribed(dec, s)
    ensures Transcribed(dec, Decode(dec, s, frames))
  {
    assert s.tokens + [] == s.tokens;
  }

  lemma {:induction false} DecodeAllTranscribed(dec: Decoder, s: Proc, total: nat)
    requires Transcribed(dec, s)
    ensures Transcribed(dec, DecodeAll(dec, s, total).0)
    decreases total * HOP - s.processed
  {
    hide Transcribed;
    if !Capped(s) && total - s.processed / HOP >= CHUNK {
      DecodeTranscribed(dec, s, CHUNK);
      if dec(s.calls).Some? { DecodeAllTranscribed(dec, Decode(dec, s, CHUNK), total); }
    }
  }

  lemma FeedTranscribed(dec: Decoder, s: Proc, n: nat)
    requires Transcribed(dec, s)
    ensures Transcribed(dec, Feed(dec, s, n))
  {
    hide DecodeAll, Frames, Transcript, Successes;
    var s1 := s.(buffered := s.buffered + n, heard := s.heard + n);
    if !Capped(s) && s1.buffered >= WIN { DecodeAllTranscribed(dec, s1, Frames(s1.buffered)); }
  }

  /** For any split of the audio into feeds, with or without the flush at the end, the tokens are what
      the decoder's calls emitted, in the order of the calls, and each successful call decoded one window. */
  lemma {:induction false} TokensInOrder(dec: Decoder, feeds: seq<nat>)
    ensures var s := Run(dec, feeds);
            s.tokens == Transcript(dec, s.calls) && |s.windows| == Successes(dec, s.calls)
    ensures var s := Flush(dec, Run(dec, feeds));
            s.tokens == Transcript(dec, s.calls) && |s.windows| == Successes(dec, s.calls)
    decreases |feeds|
  {
    hide Feed, Decode, Tail, Transcript, Successes, Capped;
    if feeds == [] {
      NothingTranscribed(dec);
    } else {
      TokensInOrder(dec, feeds[..|feeds| - 1]);
      FeedTranscribed(dec, Run(dec, feeds[..|feeds| - 1]), feeds[|feeds| - 1]);
    }
    var s := Run(dec, feeds);
    assert Transcribed(dec, s);
    if Tail(s) > 0 { DecodeTranscribed(dec, s, Tail(s)); }
  }

  lemma NothingTranscribed(dec: Decoder)
    ensures Transcribed(dec, RESET)
  {
  }

  // ----- the encoder input -----

  /** What one cell of the encoder input holds: context frames right-aligned before the main ones. */
  function Cell(mel: seq<seq<real>>, mainStart: nat, mainLen: nat, left: nat, m: nat, c: nat): real {
    if m < |mel| && CONTEXT - left <= c < CONTEXT + mainLen && mainStart + c - CONTEXT < |mel[m]|
       && mainStart + c - CONTEXT >= 0
    then mel[m][mainStart + c - CONTEXT] else 0.0
  }

  /** buildEncoderChunk over a spectrogram of `total` frames. */
  method BuildEncoderChunk(mel: seq<seq<real>>, total: nat, mainStart: nat, mainLen: nat, chunkIdx: nat)
    returns (out: array2<real>)
    requires forall m :: 0 <= m < |mel| ==> |mel[m]| == total
    requires mainStart <= total && mainLen <= CHUNK
    ensures out.Length0 == |mel| && out.Length1 == WIDTH
    ensures var left := if chunkIdx == 0 then 0 else if mainStart < CONTEXT then mainStart else CONTEXT;
            forall m, c :: 0 <= m < |mel| && 0 <= c < WIDTH ==> out[m, c] == Cell(mel, mainStart, mainLen, left, m, c)
  {
    out := new real[|mel|, WIDTH]((m, c) => 0.0);
    var left := 0;
    if chunkIdx > 0 {
      var cacheStart := if mainStart < CONTEXT then 0 else mainStart - CONTEXT;
      left := mainStart - cacheStart;
      FillFrames(mel, out, cacheStart, CONTEXT - left, left);
    }
    var frames := if mainStart + mainLen > total then total - mainStart else mainLen;
    FillFrames(mel, out, mainStart, CONTEXT, frames);
  }

  /** Copies `frames` frames of every mel bin, from `src` of the spectrogram to `dst` of the chunk. */
  method FillFrames(mel: seq<seq<real>>, out: array2<real>, src: nat, dst: nat, frames: nat)
    requires out.Length0 == |mel| && dst + frames <= out.Length1
    requires forall m :: 0 <= m < |mel| ==> src + frames <= |mel[m]|
    modifies out
    ensures forall m, c :: 0 <= m < out.Length0 && 0 <= c < out.Length1 ==>
              out[m, c] == if dst <= c < dst + frames then mel[m][src + c - dst] else old(out[m, c])
  {
    var f := 0;
    while f < frames
      invariant 0 <= f <= frames
      invariant forall m, c :: 0 <= m < out.Length0 && 0 <= c < out.Length1 ==>
                  out[m, c] == if dst <= c < dst + f then mel[m][src + c - dst] else old(out[m, c])
    {
      var m := 0;
      while m < |mel|
        invariant 0 <= m <= |mel|
        invariant forall k, c :: 0 <= k < out.Length0 && 0 <= c < out.Length1 ==>
                    out[k, c] == if dst <= c < dst + f || (c == dst + f && k < m) then mel[k][src + c - dst] else old(out[k, c])
      {
        out[m, dst + f] := mel[m][src + f];
        m := m + 1;
      }
      f := f + 1;
    }
  }

  // ----- the stream -----

  /** The buffer is the end of the audio. */
  predicate IsTail(buf: seq<real>, audio: seq<real>) { |buf| <= |audio| && buf == audio[|audio| - |buf|..] }

  class StreamProc {
    var audioBuf: seq<real>
    var audioProcessed: nat
    var consumed: nat
    var chunkIdx: nat
    var tokens: seq<int>
    ghost var audio: seq<real>       // everything accepted
    ghost var windows: seq<Window>
    ghost var calls: nat
    ghost var failed: bool

    ghost function Abs(): Proc
      reads this
      requires |audioBuf| <= |audio|
    {
      Proc(|audioBuf|, audioProcessed, consumed, chunkIdx, tokens, |audio| - |audioBuf|, |audio|, calls, failed, windows)
    }

    /** The buffer is the end of the audio. */
    ghost predicate Valid()
      reads this
    {
      && |audioBuf| <= |audio| && IsTail(audioBuf, audio)
      && Aligned(Abs()) && HasContext(Abs())
    }

    constructor ()
      ensures Valid() && Abs() == RESET
    {
      audioBuf, audioProcessed, consumed, chunkIdx, tokens := [], 0, 0, 0, [];
      audio, windows, calls, failed := [], [], 0, false;
    }

    /** decodeChunk with the updates that follow it, given the decoder's answer. */
    method DecodeChunk(ghost dec: Decoder, answer: Option<seq<int>>, mainStart: nat, mainLen: nat)
      requires |audioBuf| <= |audio| && mainStart == audioProcessed / HOP && dec(calls) == answer
      modifies this
      ensures audioBuf == old(audioBuf) && audio == old(audio) && calls == old(calls) + 1
      ensures answer.None? ==> tokens == old(tokens) && windows == old(windows) && audioProcessed == old(audioProcessed)
      ensures answer.Some? ==>
                && tokens == old(tokens) + answer.value && |windows| == |old(windows)| + 1
                && audioProcessed == old(audioProcessed) + mainLen * HOP
      ensures Abs() == Decode(dec, old(Abs()), mainLen)
    {
      calls := calls + 1;
      if answer.None? {
        failed := true;
        return;
      }
      windows := windows + [Window((|audio| - |audioBuf|) / HOP + mainStart, mainLen,
                                   if chunkIdx == 0 then 0 else if mainStart < CONTEXT then mainStart else CONTEXT)];
      tokens := tokens + answer.value;
      audioProcessed := audioProcessed + mainLen * HOP;
      consumed := consumed + mainLen * HOP;
      chunkIdx := chunkIdx + 1;
    }

    /** trim, after a finished chunk loop. */
    method TrimBuffer()
      requires Valid() && (!Capped(Abs()) ==> Tail(Abs()) < CHUNK)
      modifies this
      ensures Valid() && Abs() == Trim(old(Abs()))
      ensures tokens == old(tokens) && windows == old(windows) && calls == old(calls)
    {
      hide Valid, Aligned, HasContext, CaughtUp, Capped, Tail, Trim, IsTail;
      InBuffer();
      TrimKeeps(Abs());
      CutBuffer();
      StillValid();
    }

    method CutBuffer()
      requires |audioBuf| <= |audio| && IsTail(audioBuf, audio)
      modifies this
      ensures |audioBuf| <= |audio| && IsTail(audioBuf, audio)
      ensures Abs() == Trim(old(Abs()))
      ensures tokens == old(tokens) && windows == old(windows) && calls == old(calls)
    {
      hide IsTail;
      if |audioBuf| <= KEEP * 2 { return; }
      var remove := |audioBuf| - KEEP;
      if remove > audioProcessed { remove := audioProcessed; }
      remove := remove - remove % HOP;
      if remove <= 0 { return; }
      TailCut(audio, audioBuf, remove);
      audioBuf := audioBuf[remove..];
      audioProcessed := audioProcessed - remove;
    }

    /** The audio is appended to the buffer. */
    method Append(pcm: seq<real>)
      requires Valid()
      modifies this
      ensures Valid() && |audioBuf| == |old(audioBuf)| + |pcm|
      ensures Abs() == old(Abs()).(buffered := old(Abs()).buffered + |pcm|, heard := old(Abs()).heard + |pcm|)
    {
      hide Valid, Aligned, HasContext, IsTail;
      InBuffer();
      AppendKeeps(Abs(), |pcm|);
      TailGrows(audio, audioBuf, pcm);
      audio := audio + pcm;
      audioBuf := audioBuf + pcm;
      StillValid();
    }

    /** The chunk loop of feed over what is buffered, and the trim after it. */
    method DecodeBuffered(dec: Decoder, firstCall: nat) returns (chunks: nat, advanced: bool, ok: bool)
      requires Valid() && firstCall == calls
      modifies this
      ensures Valid() && Abs() == AfterLoop(dec, old(Abs()))
      ensures chunks == |windows| - |old(windows)| && (advanced <==> |tokens| > |old(tokens)|)
      ensures ok <==> calls == old(calls) || (calls > 0 && dec(calls - 1).Some?)
    {
      hide Valid, Aligned, HasContext, CaughtUp, Tail, Capped, Trim, Decode, DecodeAll, Frames, Reported, IsTail;
      InBuffer();
      ghost var s := Abs();
      DecodeAllKeeps(dec, s, Frames(s.buffered));
      chunks, advanced, ok := DecodeLoop(dec, firstCall);
      InBuffer();
      Told(dec, s, Abs(), chunks, advanced, ok);
      if ok { TrimBuffer(); }
    }

    /** feed, with the answers the decoder will give: how many chunks ran, whether tokens were emitted,
        and whether every call succeeded. */
    method FeedAudio(pcm: seq<real>, dec: Decoder, firstCall: nat) returns (chunks: nat, advanced: bool, ok: bool)
      requires Valid() && firstCall == calls
      requires CaughtUp(Abs())
      modifies this
      ensures Valid() && CaughtUp(Abs())
      ensures Abs() == Feed(dec, old(Abs()), |pcm|)
      ensures chunks == |windows| - |old(windows)| && (advanced <==> |tokens| > |old(tokens)|)
      ensures ok <==> calls == old(calls) || (calls > 0 && dec(calls - 1).Some?)
    {
      hide Valid, Aligned, HasContext, CaughtUp, AfterLoop;
      InBuffer();
      FeedKeeps(dec, Abs(), |pcm|);
      if consumed >= MAX_SAMPLES || |tokens| >= MAX_TOKENS { return 0, false, true; }
      Append(pcm);
      if |audioBuf| < WIN { return 0, false, true; }
      chunks, advanced, ok := DecodeBuffered(dec, firstCall);
    }

    /** One whole chunk of the loop; the number of tokens it emitted, or nothing after an error. */
    method DecodeWhole(dec: Decoder, call: nat) returns (n: Option<nat>)
      requires Valid() && call == calls && !Capped(Abs()) && Tail(Abs()) >= CHUNK
      modifies this
      ensures audioBuf == old(audioBuf) && audio == old(audio) && calls == old(calls) + 1
      ensures Valid() && Abs() == Decode(dec, old(Abs()), CHUNK)
      ensures n == if dec(call).Some? then Some(|dec(call).value|) else None
      ensures n.Some? ==> audioProcessed == old(audioProcessed) + CHUNK * HOP
    {
      hide Valid, Decode, Aligned, HasContext, Capped, Tail, IsTail;
      InBuffer();
      DecodeKeeps(dec, Abs());
      var answer := dec(call);
      DecodeChunk(dec, answer, audioProcessed / HOP, CHUNK);
      StillValid();
      if answer.None? { return None; }
      n := Some(|answer.value|);
    }

    /** The chunk loop of feed. */
    method DecodeLoop(dec: Decoder, firstCall: nat) returns (chunks: nat, advanced: bool, ok: bool)
      requires Valid() && firstCall == calls
      modifies this
      ensures audioBuf == old(audioBuf) && audio == old(audio)
      ensures Valid()
      ensures (Abs(), ok) == DecodeAll(dec, old(Abs()), Frames(|audioBuf|))
      ensures Reported(dec, old(Abs()), Abs(), chunks, advanced, ok)
    {
      hide Valid, Decode, Frames, DecodeAll, Reported;
      InBuffer();
      var total := Frames(|audioBuf|);
      var call := firstCall;
      chunks, advanced := 0, false;
      ghost var before := Abs();
      NothingReported(dec, before);
      while !(consumed >= MAX_SAMPLES || |tokens| >= MAX_TOKENS) && total - audioProcessed / HOP >= CHUNK
        invariant audioBuf == old(audioBuf) && audio == old(audio) && call == calls
        invariant Valid()
        invariant DecodeAll(dec, Abs(), total) == DecodeAll(dec, before, total)
        invariant Reported(dec, before, Abs(), chunks, advanced, true)
        decreases total * HOP - audioProcessed
      {
        ghost var s := Abs();
        Unroll(dec, s, total);
        RoomLeft(total, audioProcessed);
        var n := DecodeWhole(dec, call);
        ChunkReported(dec, before, s, chunks, advanced);
        call := call + 1;
        if n.None? { return chunks, advanced, false; }
        chunks := chunks + 1;
        if n.value > 0 { advanced := true; }
      }
      Unroll(dec, Abs(), total);
      ok := true;
    }

    lemma InBuffer()
      requires Valid()
      ensures |audioBuf| <= |audio| && IsTail(audioBuf, audio)
      ensures Aligned(Abs()) && HasContext(Abs())
    {
    }

    lemma StillValid()
      requires |audioBuf| <= |audio| && IsTail(audioBuf, audio)
      requires Aligned(Abs()) && HasContext(Abs())
      ensures Valid()
    {
    }

    /** flush: the tail shorter than a chunk, as one last window. */
    method FlushAudio(dec: Decoder, firstCall: nat) returns (chunks: nat, advanced: bool, ok: bool)
      requires Valid() && firstCall == calls
      modifies this
      ensures audioBuf == old(audioBuf) && audio == old(audio)
      ensures Abs() == Flush(dec, old(Abs()))
      ensures chunks == |windows| - |old(windows)| && (advanced <==> |tokens| > |old(tokens)|)
      ensures ok <==> calls == old(calls) || (calls > 0 && dec(calls - 1).Some?)
    {
      hide Aligned, HasContext, Frames;
      if consumed >= MAX_SAMPLES || |tokens| >= MAX_TOKENS || |audioBuf| < WIN { return 0, false, true; }
      var total := Frames(|audioBuf|);
      var processed := audioProcessed / HOP;
      if total <= processed { return 0, false, true; }
      var answer := dec(firstCall);
      DecodeChunk(dec, answer, processed, total - processed);
      if answer.None? { return 0, false, false; }
      return 1, answer.value != [], true;
    }
  }

  /** What feed tells its caller: the chunks decoded, whether they emitted tokens, and whether the last
      call of the decoder succeeded. */
  predicate Reported(dec: Decoder, before: Proc, s: Proc, chunks: nat, advanced: bool, ok: bool) {
    && chunks == |s.windows| - |before.windows| && |s.tokens| >= |before.tokens|
    && (advanced <==> |s.tokens| > |before.tokens|)
    && s.calls >= before.calls && (ok <==> s.calls == before.calls || dec(s.calls - 1).Some?)
  }

  lemma Told(dec: Decoder, before: Proc, s: Proc, chunks: nat, advanced: bool, ok: bool)
    requires Reported(dec, before, s, chunks, advanced, ok)
    ensures chunks == |s.windows| - |before.windows| && (advanced <==> |s.tokens| > |before.tokens|)
    ensures ok <==> s.calls == before.calls || (s.calls > 0 && dec(s.calls - 1).Some?)
  {
  }

  lemma TailGrows(audio: seq<real>, buf: seq<real>, pcm: seq<real>)
    requires IsTail(buf, audio)
    ensures IsTail(buf + pcm, audio + pcm)
  {
    var n := |audio| - |buf|;
    assert (audio + pcm)[n..] == audio[n..] + pcm;
  }

  lemma TailCut(audio: seq<real>, buf: seq<real>, n: nat)
    requires IsTail(buf, audio) && n <= |buf|
    ensures IsTail(buf[n..], audio)
  {
    assert audio[|audio| - |buf|..][n..] == audio[|audio| - |buf| + n..];
  }

  lemma NothingReported(dec: Decoder, s: Proc)
    ensures Reported(dec, s, s, 0, false, true)
  {
  }

  lemma ChunkReported(dec: Decoder, before: Proc, s: Proc, chunks: nat, advanced: bool)
    requires Reported(dec, before, s, chunks, advanced, true)
    ensures dec(s.calls).Some? ==>
              Reported(dec, before, Decode(dec, s, CHUNK), chunks + 1, advanced || |dec(s.calls).value| > 0, true)
    ensures dec(s.calls).None? ==> Reported(dec, before, Decode(dec, s, CHUNK), chunks, advanced, false)
  {
  }

  lemma RoomLeft(total: nat, processed: nat)
    requires total - processed / HOP >= CHUNK
    ensures total * HOP - processed > 0
  {
  }

  lemma Unroll(dec: Decoder, s: Proc, total: nat)
    ensures DecodeAll(dec, s, total)
            == if Capped(s) || total - s.processed / HOP < CHUNK then (s, true)
               else if dec(s.calls).None? then (Decode(dec, s, CHUNK), false)
               else DecodeAll(dec, Decode(dec, s, CHUNK), total)
  {
  }
}
