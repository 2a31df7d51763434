/**
 * The chunked delivery simulator of the `useStreamingContent` hook: a target text is released
 * `chunkSize` characters at a time, one chunk per timer tick, into the displayed content.
 *
 * The hook's state and refs are the fields of class StreamingHook; the armed `setTimeout` is the
 * field `timer`, holding the target text its `streamChunk` closure captured, and the timer firing
 * is the method Tick. Calls of the optional `onComplete` callback are counted in `completions`.
 * Each method is specified by a transition function on the value type Hook, and the properties
 * of whole runs are lemmas about those functions.
 */
module StreamingContent {
  import opened Wrappers

  /** The hook's default number of characters per chunk. */
  const DEFAULT_CHUNK_SIZE: int := 10

  /** An index clamped into 0..n, as string methods clamp their arguments. */
  function Clamp(i: int, n: nat): (r: nat)
    ensures r <= n
  {
    if i < 0 then 0 else if i > n then n else i
  }

  /**
   * `String.prototype.substring`: both bounds are clamped into the string and swapped when the
   * start lies after the end.
   */
  function Substring(s: string, start: int, end: int): (r: string)
    ensures |r| <= |s|
    ensures 0 <= start <= end <= |s| ==> r == s[start..end]
    ensures 0 <= end <= start <= |s| ==> r == s[end..start]
    ensures start <= 0 && end <= 0 ==> r == ""
  {
    var a, b := Clamp(start, |s|), Clamp(end, |s|);
    if a <= b then s[a..b] else s[b..a]
  }

  /** The number of chunks of size `size` that `n` characters fill: the ceiling of n / size. */
  function CeilDiv(n: nat, size: nat): (chunks: nat)
    requires size >= 1
    ensures (chunks == 0) == (n == 0)
    decreases n
  {
    if n == 0 then 0 else if n <= size then 1 else 1 + CeilDiv(n - size, size)
  }

  /** CeilDiv(n, size) is the least c with n <= c * size. */
  lemma {:induction false} CeilDivIsCeiling(n: nat, size: nat)
    requires size >= 1
    ensures n <= CeilDiv(n, size) * size
    ensures n > 0 ==> (CeilDiv(n, size) - 1) * size < n
    decreases n
  {
    if n > size {
      CeilDivIsCeiling(n - size, size);
      var c := CeilDiv(n - size, size);
      assert CeilDiv(n, size) * size == c * size + size;
      assert (CeilDiv(n, size) - 1) * size == c * size;
    }
  }

  /**
   * The hook's whole state: the `content` and `isStreaming` state variables, the
   * `fullContentRef` and `currentIndexRef` refs, the armed chunk timer (with the target its
   * closure captured) and the number of `onComplete` calls so far.
   */
  datatype Hook = Hook(content: string, isStreaming: bool, fullContent: string, currentIndex: int,
                       timer: Option<string>, completions: nat)

  /** The state when the hook is first used. */
  function Initial(): Hook {
    Hook("", false, "", 0, None, 0)
  }

  /** `reset`: everything is cleared and the armed timer, if any, is cancelled. */
  function AfterReset(h: Hook): Hook {
    h.(content := "", isStreaming := false, fullContent := "", currentIndex := 0, timer := None)
  }

  /** `setContent`: the content is replaced and streaming is switched off; refs and timer stay. */
  function AfterSetContent(h: Hook, newContent: string): Hook {
    h.(content := newContent, isStreaming := false)
  }

  /** `appendContent`: the chunk is appended to the content. */
  function AfterAppend(h: Hook, chunk: string): Hook {
    h.(content := h.content + chunk)
  }

  /** `stopStreaming`: the timer is cancelled, the whole target is shown and `onComplete` runs. */
  function AfterStop(h: Hook): Hook {
    h.(timer := None, content := h.fullContent, isStreaming := false, completions := h.completions + 1)
  }

  /**
   * One run of the `streamChunk` closure for `target`: at or past the end it stops streaming and
   * calls `onComplete`; otherwise it appends the next slice, advances the index to
   * min(index + chunkSize, |target|) and arms the timer again.
   */
  function AfterChunk(h: Hook, target: string, chunkSize: int): Hook {
    var currentIndex := h.currentIndex;
    var nextIndex := if currentIndex + chunkSize < |target| then currentIndex + chunkSize else |target|;
    if currentIndex >= |target| then
      h.(isStreaming := false, completions := h.completions + 1)
    else
      h.(content := h.content + Substring(target, currentIndex, nextIndex), currentIndex := nextIndex,
         timer := Some(target))
  }

  /** `startStreaming`: reset, record the target, switch streaming on and run the first chunk at once. */
  function AfterStart(h: Hook, target: string, chunkSize: int): Hook {
    AfterChunk(AfterReset(h).(fullContent := target, isStreaming := true), target, chunkSize)
  }

  /** The armed timer fires: it is spent, and the closure it holds runs. */
  function AfterTick(h: Hook, chunkSize: int): Hook
    requires h.timer.Some?
  {
    AfterChunk(h.(timer := None), h.timer.value, chunkSize)
  }

  /** n timer periods elapse: each fires the armed timer, if there is one. */
  function RunTicks(h: Hook, chunkSize: int, n: nat): Hook
    decreases n
  {
    if n == 0 then h
    else RunTicks(if h.timer.Some? then AfterTick(h, chunkSize) else h, chunkSize, n - 1)
  }

  /** A run for `target` is under way: the content is the part released so far and a tick is armed. */
  predicate Streaming(h: Hook, target: string) {
    0 <= h.currentIndex <= |target| && h.content == target[..h.currentIndex] &&
    h.timer == Some(target) && h.isStreaming && h.fullContent == target
  }

  /** The state a run for `target` ends in: the whole target shown and `onComplete` called once more. */
  function Finished(h: Hook, target: string): Hook {
    h.(content := target, currentIndex := |target|, isStreaming := false, timer := None,
       completions := h.completions + 1)
  }

  // ----- single steps -----

  /**
   * Before the end, a tick appends exactly target[i..min(i + chunkSize, |target|)], advances the
   * index to that bound and keeps the run going: the content stays the released prefix.
   */
  lemma TickKeepsPrefix(h: Hook, target: string, chunkSize: int)
    requires chunkSize >= 1 && Streaming(h, target) && h.currentIndex < |target|
    ensures var next := if h.currentIndex + chunkSize < |target| then h.currentIndex + chunkSize else |target|;
            var h' := AfterTick(h, chunkSize);
            h'.currentIndex == next && h.currentIndex < next &&
            h'.content == h.content + target[h.currentIndex..next] &&
            Streaming(h', target) && h'.completions == h.completions
  {
    var next := if h.currentIndex + chunkSize < |target| then h.currentIndex + chunkSize else |target|;
    assert target[..next] == target[..h.currentIndex] + target[h.currentIndex..next];
  }

  /** Once the whole target is released, the next tick ends the run and schedules nothing more. */
  lemma TickAtEndFinishes(h: Hook, target: string, chunkSize: int)
    requires Streaming(h, target) && h.currentIndex == |target|
    ensures AfterTick(h, chunkSize) == Finished(h, target)
  {
    assert h.content == target;
  }

  /** With a chunk size of zero a run never advances: each tick re-arms the same state. */
  lemma ZeroChunkSizeStalls(h: Hook, target: string)
    requires Streaming(h, target) && h.currentIndex < |target|
    ensures AfterTick(h, 0) == h
  {
    assert Substring(target, h.currentIndex, h.currentIndex) == "";
  }

  /** Ticks without an armed timer change nothing. */
  lemma {:induction false} IdleTicks(h: Hook, chunkSize: int, n: nat)
    requires h.timer.None?
    ensures RunTicks(h, chunkSize, n) == h
    decreases n
  {
    if n > 0 {
      IdleTicks(h, chunkSize, n - 1);
    }
  }

  /** Ticks never touch `fullContentRef`. */
  lemma {:induction false} TicksKeepFullContent(h: Hook, chunkSize: int, n: nat)
    ensures RunTicks(h, chunkSize, n).fullContent == h.fullContent
    decreases n
  {
    if n > 0 {
      TicksKeepFullContent(if h.timer.Some? then AfterTick(h, chunkSize) else h, chunkSize, n - 1);
    }
  }

  // ----- whole runs -----

  /**
   * While fewer than ⌈(|target| - index) / chunkSize⌉ ticks have passed, the run is still going,
   * the content is a prefix of the target and `onComplete` has not run.
   */
  lemma {:induction false} RunStillStreaming(h: Hook, target: string, chunkSize: int, k: nat)
    requires chunkSize >= 1 && Streaming(h, target)
    requires k <= CeilDiv(|target| - h.currentIndex, chunkSize)
    ensures Streaming(RunTicks(h, chunkSize, k), target)
    ensures RunTicks(h, chunkSize, k).completions == h.completions
    ensures RunTicks(h, chunkSize, k).currentIndex >= h.currentIndex
    decreases k
  {
    if k > 0 {
      TickKeepsPrefix(h, target, chunkSize);
      var h' := AfterTick(h, chunkSize);
      CeilDivStep(|target| - h.currentIndex, |target| - h'.currentIndex, chunkSize);
      RunStillStreaming(h', target, chunkSize, k - 1);
    }
  }

  /**
   * A run in progress finishes after exactly ⌈(|target| - index) / chunkSize⌉ + 1 ticks, with
   * the whole target shown and `onComplete` called once.
   */
  lemma {:induction false} RunFinishes(h: Hook, target: string, chunkSize: int)
    requires chunkSize >= 1 && Streaming(h, target)
    ensures RunTicks(h, chunkSize, CeilDiv(|target| - h.currentIndex, chunkSize) + 1) == Finished(h, target)
    decreases |target| - h.currentIndex
  {
    if h.currentIndex == |target| {
      assert CeilDiv(0, chunkSize) == 0;
      TickAtEndFinishes(h, target, chunkSize);
    } else {
      TickKeepsPrefix(h, target, chunkSize);
      var h' := AfterTick(h, chunkSize);
      CeilDivStep(|target| - h.currentIndex, |target| - h'.currentIndex, chunkSize);
      RunFinishes(h', target, chunkSize);
    }
  }

  /** Releasing one chunk, a full one or the final remainder, takes one chunk off the count. */
  lemma CeilDivStep(n: nat, m: nat, size: nat)
    requires size >= 1 && m < n && ((m == 0 && n <= size) || n - m == size)
    ensures CeilDiv(n, size) == CeilDiv(m, size) + 1
  {
  }

  /** After `startStreaming(target)` with a non-empty target, the first chunk is already shown. */
  lemma StartReleasesFirstChunk(h: Hook, target: string, chunkSize: int)
    requires chunkSize >= 1 && |target| > 0
    ensures var first := if chunkSize < |target| then chunkSize else |target|;
            var s := AfterStart(h, target, chunkSize);
            Streaming(s, target) && s.currentIndex == first && s.completions == h.completions
  {
    var first := if chunkSize < |target| then chunkSize else |target|;
    assert Substring(target, 0, first) == target[..first];
  }

  /** `startStreaming("")` ends at once: nothing is shown, nothing is scheduled, `onComplete` runs. */
  lemma EmptyTargetFinishesAtOnce(h: Hook, chunkSize: int)
    ensures var s := AfterStart(h, "", chunkSize);
            s.content == "" && !s.isStreaming && s.timer.None? && s.completions == h.completions + 1
  {
  }

  /**
   * `startStreaming(target)` with chunkSize >= 1: for the first ⌈|target| / chunkSize⌉ ticks
   * the content is a growing prefix of the target; after them the target is shown, streaming is
   * off, `onComplete` has run exactly once and no further tick changes anything. Counting the
   * synchronous first chunk, that is ⌈|target| / chunkSize⌉ + 1 runs of `streamChunk`.
   */
  lemma {:induction false} StreamingCompletes(h: Hook, target: string, chunkSize: int, k: nat)
    requires chunkSize >= 1
    ensures var s := AfterStart(h, target, chunkSize);
            var n := CeilDiv(|target|, chunkSize);
            var after := RunTicks(s, chunkSize, k);
            (k < n ==> Streaming(after, target) && after.completions == h.completions) &&
            (k >= n ==> after.content == target && !after.isStreaming && after.timer.None? &&
                        after.completions == h.completions + 1)
  {
    var s := AfterStart(h, target, chunkSize);
    var n := CeilDiv(|target|, chunkSize);
    if |target| == 0 {
      assert n == 0;
      IdleTicks(s, chunkSize, k);
    } else {
      StartReleasesFirstChunk(h, target, chunkSize);
      var first := s.currentIndex;
      CeilDivStep(|target|, |target| - first, chunkSize);
      assert n == CeilDiv(|target| - first, chunkSize) + 1;
      if k < n {
        RunStillStreaming(s, target, chunkSize, k);
      } else {
        RunFinishes(s, target, chunkSize);
        RunTicksSplit(s, chunkSize, n, k - n);
        IdleTicks(RunTicks(s, chunkSize, n), chunkSize, k - n);
      }
    }
  }

  /** n + m ticks are n ticks followed by m ticks. */
  lemma {:induction false} RunTicksSplit(h: Hook, chunkSize: int, n: nat, m: nat)
    ensures RunTicks(h, chunkSize, n + m) == RunTicks(RunTicks(h, chunkSize, n), chunkSize, m)
    decreases n
  {
    if n > 0 {
      RunTicksSplit(if h.timer.Some? then AfterTick(h, chunkSize) else h, chunkSize, n - 1, m);
    }
  }

  // ----- the other operations -----

  /** `startStreaming` discards whatever came before: only the `onComplete` count carries over. */
  lemma StartForgetsEarlierState(h1: Hook, h2: Hook, target: string, chunkSize: int)
    requires h1.completions == h2.completions
    ensures AfterStart(h1, target, chunkSize) == AfterStart(h2, target, chunkSize)
  {
  }

  /**
   * `stopStreaming` at any point of a run shows the whole target, even after text was appended
   * to the content, and the run's timer fires no more.
   */
  lemma {:induction false} StopShowsTarget(h: Hook, target: string, chunkSize: int, k: nat, extra: string)
    ensures var stopped := AfterStop(AfterAppend(RunTicks(AfterStart(h, target, chunkSize), chunkSize, k), extra));
            stopped.content == target && !stopped.isStreaming && stopped.timer.None? &&
            RunTicks(stopped, chunkSize, 1) == stopped
  {
    TicksKeepFullContent(AfterStart(h, target, chunkSize), chunkSize, k);
    var stopped := AfterStop(AfterAppend(RunTicks(AfterStart(h, target, chunkSize), chunkSize, k), extra));
    IdleTicks(stopped, chunkSize, 1);
  }

  /**
   * `setContent` during a run switches streaming off but leaves the timer armed, so the next
   * tick appends the following chunk of the target to the new content.
   */
  lemma SetContentKeepsTimer(h: Hook, target: string, chunkSize: int, newContent: string)
    requires chunkSize >= 1 && Streaming(h, target) && h.currentIndex < |target|
    ensures var h' := AfterTick(AfterSetContent(h, newContent), chunkSize);
            h'.timer == Some(target) && h'.isStreaming == false &&
            h'.content == newContent + target[h.currentIndex..h'.currentIndex] &&
            h.currentIndex < h'.currentIndex
  {
  }

  /** `appendContent` adds exactly the chunk at the end and leaves the rest of the state alone. */
  lemma AppendAddsChunk(h: Hook, chunk: string)
    ensures var h' := AfterAppend(h, chunk);
            h'.content[..|h.content|] == h.content && h'.content[|h.content|..] == chunk &&
            h'.(content := h.content) == h
  {
  }

  /** The hook instance: its state variables and refs, updated in place by its operations. */
  class StreamingHook {
    var content: string
    var isStreaming: bool
    var fullContent: string
    var currentIndex: int
    var timer: Option<string>
    var completions: nat
    const chunkSize: int

    /** The whole state as a value. */
    function State(): Hook
      reads this
    {
      Hook(content, isStreaming, fullContent, currentIndex, timer, completions)
    }

    constructor (chunkSize: int)
      ensures State() == Initial() && this.chunkSize == chunkSize
    {
      content, isStreaming, fullContent, currentIndex := "", false, "", 0;
      timer, completions := None, 0;
      this.chunkSize := chunkSize;
    }

    method Reset()
      modifies this
      ensures content == "" && !isStreaming && fullContent == "" && currentIndex == 0 && timer.None?
      ensures completions == old(completions)
      ensures State() == AfterReset(old(State()))
    {
      content := "";
      isStreaming := false;
      fullContent := "";
      currentIndex := 0;
      if timer.Some? {
        timer := None;
      }
    }

    method SetContent(newContent: string)
      modifies this
      ensures content == newContent && !isStreaming
      ensures fullContent == old(fullContent) && currentIndex == old(currentIndex)
      ensures timer == old(timer) && completions == old(completions)
      ensures State() == AfterSetContent(old(State()), newContent)
    {
      content := newContent;
      isStreaming := false;
    }

    method AppendContent(chunk: string)
      modifies this
      ensures content == old(content) + chunk
      ensures State() == AfterAppend(old(State()), chunk)
    {
      content := content + chunk;
    }

    method StopStreaming()
      modifies this
      ensures timer.None? && content == old(fullContent) && !isStreaming
      ensures completions == old(completions) + 1
      ensures fullContent == old(fullContent) && currentIndex == old(currentIndex)
      ensures State() == AfterStop(old(State()))
    {
      if timer.Some? {
        timer := None;
      }
      content := fullContent;
      isStreaming := false;
      completions := completions + 1;
    }

    /** The body of the `streamChunk` closure created by `startStreaming(target)`. */
    method StreamChunk(target: string)
      modifies this
      ensures State() == AfterChunk(old(State()), target, chunkSize)
    {
      var index := currentIndex;
      var nextIndex := if index + chunkSize < |target| then index + chunkSize else |target|;
      ghost var before := State();
      if index >= |target| {
        isStreaming := false;
        completions := completions + 1;
        assert State() == before.(isStreaming := false, completions := before.completions + 1);
      } else {
        var chunk := Substring(target, index, nextIndex);
        content := content + chunk;
        currentIndex := nextIndex;
        timer := Some(target);
        assert State() == before.(content := before.content + chunk, currentIndex := nextIndex, timer := Some(target));
      }
    }

    method StartStreaming(target: string)
      modifies this
      ensures fullContent == target
      ensures State() == AfterStart(old(State()), target, chunkSize)
    {
      Reset();
      fullContent := target;
      isStreaming := true;
      StreamChunk(target);
    }

    /** The armed timer fires and runs its closure. */
    method Tick()
      requires timer.Some?
      modifies this
      ensures State() == AfterTick(old(State()), chunkSize)
    {
      var target := timer.value;
      timer := None;
      StreamChunk(target);
    }
  }
}
