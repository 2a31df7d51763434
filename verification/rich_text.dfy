/**
 * The streaming buffer and settle logic of the `LLMRichText` component, and its two pure
 * render-time expressions: the cursor condition and the container style.
 *
 * A render of the component with new `content` and `streaming` props is the event Update. It
 * runs the effects whose dependencies changed, in declaration order, each against the values of
 * that render: the streaming effect, the settle effect (after its cleanup has cancelled the
 * armed timer) and the non-streaming callback effect. When the streaming effect changed the
 * displayed content, the component renders once more and the settle effect, which depends on
 * it, runs again. The settle timer is a deadline; its firing, at a time no earlier than the
 * deadline, is the event QuietElapsed.
 * Calls of the optional `onRenderComplete` callback are counted in `renderCompletes`.
 */
module RichText {
  import opened Wrappers
  import opened ThemeUtils

  /** The quiet period after which streamed content counts as settled, in milliseconds. */
  const QUIESCENCE_MS: int := 500

  /**
   * The component's state: the `previousContentRef` ref, the `displayedContent` and
   * `isComplete` state variables, the deadline of the armed settle timer, the number of
   * `onRenderComplete` calls, and the props of the last render (`mounted` is false before the
   * first one), against which effect dependencies are compared.
   */
  datatype View = View(previousContent: string, displayed: string, isComplete: bool,
                       settleDeadline: Option<int>, renderCompletes: nat,
                       mounted: bool, renderedContent: string, renderedStreaming: bool)

  /** The state before the first render. */
  function Initial(): View {
    View("", "", false, None, 0, false, "", false)
  }

  /** The body of the settle effect: arm the timer when streaming content equals what is shown. */
  function SettleTimer(content: string, displayed: string, streaming: bool, now: int): Option<int> {
    if streaming && content == displayed then Some(now + QUIESCENCE_MS) else None
  }

  /**
   * One render with props `content` and `streaming` at time `now`, with all the effects it
   * triggers. `hasCallback` says whether an `onRenderComplete` callback is given; `recordAlways`
   * says whether the streaming effect records the content in the ref in its non-streaming branch
   * too (the component as written does not).
   */
  function Render(v: View, content: string, streaming: bool, now: int, hasCallback: bool, recordAlways: bool): View {
    if v.mounted && content == v.renderedContent && streaming == v.renderedStreaming then v
    else
      var streamingChanged := !v.mounted || streaming != v.renderedStreaming;
      var v1 :=
        if streaming && content != v.previousContent then
          v.(previousContent := content, displayed := content, isComplete := false)
        else if !streaming then
          v.(previousContent := if recordAlways then content else v.previousContent,
             displayed := content, isComplete := true)
        else v;
      var firstTimer := SettleTimer(content, v.displayed, streaming, now);
      var timer := if v1.displayed != v.displayed then SettleTimer(content, v1.displayed, streaming, now) else firstTimer;
      var calls := if streamingChanged && !streaming && hasCallback then 1 else 0;
      v1.(settleDeadline := timer, renderCompletes := v.renderCompletes + calls,
          mounted := true, renderedContent := content, renderedStreaming := streaming)
  }

  /** A render of the component as written. */
  function AfterUpdate(v: View, content: string, streaming: bool, now: int, hasCallback: bool): View {
    Render(v, content, streaming, now, hasCallback, false)
  }

  /** The settle timer fires: the content is complete and `onRenderComplete` runs. */
  function AfterSettle(v: View, hasCallback: bool): View
    requires v.settleDeadline.Some?
  {
    v.(isComplete := true, settleDeadline := None,
       renderCompletes := v.renderCompletes + if hasCallback then 1 else 0)
  }

  /** The armed settle timer is due at time `now`: its quiet period has passed. */
  predicate SettleDue(v: View, now: int) {
    v.settleDeadline.Some? && v.settleDeadline.value <= now
  }

  /** Whether the blinking cursor is rendered. */
  function CursorVisible(v: View, showCursor: bool): bool {
    v.renderedStreaming && !v.isComplete && showCursor
  }

  /** The cursor is shown unless the animation configuration turns it off. */
  const DEFAULT_SHOW_CURSOR: bool := true

  /**
   * What holds between events: after a non-streaming render the props' content is shown, settled
   * and no timer is armed; after a streaming render the ref holds the props' content; an armed
   * timer belongs to a streaming render whose content is shown.
   */
  predicate Consistent(v: View) {
    (!v.mounted ==> v == Initial()) &&
    (v.mounted && !v.renderedStreaming ==>
       v.displayed == v.renderedContent && v.isComplete && v.settleDeadline.None?) &&
    (v.mounted && v.renderedStreaming ==> v.previousContent == v.renderedContent) &&
    (v.settleDeadline.Some? ==> v.mounted && v.renderedStreaming && v.displayed == v.renderedContent)
  }

  lemma InitialConsistent()
    ensures Consistent(Initial())
  {
  }

  /** Every render keeps the state consistent. */
  lemma UpdateKeepsConsistent(v: View, content: string, streaming: bool, now: int, hasCallback: bool)
    requires Consistent(v)
    ensures Consistent(AfterUpdate(v, content, streaming, now, hasCallback))
  {
  }

  /** The timer firing keeps the state consistent. */
  lemma SettleKeepsConsistent(v: View, hasCallback: bool)
    requires Consistent(v) && v.settleDeadline.Some?
    ensures Consistent(AfterSettle(v, hasCallback))
  {
  }

  /** A non-streaming render shows its content at once, settled, with no timer armed. */
  lemma NonStreamingShowsContent(v: View, content: string, now: int, hasCallback: bool)
    requires Consistent(v)
    ensures var v' := AfterUpdate(v, content, false, now, hasCallback);
            v'.displayed == content && v'.isComplete && v'.settleDeadline.None? &&
            !CursorVisible(v', DEFAULT_SHOW_CURSOR)
  {
  }

  /**
   * `onRenderComplete` runs on the render that switches streaming off (or mounts non-streaming),
   * not again for later non-streaming content: its effect depends on `streaming` only.
   */
  lemma NonStreamingCallback(v: View, content: string, now: int, hasCallback: bool)
    requires Consistent(v)
    ensures var v' := AfterUpdate(v, content, false, now, hasCallback);
            v'.renderCompletes ==
              v.renderCompletes + if hasCallback && (!v.mounted || v.renderedStreaming) then 1 else 0
  {
  }

  /**
   * A streaming render with content other than the ref's records and shows it, marks it
   * incomplete (so the cursor shows) and arms the settle timer for now + 500 ms.
   */
  lemma StreamingNewContent(v: View, content: string, now: int, hasCallback: bool)
    requires Consistent(v) && content != v.previousContent
    ensures var v' := AfterUpdate(v, content, true, now, hasCallback);
            v'.previousContent == content && v'.displayed == content && !v'.isComplete &&
            v'.settleDeadline == Some(now + QUIESCENCE_MS) && v'.renderCompletes == v.renderCompletes &&
            CursorVisible(v', DEFAULT_SHOW_CURSOR)
  {
  }

  /**
   * A streaming render whose content equals the ref fails the equality check of the streaming
   * effect: the ref, the display and completeness stay as they were and no callback runs. Unless
   * the props are those of the last render, the settle effect runs again: it arms a fresh timer
   * for now + 500 ms exactly when the content is the one on display, and otherwise none.
   */
  lemma StreamingRecordedContent(v: View, content: string, now: int, hasCallback: bool)
    requires content == v.previousContent
    ensures var v' := AfterUpdate(v, content, true, now, hasCallback);
            v'.previousContent == v.previousContent && v'.displayed == v.displayed &&
            v'.isComplete == v.isComplete && v'.renderCompletes == v.renderCompletes &&
            (v.mounted && v.renderedStreaming && content == v.renderedContent ==> v' == v) &&
            (!(v.mounted && v.renderedStreaming && content == v.renderedContent) ==>
               (v'.settleDeadline.Some? <==> content == v.displayed) &&
               (v'.settleDeadline.Some? ==> v'.settleDeadline == Some(now + QUIESCENCE_MS)))
  {
  }

  /**
   * After a streaming render, repeating its content is a re-render with the same props: nothing
   * changes, the armed timer included.
   */
  lemma StreamingSameContent(v: View, now: int, hasCallback: bool)
    requires Consistent(v) && v.mounted && v.renderedStreaming
    ensures AfterUpdate(v, v.previousContent, true, now, hasCallback) == v
  {
    StreamingRecordedContent(v, v.previousContent, now, hasCallback);
  }

  /**
   * After a switch to non-streaming with the same content, streaming that content again finds it
   * recorded, so nothing is shown anew, yet the settle timer is armed afresh.
   */
  lemma RepeatAfterSwitchRearms(hasCallback: bool)
    ensures var v1 := AfterUpdate(Initial(), "a", true, 0, hasCallback);
            var v2 := AfterUpdate(v1, "a", false, 1, hasCallback);
            var v3 := AfterUpdate(v2, "a", true, 2, hasCallback);
            v3.displayed == "a" && v3.isComplete && v3.settleDeadline == Some(2 + QUIESCENCE_MS)
  {
    var v1 := AfterUpdate(Initial(), "a", true, 0, hasCallback);
    var v2 := AfterUpdate(v1, "a", false, 1, hasCallback);
    assert v2.previousContent == "a" && v2.displayed == "a";
  }

  /** A content change cancels any armed timer: afterwards none is armed or one is armed from now. */
  lemma ChangeCancelsTimer(v: View, content: string, streaming: bool, now: int, hasCallback: bool)
    requires v.mounted && content != v.renderedContent
    ensures var deadline := AfterUpdate(v, content, streaming, now, hasCallback).settleDeadline;
            deadline.None? || deadline == Some(now + QUIESCENCE_MS)
  {
  }

  /** When the timer fires the content is complete, the cursor goes and `onRenderComplete` runs once. */
  lemma SettleCompletes(v: View, hasCallback: bool, showCursor: bool)
    requires v.settleDeadline.Some?
    ensures var v' := AfterSettle(v, hasCallback);
            v'.isComplete && v'.settleDeadline.None? && !CursorVisible(v', showCursor) &&
            v'.renderCompletes == v.renderCompletes + (if hasCallback then 1 else 0) &&
            v'.displayed == v.displayed
  {
  }

  /**
   * Debounce: streamed updates at t1 <= t2 <= t3 to three successive distinct values leave the
   * timer armed for t3 + 500 ms only; the earlier deadlines are gone, so the timer is due exactly
   * from then on, and `onRenderComplete` has not run.
   */
  lemma {:induction false} Debounce(v: View, c1: string, c2: string, c3: string, t1: int, t2: int, t3: int,
                                    hasCallback: bool)
    requires Consistent(v) && c1 != v.previousContent && c2 != c1 && c3 != c2
    ensures var v1 := AfterUpdate(v, c1, true, t1, hasCallback);
            var v2 := AfterUpdate(v1, c2, true, t2, hasCallback);
            var v3 := AfterUpdate(v2, c3, true, t3, hasCallback);
            v3.settleDeadline == Some(t3 + QUIESCENCE_MS) && v3.displayed == c3 && !v3.isComplete &&
            v3.renderCompletes == v.renderCompletes &&
            forall now :: SettleDue(v3, now) <==> t3 + QUIESCENCE_MS <= now
  {
    var v1 := AfterUpdate(v, c1, true, t1, hasCallback);
    StreamingNewContent(v, c1, t1, hasCallback);
    UpdateKeepsConsistent(v, c1, true, t1, hasCallback);
    var v2 := AfterUpdate(v1, c2, true, t2, hasCallback);
    StreamingNewContent(v1, c2, t2, hasCallback);
    UpdateKeepsConsistent(v1, c2, true, t2, hasCallback);
    StreamingNewContent(v2, c3, t3, hasCallback);
  }

  // ----- the recorded content after a non-streaming render -----

  /**
   * As written, a non-streaming render does not record its content in the ref. Switching to
   * streaming with content equal to the stale ref then leaves the old content on display: after
   * a non-streaming "x" and a streaming "", "x" is shown, marked complete, with no timer armed.
   */
  lemma StaleDisplayAfterSwitch(hasCallback: bool)
    ensures var v1 := AfterUpdate(Initial(), "x", false, 0, hasCallback);
            var v2 := AfterUpdate(v1, "", true, 1, hasCallback);
            v2.renderedContent == "" && v2.displayed == "x" && v2.isComplete && v2.settleDeadline.None?
  {
    var v1 := AfterUpdate(Initial(), "x", false, 0, hasCallback);
    assert v1.previousContent == "" && v1.displayed == "x";
  }

  /** A render whose streaming effect records the content in both branches, as the equality check intends. */
  function AfterUpdateRecorded(v: View, content: string, streaming: bool, now: int, hasCallback: bool): View {
    Render(v, content, streaming, now, hasCallback, true)
  }

  /** The ref and the display agree, and after a render both hold the props' content. */
  predicate Recorded(v: View) {
    v.previousContent == v.displayed && (v.mounted ==> v.displayed == v.renderedContent)
  }

  /** With the content recorded in both branches, every render shows exactly its content. */
  lemma RecordedShowsContent(v: View, content: string, streaming: bool, now: int, hasCallback: bool)
    requires Recorded(v)
    ensures var v' := AfterUpdateRecorded(v, content, streaming, now, hasCallback);
            Recorded(v') && v'.displayed == content
  {
  }

  // ----- the container style -----

  /**
   * The container's inline style: the `style` prop, with the theme's CSS variables assigned over
   * it when a theme is given.
   */
  function ContainerStyle(style: map<string, string>, theme: Option<ThemeConfig>): (r: map<string, string>)
    ensures theme.None? ==> r == style
    ensures theme.Some? ==> r.Keys == style.Keys + CssVariables(theme.value).Keys
    ensures theme.Some? ==> forall k :: k in r ==>
              r[k] == if k in CssVariables(theme.value) then CssVariables(theme.value)[k] else style[k]
  {
    if theme.Some? then style + CssVariables(theme.value) else style
  }

  /** The component: its ref, state variables, armed timer and the props of its last render. */
  class Component {
    var previousContent: string
    var displayed: string
    var isComplete: bool
    var settleDeadline: Option<int>
    var renderCompletes: nat
    var mounted: bool
    var renderedContent: string
    var renderedStreaming: bool
    const hasCallback: bool

    function State(): View
      reads this
    {
      View(previousContent, displayed, isComplete, settleDeadline, renderCompletes,
           mounted, renderedContent, renderedStreaming)
    }

    constructor (hasCallback: bool)
      ensures State() == Initial() && this.hasCallback == hasCallback
    {
      previousContent, displayed, isComplete := "", "", false;
      settleDeadline, renderCompletes := None, 0;
      mounted, renderedContent, renderedStreaming := false, "", false;
      this.hasCallback := hasCallback;
    }

    /** A render with new props at time `now`, and the effects it triggers. */
    method Update(content: string, streaming: bool, now: int)
      modifies this
      ensures State() == AfterUpdate(old(State()), content, streaming, now, hasCallback)
    {
      if mounted && content == renderedContent && streaming == renderedStreaming {
        return;
      }
      var streamingChanged := !mounted || streaming != renderedStreaming;
      var shown := displayed;
      // the settle effect's cleanup
      settleDeadline := None;
      // the streaming effect
      if streaming && content != previousContent {
        previousContent := content;
        displayed := content;
        isComplete := false;
      } else if !streaming {
        displayed := content;
        isComplete := true;
      }
      // the settle effect, against the value this render showed
      settleDeadline := SettleTimer(content, shown, streaming, now);
      // the non-streaming callback effect
      if streamingChanged && !streaming && hasCallback {
        renderCompletes := renderCompletes + 1;
      }
      // the render caused by the new displayed value re-runs the settle effect
      if displayed != shown {
        settleDeadline := None;
        settleDeadline := SettleTimer(content, displayed, streaming, now);
      }
      mounted, renderedContent, renderedStreaming := true, content, streaming;
    }

    /** The armed settle timer fires at time `now`, once its deadline has come. */
    method QuietElapsed(now: int)
      requires settleDeadline.Some? && settleDeadline.value <= now
      modifies this
      ensures isComplete && settleDeadline.None?
      ensures State() == AfterSettle(old(State()), hasCallback)
    {
      isComplete := true;
      settleDeadline := None;
      if hasCallback {
        renderCompletes := renderCompletes + 1;
      }
    }
  }
}
