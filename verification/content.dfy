/**
 * The content script (`BlockNegativeComments` and its `main`): two mutation observers, the
 * first-load grace period, the mosaic applied to each new chat message, the serial queue of
 * analysis requests and the decision taken when each request settles. DOM callbacks, timers,
 * settled requests and storage changes are events; each step returns the new state and what
 * it did.
 */
module Content {
  import opened Wrappers
  import opened Errors
  import opened Text
  import opened Messaging
  import Logging
  import TaskQueue
  import Background
  import Inference

  /** The identity of an element, as the sets and the style writes see it. */
  type Element = nat

  /** The identity of a chat `iframe`. */
  type Frame = nat

  /**
   * What the script has done to an element's inline style: the mosaic appended to the
   * original `cssText`, or the original restored (with the blur transition set).
   */
  datatype Look = Mosaic(original: string) | Restored(original: string)

  /** A queued analysis: the element, its style before the mosaic, and its trimmed message text. */
  datatype CommentTask = CommentTask(element: Element, original: string, comment: string)

  datatype State = State(
    running: bool,
    appObserving: bool,
    chatObserving: bool,
    armed: set<Frame>,
    isFirstLoad: bool,
    pendingTimers: nat,
    processed: set<Element>,
    blocked: set<Element>,
    looks: map<Element, Look>,
    queue: TaskQueue.Queue<CommentTask>,
    threshold: real,
    logger: Logging.Logger)

  /** An added DOM node: an element with its tag name, or any other node. */
  datatype Node = ElementNode(tagName: string) | OtherNode

  datatype Event =
      /** `start()`; `appFound` says whether `ytd-app` is in the document. */
    | Start(appFound: bool)
      /** `stop()`. */
    | Stop
      /** A node added under `ytd-app`, with the `iframe#chatframe` it contains, if any. */
    | PageNodeAdded(node: Node, iframe: Option<Frame>)
      /** An `iframe`'s `load` event, and whether its `contentDocument` is available. */
    | FrameLoaded(frame: Frame, documentAvailable: bool)
      /** A node added in the chat document: its identity, inline style and `#message` text. */
    | ChatNodeAdded(node: Node, element: Element, style: string, messageText: Option<string>)
      /** One of the first-load timers fires. */
    | TimerFired
      /** The running analysis request settles. */
    | TaskSettled(result: Result<AnalyzeSentimentResult, Error>)
      /** The stored confidence threshold changes. */
    | ThresholdChanged(threshold: real)
      /** The stored enabled flag changes. */
    | EnabledChanged(enabled: bool)

  /**
   * The script's fixed console messages, named by what they report; `NoteText` gives the text
   * each is written with. Interpolated element text and results are not modelled.
   */
  datatype Note =
      AppObserved
    | AppMissing
    | Stopped
    | PageManagerLoaded
    | WatchFlexyLoaded
    | ChatFrameLoaded
    | IframeFound
    | IframeMissing
    | FrameDocumentLoaded
    | FrameDocumentObserved
    | FrameDocumentMissing
    | ApplyingMosaic
    | FirstLoadSkipping
    | RendererLoaded
    | FirstLoadOver
    | AnalysisResult
    | Blocking
    | Unblocking
    | ThresholdUpdated
    | Initialised
    | TaskFailed

  function NoteText(n: Note): string {
    match n
    case AppObserved => "Started observing ytd-app element"
    case AppMissing => "Failed to find ytd-app element"
    case Stopped => "Stopped observing YouTube Live Chat"
    case PageManagerLoaded => "Loaded ytd-page-manager element"
    case WatchFlexyLoaded => "Loaded ytd-watch-flexy element"
    case ChatFrameLoaded => "Loaded ytd-live-chat-frame element"
    case IframeFound => "Found iframe#chatframe element"
    case IframeMissing => "Failed to find iframe#chatframe element"
    case FrameDocumentLoaded => "Loaded iframe#chatframe element's contentDocument"
    case FrameDocumentObserved => "Started observing iframe#chatframe element's contentDocument"
    case FrameDocumentMissing => "Failed to load iframe#chatframe element's contentDocument"
    case ApplyingMosaic => "Applying mosaic to comment:"
    case FirstLoadSkipping => "First load detected, skipping mosaic application for initial comments"
    case RendererLoaded => "Loaded yt-live-chat-text-message-renderer element"
    case FirstLoadOver => "Resuming mosaic application after initial load"
    case AnalysisResult => "Sentiment Analysis Result for comment:"
    case Blocking => "Blocking negative comment:"
    case Unblocking => "Unblocking comment:"
    case ThresholdUpdated => "Confidence threshold updated to:"
    case Initialised => "YouTubeコメントモザイク機能が初期化されました"
    case TaskFailed => "Error processing task:"
  }

  /**
   * What a step did: console lines, tasks pushed onto the queue, analysis requests sent to
   * the background script, and whether the page reloads.
   */
  datatype Effects = Effects(
    console: seq<Logging.ConsoleLine<Note>>,
    enqueued: seq<CommentTask>,
    sent: seq<Background.Request>,
    reload: bool)

  const NoEffects: Effects := Effects([], [], [], false)

  const PageManagerTag: string := "ytd-page-manager"
  const WatchFlexyTag: string := "ytd-watch-flexy"
  const LiveChatFrameTag: string := "ytd-live-chat-frame"
  const RendererTag: string := "yt-live-chat-text-message-renderer"

  /** The selectors the two observers react to. */
  datatype Kind = PageManager | WatchFlexy | LiveChatFrame | MessageRenderer | Unrecognised

  /** The `switch` on `element.tagName.toLowerCase()`. */
  function KindOf(tagName: string): (k: Kind)
    ensures k == MessageRenderer <==> ToLower(tagName) == RendererTag
    ensures k == LiveChatFrame <==> ToLower(tagName) == LiveChatFrameTag
  {
    var tag := ToLower(tagName);
    if tag == PageManagerTag then PageManager
    else if tag == WatchFlexyTag then WatchFlexy
    else if tag == LiveChatFrameTag then LiveChatFrame
    else if tag == RendererTag then MessageRenderer
    else Unrecognised
  }

  /** The step left the comment bookkeeping (processed, looks, blocked, queue) as it was. */
  predicate Untouched(s: State, s1: State) {
    s1.processed == s.processed && s1.looks == s.looks && s1.blocked == s.blocked && s1.queue == s.queue
  }

  /** Console output of the script's logger at one level. */
  function Say(s: State, l: Logging.Level, message: Note): Effects {
    Effects(Logging.Emit(s.logger, l, [message]), [], [], false)
  }

  function Then(a: Effects, b: Effects): Effects {
    Effects(a.console + b.console, a.enqueued + b.enqueued, a.sent + b.sent, a.reload || b.reload)
  }

  /**
   * The request a started task sends: the comment only, since `applyMosaic` passes no model
   * to `sendMessage`.
   */
  function Sent(started: Option<CommentTask>): (r: seq<Background.Request>)
    ensures |r| <= 1
    ensures r != [] ==> r[0].model.None?
    ensures |r| == (if started.Some? then 1 else 0)
    ensures forall i :: 0 <= i < |r| ==> r[i].comment == started.value.comment
  {
    if started.Some? then [Background.Request(started.value.comment, None)] else []
  }

  /**
   * Requests go out in queue order: of the tasks `w` waiting before a step (or a run) plus
   * those it pushed, `sent` asks about the first `|sent|`, each with its comment and no
   * model, and the rest `w1` are still waiting afterwards.
   */
  predicate Dispatches(w: seq<CommentTask>, sent: seq<Background.Request>, w1: seq<CommentTask>) {
    && |sent| <= |w|
    && w[|sent|..] == w1
    && forall i :: 0 <= i < |sent| ==> sent[i] == Background.Request(w[i].comment, None)
  }

  /** The decision taken when a request settles: block iff a negative answer beats the threshold. */
  predicate Keep(r: AnalyzeSentimentResult, threshold: real) {
    r.Generated? && r.sentiment == Negative && r.confidence > threshold
  }

  /** `start()`: observe `ytd-app` if it exists; do nothing when already running. */
  function StartStep(s: State, appFound: bool): (r: (State, Effects))
    ensures s.running ==> r == (s, NoEffects)
    ensures !s.running ==> r.0.running == appFound && r.0.appObserving == (appFound || s.appObserving)
    ensures r.1.enqueued == [] && r.1.sent == []
    ensures Untouched(s, r.0)
    ensures s.running == s.appObserving ==> r.0.running == r.0.appObserving
  {
    if s.running then (s, NoEffects)
    else if appFound then
      (s.(appObserving := true, running := true), Say(s, Logging.Debug, AppObserved))
    else
      (s, Say(s, Logging.Error, AppMissing))
  }

  /** `stop()`: disconnect both observers when running; queued work and iframe handlers stay. */
  function StopStep(s: State): (r: (State, Effects))
    ensures !r.0.running && !(s.running && r.0.chatObserving)
    ensures r.0.queue == s.queue && r.0.looks == s.looks && r.0.armed == s.armed
    ensures r.1.enqueued == [] && r.1.sent == []
    ensures Untouched(s, r.0)
    ensures s.running == s.appObserving ==> r.0.running == r.0.appObserving
  {
    if s.running then
      (s.(appObserving := false, chatObserving := false, running := false),
       Say(s, Logging.Log, Stopped))
    else (s, NoEffects)
  }

  /** The `ytd-app` observer's callback for one added node. */
  function PageNodeStep(s: State, node: Node, iframe: Option<Frame>): (r: (State, Effects))
    ensures r.0 == s || (iframe.Some? && r.0 == s.(armed := s.armed + {iframe.value}))
    ensures s.appObserving && node.ElementNode? && KindOf(node.tagName) == LiveChatFrame && iframe.Some? ==>
      r.0.armed == s.armed + {iframe.value}
    ensures r.0.armed == s.armed || (s.appObserving && node.ElementNode? && KindOf(node.tagName) == LiveChatFrame)
    ensures r.1.enqueued == [] && r.1.sent == []
    ensures Untouched(s, r.0)
    ensures r.0.running == s.running && r.0.appObserving == s.appObserving
  {
    if !s.appObserving || node.OtherNode? then (s, NoEffects)
    else
      var kind := KindOf(node.tagName);
      if kind == PageManager then (s, Say(s, Logging.Debug, PageManagerLoaded))
      else if kind == WatchFlexy then (s, Say(s, Logging.Debug, WatchFlexyLoaded))
      else if kind == LiveChatFrame then
        var loaded := Say(s, Logging.Debug, ChatFrameLoaded);
        match iframe
        case Some(f) =>
          (s.(armed := s.armed + {f}), Then(loaded, Say(s, Logging.Debug, IframeFound)))
        case None =>
          (s, Then(loaded, Say(s, Logging.Warn, IframeMissing)))
      else (s, NoEffects)
  }

  /** An armed `iframe`'s `onload` handler: observe its document, or warn when there is none. */
  function FrameLoadedStep(s: State, f: Frame, documentAvailable: bool): (r: (State, Effects))
    ensures r.0.chatObserving == (s.chatObserving || (f in s.armed && documentAvailable))
    ensures r.1.enqueued == [] && r.1.sent == []
    ensures Untouched(s, r.0)
    ensures r.0.running == s.running && r.0.appObserving == s.appObserving
  {
    if f !in s.armed then (s, NoEffects)
    else if documentAvailable then
      (s.(chatObserving := true),
       Then(Say(s, Logging.Debug, FrameDocumentLoaded),
            Say(s, Logging.Debug, FrameDocumentObserved)))
    else (s, Say(s, Logging.Warn, FrameDocumentMissing))
  }

  /**
   * `applyMosaic`: skips an element already processed; otherwise records the mosaic over the
   * original style and pushes the analysis of the trimmed message text.
   */
  function ApplyMosaic(s: State, e: Element, style: string, messageText: Option<string>): (r: (State, Effects))
    ensures e in s.processed ==> r == (s, NoEffects)
    ensures e !in s.processed ==> TaskQueue.Valid(r.0.queue)
    ensures e !in s.processed ==>
      && r.0.looks == s.looks[e := Mosaic(style)]
      && r.1.enqueued == [CommentTask(e, style, Trim(messageText.GetOr("")))]
      && TaskQueue.Pending(r.0.queue) == TaskQueue.Pending(s.queue) + r.1.enqueued
    ensures r.0.processed == s.processed && r.0.blocked == s.blocked
    ensures r.0.running == s.running && r.0.appObserving == s.appObserving
    ensures forall i :: 0 <= i < |r.1.sent| ==> r.1.sent[i].model.None?
    ensures e !in s.processed ==> (|r.1.sent| == 1 <==> !TaskQueue.IsRunning(s.queue))
    ensures e !in s.processed && TaskQueue.Valid(s.queue) && !TaskQueue.IsRunning(s.queue) ==>
      r.1.sent == [Background.Request(Trim(messageText.GetOr("")), None)]
    ensures Dispatches(s.queue.waiting + r.1.enqueued, r.1.sent, r.0.queue.waiting)
  {
    if e in s.processed then (s, NoEffects)
    else
      var task := CommentTask(e, style, Trim(messageText.GetOr("")));
      var (q, started) := TaskQueue.Push(s.queue, task);
      (s.(looks := s.looks[e := Mosaic(style)], queue := q),
       Then(Effects([], [task], Sent(started), false), Say(s, Logging.Debug, ApplyingMosaic)))
  }

  /** The chat observer's callback for one added node. */
  function ChatNodeStep(s: State, node: Node, e: Element, style: string, messageText: Option<string>)
    : (r: (State, Effects))
    ensures s.processed <= r.0.processed
    ensures r.1.enqueued == [] || (r.1.enqueued == [CommentTask(e, style, Trim(messageText.GetOr("")))] && e !in s.processed && e in r.0.processed)
    ensures forall i :: 0 <= i < |r.1.sent| ==> r.1.sent[i].model.None?
    ensures Dispatches(s.queue.waiting + r.1.enqueued, r.1.sent, r.0.queue.waiting)
  {
    if !s.chatObserving || node.OtherNode? || KindOf(node.tagName) != MessageRenderer then (s, NoEffects)
    else if s.isFirstLoad then
      (s.(pendingTimers := s.pendingTimers + 1),
       Say(s, Logging.Debug, FirstLoadSkipping))
    else
      var loaded := Say(s, Logging.Debug, RendererLoaded);
      var (s1, applied) := ApplyMosaic(s, e, style, messageText);
      (s1.(processed := s1.processed + {e}), Then(loaded, applied))
  }

  /** A first-load timer fires: the grace period ends. */
  function TimerStep(s: State): (r: (State, Effects))
    ensures s.pendingTimers > 0 ==> !r.0.isFirstLoad && r.0.pendingTimers == s.pendingTimers - 1
    ensures s.pendingTimers == 0 ==> r == (s, NoEffects)
    ensures r.1.enqueued == [] && r.1.sent == []
    ensures Untouched(s, r.0)
    ensures r.0.running == s.running && r.0.appObserving == s.appObserving
  {
    if s.pendingTimers == 0 then (s, NoEffects)
    else
      (s.(isFirstLoad := false, pendingTimers := s.pendingTimers - 1),
       Say(s, Logging.Debug, FirstLoadOver))
  }

  /** What the task's callback does to the element `t` once its request settles. */
  function Decide(s: State, t: CommentTask, result: Result<AnalyzeSentimentResult, Error>): (s1: State)
    ensures s1.processed == s.processed && s1.queue == s.queue
    ensures result.Err? ==> s1 == s
    ensures result.Ok? && Keep(result.value, s.threshold) ==> s1 == s.(blocked := s.blocked + {t.element})
    ensures result.Ok? && !Keep(result.value, s.threshold) ==> s1 == s.(looks := s.looks[t.element := Restored(t.original)])
  {
    match result
    case Err(_) => s
    case Ok(res) =>
      if Keep(res, s.threshold) then s.(blocked := s.blocked + {t.element})
      else s.(looks := s.looks[t.element := Restored(t.original)])
  }

  /** The console output of a settled request: the callback's debug lines, or the queue's own error line. */
  function SettleReport(s: State, result: Result<AnalyzeSentimentResult, Error>): Effects {
    match result
    case Err(_) => Effects([Logging.ConsoleLine(Logging.ConsoleError, None, [TaskFailed])], [], [], false)
    case Ok(res) =>
      Then(Say(s, Logging.Debug, AnalysisResult),
           if Keep(res, s.threshold) then Say(s, Logging.Debug, Blocking)
           else Say(s, Logging.Debug, Unblocking))
  }

  /**
   * The running task settles: a result is decided against the current threshold; a rejection
   * is logged by the queue itself. Then the next task starts.
   */
  function SettleStep(s: State, result: Result<AnalyzeSentimentResult, Error>): (r: (State, Effects))
    ensures !TaskQueue.IsRunning(s.queue) ==> r == (s, NoEffects)
    ensures r.1.enqueued == []
    ensures forall k :: 0 <= k < |r.1.sent| ==> r.1.sent[k].model.None?
    ensures TaskQueue.IsRunning(s.queue) ==>
      TaskQueue.Valid(r.0.queue) && TaskQueue.Pending(r.0.queue) == TaskQueue.Pending(s.queue)[1..]
    ensures TaskQueue.IsRunning(s.queue) ==> (|r.1.sent| == 1 <==> s.queue.waiting != [])
    ensures Dispatches(s.queue.waiting + r.1.enqueued, r.1.sent, r.0.queue.waiting)
  {
    if !TaskQueue.IsRunning(s.queue) then (s, NoEffects)
    else
      var (q, started) := TaskQueue.Finish(s.queue);
      (Decide(s, s.queue.current.value, result).(queue := q),
       Then(SettleReport(s, result), Effects([], [], Sent(started), false)))
  }

  /** The threshold watcher. */
  function ThresholdStep(s: State, threshold: real): (r: (State, Effects))
    ensures r.0 == s.(threshold := threshold)
    ensures r.1.enqueued == [] && r.1.sent == []
    ensures Untouched(s, r.0)
    ensures r.0.running == s.running && r.0.appObserving == s.appObserving
  {
    (s.(threshold := threshold), Say(s, Logging.Debug, ThresholdUpdated))
  }

  /** The enabled watcher: enabling reloads the page, disabling stops. */
  function EnabledStep(s: State, enabled: bool): (r: (State, Effects))
    ensures enabled ==> r == (s, NoEffects.(reload := true))
    ensures !enabled ==> r == StopStep(s)
    ensures r.1.enqueued == [] && r.1.sent == []
    ensures Untouched(s, r.0)
    ensures s.running == s.appObserving ==> r.0.running == r.0.appObserving
  {
    if enabled then (s, NoEffects.(reload := true)) else StopStep(s)
  }

  /** One event. */
  function Step(s: State, ev: Event): (r: (State, Effects))
    ensures ev.ChatNodeAdded? ==> s.processed <= r.0.processed
    ensures r.1.enqueued == [] || (ev.ChatNodeAdded? && |r.1.enqueued| == 1
      && r.1.enqueued[0].element == ev.element && ev.element !in s.processed && ev.element in r.0.processed)
    ensures forall i :: 0 <= i < |r.1.sent| ==> r.1.sent[i].model.None?
    ensures r.1.reload ==> ev == EnabledChanged(true)
    ensures Dispatches(s.queue.waiting + r.1.enqueued, r.1.sent, r.0.queue.waiting)
  {
    match ev
    case Start(appFound) => StartStep(s, appFound)
    case Stop => StopStep(s)
    case PageNodeAdded(node, iframe) => PageNodeStep(s, node, iframe)
    case FrameLoaded(f, available) => FrameLoadedStep(s, f, available)
    case ChatNodeAdded(node, e, style, text) => ChatNodeStep(s, node, e, style, text)
    case TimerFired => TimerStep(s)
    case TaskSettled(result) => SettleStep(s, result)
    case ThresholdChanged(t) => ThresholdStep(s, t)
    case EnabledChanged(enabled) => EnabledStep(s, enabled)
  }

  const AllLevels: Logging.PartialFilters :=
    Logging.PartialFilters(Some(true), Some(true), Some(true), Some(true))

  /** The state the constructor leaves: nothing observed, first load pending, queue empty. */
  function Initial(threshold: real): State {
    State(false, false, false, {}, true, 0, {}, {}, map[], TaskQueue.Empty(), threshold,
          Logging.NewLogger(AllLevels))
  }

  /** `main`: build the manager with the stored threshold and start it when enabled. */
  function Main(threshold: real, enabled: bool, appFound: bool): (r: (State, Effects))
    ensures r.0.running <==> enabled && appFound
    ensures r.0.threshold == threshold && r.0.isFirstLoad && r.0.queue == TaskQueue.Empty()
  {
    var s := Initial(threshold);
    var (s1, started) := if enabled then StartStep(s, appFound) else (s, NoEffects);
    (s1, Then(started, Say(s1, Logging.Log, Initialised)))
  }

  /** Every pending task's element is processed, still shows the mosaic and is not blocked. */
  predicate PendingBlurred(s: State) {
    var p := TaskQueue.Pending(s.queue);
    forall i :: 0 <= i < |p| ==>
      p[i].element in s.processed && p[i].element in s.looks
      && s.looks[p[i].element] == Mosaic(p[i].original) && p[i].element !in s.blocked
  }

  /** No element has two pending tasks. */
  predicate PendingDistinct(q: TaskQueue.Queue<CommentTask>) {
    var p := TaskQueue.Pending(q);
    forall i, j :: 0 <= i < j < |p| ==> p[i].element != p[j].element
  }

  /** The bookkeeping the script keeps consistent between events. */
  predicate Inv(s: State) {
    && s.running == s.appObserving
    && s.looks.Keys == s.processed
    && s.blocked <= s.processed
    && TaskQueue.Valid(s.queue)
    && PendingBlurred(s)
    && PendingDistinct(s.queue)
  }

  /** `main` starts from a consistent state. */
  lemma MainInv(threshold: real, enabled: bool, appFound: bool)
    ensures Inv(Main(threshold, enabled, appFound).0)
  {
  }

  /**
   * Appending a task for a new element that now shows the mosaic, and marking the element
   * processed, keeps the bookkeeping consistent.
   */
  lemma AddPendingInv(s: State, s1: State, t: CommentTask)
    requires Inv(s) && t.element !in s.processed
    requires s1.looks == s.looks[t.element := Mosaic(t.original)]
    requires s1.processed == s.processed + {t.element} && s1.blocked == s.blocked
    requires s1.running == s.running && s1.appObserving == s.appObserving
    requires TaskQueue.Valid(s1.queue)
    requires TaskQueue.Pending(s1.queue) == TaskQueue.Pending(s.queue) + [t]
    ensures Inv(s1)
  {
    var p := TaskQueue.Pending(s.queue);
    var p1 := TaskQueue.Pending(s1.queue);
    assert forall i :: 0 <= i < |p| ==> p[i].element != t.element;
    assert PendingBlurred(s1) by {
      forall i | 0 <= i < |p1|
        ensures p1[i].element in s1.processed && p1[i].element in s1.looks
          && s1.looks[p1[i].element] == Mosaic(p1[i].original) && p1[i].element !in s1.blocked
      {
        if i < |p| {
          assert p1[i] == p[i];
        }
      }
    }
    assert PendingDistinct(s1.queue) by {
      forall i, j | 0 <= i < j < |p1|
        ensures p1[i].element != p1[j].element
      {
        if j < |p| {
          assert p1[i] == p[i] && p1[j] == p[j];
        } else {
          assert p1[i] == p[i];
        }
      }
    }
  }

  /** The chat observer queues only unprocessed elements and marks them processed. */
  lemma ChatNodeInv(s: State, node: Node, e: Element, style: string, messageText: Option<string>)
    requires Inv(s)
    ensures Inv(ChatNodeStep(s, node, e, style, messageText).0)
  {
    if s.chatObserving && node.ElementNode? && KindOf(node.tagName) == MessageRenderer && !s.isFirstLoad && e !in s.processed {
      var s1 := ApplyMosaic(s, e, style, messageText).0;
      var t := CommentTask(e, style, Trim(messageText.GetOr("")));
      ChatNodeMarks(s, node, e, style, messageText);
      AddPendingInv(s, s1.(processed := s1.processed + {e}), t);
    }
  }

  /** A message renderer seen after the grace period is mosaicked and then marked processed. */
  lemma ChatNodeMarks(s: State, node: Node, e: Element, style: string, messageText: Option<string>)
    requires s.chatObserving && node.ElementNode? && KindOf(node.tagName) == MessageRenderer && !s.isFirstLoad
    ensures var s1 := ApplyMosaic(s, e, style, messageText).0;
      ChatNodeStep(s, node, e, style, messageText).0 == s1.(processed := s1.processed + {e})
  {
  }

  /** Settling removes exactly the running task from the pending ones, and the rest stay distinct from it. */
  lemma FinishPending(s: State)
    requires Inv(s) && TaskQueue.IsRunning(s.queue)
    ensures var t := s.queue.current.value;
      var p := TaskQueue.Pending(s.queue);
      var p1 := TaskQueue.Pending(TaskQueue.Finish(s.queue).0);
      && p == [t] + p1
      && t.element in s.looks && s.looks[t.element] == Mosaic(t.original) && t.element !in s.blocked
      && (forall i :: 0 <= i < |p1| ==> p1[i] == p[i + 1] && p1[i].element != t.element)
      && PendingDistinct(TaskQueue.Finish(s.queue).0)
  {
    var t := s.queue.current.value;
    var p := TaskQueue.Pending(s.queue);
    var p1 := TaskQueue.Pending(TaskQueue.Finish(s.queue).0);
    assert p == [t] + p1;
    assert p[0] == t;
    assert forall i :: 0 <= i < |p1| ==> p1[i] == p[i + 1];
  }

  /**
   * Dropping the finished task from the pending ones, and changing nothing but that task's
   * element's look and blocked mark, keeps the bookkeeping consistent.
   */
  lemma RemovePendingInv(s: State, s1: State, t: CommentTask, l: Look)
    requires Inv(s) && t.element in s.looks && t.element in s.processed
    requires s1.looks == s.looks || s1.looks == s.looks[t.element := l]
    requires s1.blocked == s.blocked || s1.blocked == s.blocked + {t.element}
    requires s1.processed == s.processed
    requires s1.running == s.running && s1.appObserving == s.appObserving
    requires TaskQueue.Valid(s1.queue) && PendingDistinct(s1.queue)
    requires var p1 := TaskQueue.Pending(s1.queue); var p := TaskQueue.Pending(s.queue);
      |p| == |p1| + 1 && forall i :: 0 <= i < |p1| ==> p1[i] == p[i + 1] && p1[i].element != t.element
    ensures Inv(s1)
  {
    var p1 := TaskQueue.Pending(s1.queue);
    var p := TaskQueue.Pending(s.queue);
    forall i | 0 <= i < |p1|
      ensures p1[i].element in s1.processed && p1[i].element in s1.looks
        && s1.looks[p1[i].element] == Mosaic(p1[i].original) && p1[i].element !in s1.blocked
    {
      assert p1[i] == p[i + 1];
    }
  }

  /** Settling the running task decides its element and keeps the rest of the bookkeeping. */
  lemma SettleInv(s: State, result: Result<AnalyzeSentimentResult, Error>)
    requires Inv(s)
    ensures Inv(SettleStep(s, result).0) && SettleStep(s, result).0.processed == s.processed
    ensures TaskQueue.IsRunning(s.queue) ==>
      TaskQueue.Pending(SettleStep(s, result).0.queue) == TaskQueue.Pending(s.queue)[1..]
  {
    if TaskQueue.IsRunning(s.queue) {
      var t := s.queue.current.value;
      FinishPending(s);
      var q := TaskQueue.Finish(s.queue).0;
      var s1 := SettleStep(s, result).0;
      assert s1 == Decide(s, t, result).(queue := q);
      RemovePendingInv(s, s1, t, Restored(t.original));
    }
  }

  /** A step that leaves the comment bookkeeping alone keeps it consistent. */
  lemma UntouchedInv(s: State, s1: State)
    requires Inv(s) && Untouched(s, s1) && s1.running == s1.appObserving
    ensures Inv(s1)
  {
  }

  /** Every event keeps the bookkeeping consistent and never forgets a processed element. */
  lemma StepInv(s: State, ev: Event)
    requires Inv(s)
    ensures Inv(Step(s, ev).0) && s.processed <= Step(s, ev).0.processed
  {
    match ev
    case ChatNodeAdded(node, e, style, text) => ChatNodeInv(s, node, e, style, text);
    case TaskSettled(result) => SettleInv(s, result);
    case _ => UntouchedInv(s, Step(s, ev).0);
  }

  /** A run of events: the final state, every task queued and every request sent, in order. */
  function RunAll(s: State, events: seq<Event>): (State, seq<CommentTask>, seq<Background.Request>)
    decreases |events|
  {
    if |events| == 0 then (s, [], [])
    else
      var (s1, fx) := Step(s, events[0]);
      var (last, rest, sentRest) := RunAll(s1, events[1..]);
      (last, fx.enqueued + rest, fx.sent + sentRest)
  }

  /**
   * Over any run, each comment element is queued for analysis at most once, and only if it had
   * not been processed before; the bookkeeping stays consistent throughout.
   */
  lemma {:induction false} EachElementQueuedOnce(s: State, events: seq<Event>)
    requires Inv(s)
    ensures var (last, queued, _) := RunAll(s, events);
      && Inv(last)
      && s.processed <= last.processed
      && (forall i :: 0 <= i < |queued| ==> queued[i].element !in s.processed && queued[i].element in last.processed)
      && (forall i, j :: 0 <= i < j < |queued| ==> queued[i].element != queued[j].element)
    decreases |events|
  {
    if |events| > 0 {
      var (s1, fx) := Step(s, events[0]);
      StepInv(s, events[0]);
      EachElementQueuedOnce(s1, events[1..]);
      var (last, rest, sentRest) := RunAll(s1, events[1..]);
      assert RunAll(s, events) == (last, fx.enqueued + rest, fx.sent + sentRest);
      QueuedOnce(s.processed, s1.processed, last.processed, fx.enqueued, rest);
    }
  }

  /**
   * Over any run, the requests sent are about the waiting and newly queued tasks in queue
   * order, one request per started task carrying its comment, and the tasks not yet started
   * are what is still waiting at the end.
   */
  lemma {:induction false} RequestsFollowQueue(s: State, events: seq<Event>)
    ensures var (last, queued, sent) := RunAll(s, events);
      Dispatches(s.queue.waiting + queued, sent, last.queue.waiting)
    decreases |events|
  {
    if |events| == 0 {
      assert (s.queue.waiting + [])[0..] == s.queue.waiting;
    } else {
      var (s1, fx) := Step(s, events[0]);
      RequestsFollowQueue(s1, events[1..]);
      var (last, rest, sentRest) := RunAll(s1, events[1..]);
      assert RunAll(s, events) == (last, fx.enqueued + rest, fx.sent + sentRest);
      DispatchesCompose(s.queue.waiting, fx.enqueued, fx.sent, s1.queue.waiting, rest, sentRest, last.queue.waiting);
    }
  }

  /** A step's dispatch followed by a run's dispatch is the dispatch of the whole. */
  lemma DispatchesCompose(a: seq<CommentTask>, b: seq<CommentTask>, x: seq<Background.Request>,
                          c: seq<CommentTask>, d: seq<CommentTask>, y: seq<Background.Request>,
                          e: seq<CommentTask>)
    requires Dispatches(a + b, x, c) && Dispatches(c + d, y, e)
    ensures Dispatches(a + (b + d), x + y, e)
  {
    var w := a + (b + d);
    assert w == (a + b) + d;
    assert w[|x|..] == c + d;
    assert w[|x| + |y|..] == (c + d)[|y|..];
    forall i | 0 <= i < |x + y|
      ensures (x + y)[i] == Background.Request(w[i].comment, None)
    {
      if i < |x| {
        assert w[i] == (a + b)[i];
      } else {
        assert w[i] == (c + d)[i - |x|];
      }
    }
  }

  /**
   * From `main`, the queue starts empty, so the requests sent are, in order, the comments
   * of the first tasks queued: each queued task's request goes out once and in push order.
   */
  lemma RequestsFromMainInPushOrder(threshold: real, enabled: bool, appFound: bool, events: seq<Event>)
    ensures var (last, queued, sent) := RunAll(Main(threshold, enabled, appFound).0, events);
      && |sent| <= |queued|
      && queued[|sent|..] == last.queue.waiting
      && forall i :: 0 <= i < |sent| ==> sent[i] == Background.Request(queued[i].comment, None)
  {
    var s := Main(threshold, enabled, appFound).0;
    RequestsFollowQueue(s, events);
    assert s.queue.waiting == [];
    var (last, queued, sent) := RunAll(s, events);
    assert s.queue.waiting + queued == queued;
  }

  /**
   * One step's queued tasks (at most one, for an element it newly processed) followed by a
   * run's distinct tasks for elements that run newly processed are all distinct and new.
   */
  lemma QueuedOnce(before: set<Element>, mid: set<Element>, after: set<Element>,
                   first: seq<CommentTask>, rest: seq<CommentTask>)
    requires |first| <= 1 && mid <= after
    requires forall i :: 0 <= i < |first| ==> first[i].element !in before && first[i].element in mid
    requires forall i :: 0 <= i < |rest| ==> rest[i].element !in mid && rest[i].element in after
    requires forall i, j :: 0 <= i < j < |rest| ==> rest[i].element != rest[j].element
    requires before <= mid
    ensures var queued := first + rest;
      && (forall i :: 0 <= i < |queued| ==> queued[i].element !in before && queued[i].element in after)
      && (forall i, j :: 0 <= i < j < |queued| ==> queued[i].element != queued[j].element)
  {
    var queued := first + rest;
    forall i, j | 0 <= i < j < |queued|
      ensures queued[i].element != queued[j].element
    {
      if j >= |first| {
        assert queued[j] == rest[j - |first|];
        if i < |first| {
          assert queued[i] == first[i];
        } else {
          assert queued[i] == rest[i - |first|];
        }
      }
    }
    forall i | 0 <= i < |queued|
      ensures queued[i].element !in before && queued[i].element in after
    {
      if i >= |first| {
        assert queued[i] == rest[i - |first|];
      } else {
        assert queued[i] == first[i];
      }
    }
  }

  /**
   * When the running task settles with an answer, its element is blocked iff the answer is
   * negative with a confidence above the current threshold; otherwise its style is restored.
   */
  lemma SettleDecides(s: State, res: AnalyzeSentimentResult)
    requires Inv(s) && TaskQueue.IsRunning(s.queue)
    ensures var t := s.queue.current.value;
      var s1 := SettleStep(s, Ok(res)).0;
      && (t.element in s1.blocked <==> Keep(res, s.threshold))
      && t.element in s1.looks
      && s1.looks[t.element] == (if Keep(res, s.threshold) then Mosaic(t.original) else Restored(t.original))
  {
    var t := s.queue.current.value;
    assert TaskQueue.Pending(s.queue)[0] == t;
  }

  /** A rejected request changes no element: the comment stays behind the mosaic. */
  lemma SettleErrorKeepsMosaic(s: State, err: Error)
    requires Inv(s) && TaskQueue.IsRunning(s.queue)
    ensures var t := s.queue.current.value;
      var s1 := SettleStep(s, Err(err)).0;
      && s1.looks == s.looks && s1.blocked == s.blocked
      && t.element in s1.looks && s1.looks[t.element] == Mosaic(t.original)
  {
    assert TaskQueue.Pending(s.queue)[0] == s.queue.current.value;
  }

  /** Classifier answers carry a score, not a confidence, so they never block a comment. */
  lemma ClassifierNeverBlocks(modelName: string, sentiment: Label, score: real, threshold: real)
    ensures !Keep(Classified(modelName, sentiment, score), threshold)
  {
  }

  /**
   * Every request the script sends lacks a model, so the background script's handler throws
   * before choosing a pipeline, whatever it has cached.
   */
  lemma SentRequestsFail(s: State, ev: Event, generator: Option<Inference.Pipeline>, loadResolves: bool,
                          backend: Inference.Backend)
    ensures forall r :: r in Step(s, ev).1.sent ==>
      Background.AnalyzeSentiment(generator, r, loadResolves, backend) == Background.Reply(generator, Err(TypeError))
  {
  }

  /** During the grace period a new chat message is neither mosaicked nor queued; a timer is set. */
  lemma FirstLoadSkips(s: State, tagName: string, e: Element, style: string, messageText: Option<string>)
    requires s.chatObserving && s.isFirstLoad && KindOf(tagName) == MessageRenderer
    ensures var (s1, fx) := Step(s, ChatNodeAdded(ElementNode(tagName), e, style, messageText));
      && s1 == s.(pendingTimers := s.pendingTimers + 1)
      && fx.enqueued == [] && fx.sent == []
  {
  }

  /** A renderer added twice is queued once: the second time is ignored. */
  lemma ProcessedElementIgnored(s: State, node: Node, e: Element, style: string, messageText: Option<string>)
    requires Inv(s) && e in s.processed && !s.isFirstLoad
    ensures Step(s, ChatNodeAdded(node, e, style, messageText)).0 == s
    ensures Step(s, ChatNodeAdded(node, e, style, messageText)).1.enqueued == []
  {
  }

  /** Stopping twice is stopping once. */
  lemma StopIdempotent(s: State)
    ensures StopStep(StopStep(s).0) == (StopStep(s).0, NoEffects)
  {
  }

  /**
   * `stop()` leaves the `onload` handlers in place: a chat frame that loads again afterwards
   * re-attaches the chat observer although the script is stopped.
   */
  lemma StopThenFrameLoadObserves(s: State, f: Frame)
    requires f in s.armed
    ensures var stopped := StopStep(s).0;
      var s1 := FrameLoadedStep(stopped, f, true).0;
      !s1.running && s1.chatObserving
  {
  }

  /** Stopping does not cancel queued analyses: the running one still settles and is decided. */
  lemma StopKeepsQueue(s: State, res: AnalyzeSentimentResult)
    requires Inv(s) && TaskQueue.IsRunning(s.queue)
    ensures var stopped := StopStep(s).0;
      && stopped.queue == s.queue
      && (s.queue.current.value.element in SettleStep(stopped, Ok(res)).0.blocked <==> Keep(res, s.threshold))
  {
    SettleDecides(StopStep(s).0, res);
  }
}
