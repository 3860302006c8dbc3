/**
 * The content script's `Logger`: four levels, each with an on/off filter, every line
 * prefixed with the extension's tag.
 */
module Logging {
  import opened Wrappers

  datatype Level = Debug | Log | Warn | Error

  /** The `filters` object: one switch per level. */
  datatype Filters = Filters(debug: bool, log: bool, warn: bool, error: bool)

  /** A `Partial<filters>` object: a level that is absent keeps its current switch. */
  datatype PartialFilters = PartialFilters(debug: Option<bool>, log: Option<bool>, warn: Option<bool>, error: Option<bool>)

  /** The initial filters: every level on. */
  const DefaultFilters: Filters := Filters(true, true, true, true)

  const NoOverrides: PartialFilters := PartialFilters(None, None, None, None)

  const Prefix: string := "[BlockNegativeComments]"

  /** The console method a line goes to. */
  datatype Channel = ConsoleLog | ConsoleWarn | ConsoleError

  /**
   * One console call: its method, the tag written before the arguments (the logger always
   * writes `Prefix`; a bare `console` call writes none), and the remaining arguments.
   */
  datatype ConsoleLine<M> = ConsoleLine(channel: Channel, tag: Option<string>, messages: seq<M>)

  /** The logger: only its filters change. */
  datatype Logger = Logger(filters: Filters)

  /** The switch of level `l`. */
  function Enabled(f: Filters, l: Level): bool {
    match l
    case Debug => f.debug
    case Log => f.log
    case Warn => f.warn
    case Error => f.error
  }

  /** The override a partial object gives level `l`, if any. */
  function Override(p: PartialFilters, l: Level): Option<bool> {
    match l
    case Debug => p.debug
    case Log => p.log
    case Warn => p.warn
    case Error => p.error
  }

  /** `{ ...f, ...p }`: each level takes the override when there is one and keeps its switch otherwise. */
  function Merge(f: Filters, p: PartialFilters): (r: Filters)
    ensures forall l :: Enabled(r, l) == Override(p, l).GetOr(Enabled(f, l))
  {
    Filters(p.debug.GetOr(f.debug), p.log.GetOr(f.log), p.warn.GetOr(f.warn), p.error.GetOr(f.error))
  }

  /** Two partial objects spread one after the other: the later one wins per level. */
  function Combine(p: PartialFilters, q: PartialFilters): (r: PartialFilters)
    ensures forall l :: Override(r, l) == (if Override(q, l).Some? then Override(q, l) else Override(p, l))
  {
    PartialFilters(
      if q.debug.Some? then q.debug else p.debug,
      if q.log.Some? then q.log else p.log,
      if q.warn.Some? then q.warn else p.warn,
      if q.error.Some? then q.error else p.error)
  }

  /** The constructor: the defaults overridden by the given filters. */
  function NewLogger(p: PartialFilters): (lg: Logger)
    ensures forall l :: Enabled(lg.filters, l) <==> Override(p, l) != Some(false)
  {
    Logger(Merge(DefaultFilters, p))
  }

  /** `setFilters`. */
  function SetFilters(lg: Logger, p: PartialFilters): (r: Logger)
    ensures forall l :: Override(p, l).Some? ==> Enabled(r.filters, l) == Override(p, l).value
    ensures forall l :: Override(p, l).None? ==> Enabled(r.filters, l) == Enabled(lg.filters, l)
  {
    Logger(Merge(lg.filters, p))
  }

  /** `getFilters`. */
  function GetFilters(lg: Logger): Filters {
    lg.filters
  }

  /** The console method of each level: `debug` and `log` both go to `console.log`. */
  function ChannelFor(l: Level): Channel {
    match l
    case Debug => ConsoleLog
    case Log => ConsoleLog
    case Warn => ConsoleWarn
    case Error => ConsoleError
  }

  /** `debug`, `log`, `warn` and `error`: one prefixed line when the level is on, nothing otherwise. */
  function Emit<M>(lg: Logger, l: Level, messages: seq<M>): (lines: seq<ConsoleLine<M>>)
    ensures |lines| <= 1
    ensures lines != [] <==> Enabled(lg.filters, l)
    ensures lines != [] ==> lines[0].tag == Some(Prefix) && lines[0].messages == messages
    ensures lines != [] ==> (lines[0].channel == ConsoleError <==> l == Error)
    ensures lines != [] ==> (lines[0].channel == ConsoleWarn <==> l == Warn)
  {
    if Enabled(lg.filters, l) then [ConsoleLine(ChannelFor(l), Some(Prefix), messages)] else []
  }

  /** A logger built with no overrides has every level on. */
  lemma DefaultLoggerEmitsEverything<M>(l: Level, messages: seq<M>)
    ensures |Emit(NewLogger(NoOverrides), l, messages)| == 1
  {
  }

  /** Setting no filters changes nothing. */
  lemma SetNoFiltersIsIdentity(lg: Logger)
    ensures SetFilters(lg, NoOverrides) == lg
  {
  }

  /** Setting the same filters twice is the same as setting them once. */
  lemma SetFiltersIdempotent(lg: Logger, p: PartialFilters)
    ensures SetFilters(SetFilters(lg, p), p) == SetFilters(lg, p)
  {
  }

  /** Two calls of `setFilters` act as one call with the two objects spread together. */
  lemma SetFiltersCompose(lg: Logger, p: PartialFilters, q: PartialFilters)
    ensures SetFilters(SetFilters(lg, p), q) == SetFilters(lg, Combine(p, q))
  {
  }

  /** The constructor is `setFilters` applied to the default logger. */
  lemma ConstructorIsSetFilters(p: PartialFilters)
    ensures NewLogger(p) == SetFilters(Logger(DefaultFilters), p)
  {
  }
}
