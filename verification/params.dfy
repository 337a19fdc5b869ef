/** The processor's parameter record and the handler that merges `"params"` messages into it. */
module Params {

  datatype Option<T> = None | Some(value: T)

  /** The user-facing parameters read at the start of every block. */
  datatype Params = Params(
    mode: string,
    amount: real,
    emphasis: real,
    thresholdDb: real,
    attackMs: real,
    releaseMs: real)

  /** The values set by the processor's constructor. */
  const Defaults: Params := Params("bypass", 1.0, 1.0, -35.0, 5.0, 120.0)

  /** The data of a port message: its `type` and whichever parameter fields it carries. */
  datatype Message = Message(
    kind: Option<string>,
    mode: Option<string>,
    amount: Option<real>,
    emphasis: Option<real>,
    thresholdDb: Option<real>,
    attackMs: Option<real>,
    releaseMs: Option<real>)

  /** A field value after an object spread: the carried value wins over the current one. */
  function Override<T>(current: T, carried: Option<T>): T {
    match carried
    case Some(v) => v
    case None => current
  }

  /** Only messages whose data is present and has type `"params"` are merged. */
  predicate IsParamsMessage(data: Option<Message>) {
    data.Some? && data.value.kind == Some("params")
  }

  /** `q` takes every field that `m` carries. */
  predicate TakesCarried(q: Params, m: Message) {
    && (m.mode.Some? ==> q.mode == m.mode.value)
    && (m.amount.Some? ==> q.amount == m.amount.value)
    && (m.emphasis.Some? ==> q.emphasis == m.emphasis.value)
    && (m.thresholdDb.Some? ==> q.thresholdDb == m.thresholdDb.value)
    && (m.attackMs.Some? ==> q.attackMs == m.attackMs.value)
    && (m.releaseMs.Some? ==> q.releaseMs == m.releaseMs.value)
  }

  /** `q` keeps from `p` every field that `m` does not carry. */
  predicate KeepsMissing(q: Params, p: Params, m: Message) {
    && (m.mode.None? ==> q.mode == p.mode)
    && (m.amount.None? ==> q.amount == p.amount)
    && (m.emphasis.None? ==> q.emphasis == p.emphasis)
    && (m.thresholdDb.None? ==> q.thresholdDb == p.thresholdDb)
    && (m.attackMs.None? ==> q.attackMs == p.attackMs)
    && (m.releaseMs.None? ==> q.releaseMs == p.releaseMs)
  }

  /** The message handler's update `params = { ...params, ...data }`, taken only for
      `"params"` messages: carried fields are overridden, all others are kept. */
  function Merge(p: Params, data: Option<Message>): (q: Params)
    ensures !IsParamsMessage(data) ==> q == p
    ensures IsParamsMessage(data) ==> TakesCarried(q, data.value) && KeepsMissing(q, p, data.value)
  {
    if IsParamsMessage(data) then
      var m := data.value;
      Params(
        Override(p.mode, m.mode),
        Override(p.amount, m.amount),
        Override(p.emphasis, m.emphasis),
        Override(p.thresholdDb, m.thresholdDb),
        Override(p.attackMs, m.attackMs),
        Override(p.releaseMs, m.releaseMs))
    else
      p
  }

  /** A field of the spread of two objects: the later one's, if it carries the field. */
  function Latest<T>(first: Option<T>, second: Option<T>): Option<T> {
    if second.Some? then second else first
  }

  /** The spread `{ ...first, ...second }` of two messages. */
  function Combine(first: Message, second: Message): Message {
    Message(
      Latest(first.kind, second.kind),
      Latest(first.mode, second.mode),
      Latest(first.amount, second.amount),
      Latest(first.emphasis, second.emphasis),
      Latest(first.thresholdDb, second.thresholdDb),
      Latest(first.attackMs, second.attackMs),
      Latest(first.releaseMs, second.releaseMs))
  }


  /** Last writer wins: two `"params"` messages in a row have the effect of their spread. */
  lemma MergeTwice(p: Params, m1: Message, m2: Message)
    requires m1.kind == Some("params") && m2.kind == Some("params")
    ensures Merge(Merge(p, Some(m1)), Some(m2)) == Merge(p, Some(Combine(m1, m2)))
  {
  }

  /** Delivering the same message twice changes nothing more than delivering it once. */
  lemma MergeIdempotent(p: Params, data: Option<Message>)
    ensures Merge(Merge(p, data), data) == Merge(p, data)
  {
  }

  /** A message that carries every field, as the page's controls send, fixes every parameter
      whatever the previous values were. */
  lemma FullMessageDeterminesParams(p: Params, p': Params, m: Message)
    requires m.kind == Some("params")
    requires m.mode.Some? && m.amount.Some? && m.emphasis.Some?
    requires m.thresholdDb.Some? && m.attackMs.Some? && m.releaseMs.Some?
    ensures Merge(p, Some(m)) == Merge(p', Some(m))
    ensures Merge(p, Some(m)) == Params(m.mode.value, m.amount.value, m.emphasis.value,
                                        m.thresholdDb.value, m.attackMs.value, m.releaseMs.value)
  {
  }
}
