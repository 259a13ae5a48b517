/**
 * Records and the shared evaluation context of a textchomp pipeline.
 *
 * A record is one input line tagged with its 1-based line number.  The
 * context is the one mutable scope every stage and handler shares: an opaque
 * user state (the attributes a program sets itself) plus the transient
 * attributes the stages add and delete around a handler call.
 */
module Scope {
  import opened Wrappers

  /** One input line and its 1-based line number (textchomp's String). */
  datatype Record = Record(content: string, lineNumber: int)

  /** The records a line source yields for `lines` when the first one is numbered `first`. */
  function Numbered(lines: seq<string>, first: int): (r: seq<Record>)
    ensures |r| == |lines|
    decreases |lines|
  {
    if lines == [] then [] else [Record(lines[0], first)] + Numbered(lines[1..], first + 1)
  }

  /** Numbering the lines from some position on: the first record, then the numbering
      from the next position. */
  lemma NumberedTail(lines: seq<string>, i: nat)
    requires i < |lines|
    ensures Numbered(lines[i..], i + 1)[0] == Record(lines[i], i + 1)
    ensures Numbered(lines[i..], i + 1)[1..] == Numbered(lines[i + 1..], i + 2)
  {
    assert lines[i..][1..] == lines[i + 1..];
  }

  /** The text of each record, in order. */
  function Contents(records: seq<Record>): seq<string>
    decreases |records|
  {
    if records == [] then [] else [records[0].content] + Contents(records[1..])
  }

  /** The k-th numbered record carries the k-th line and the number first + k. */
  lemma {:induction false} NumberedAt(lines: seq<string>, first: int, k: nat)
    requires k < |lines|
    ensures Numbered(lines, first)[k] == Record(lines[k], first + k)
  {
    if k > 0 {
      NumberedAt(lines[1..], first + 1, k - 1);
    }
  }

  /** Numbering a sequence of lines keeps their text: the contents round-trip. */
  lemma {:induction false} ContentsOfNumbered(lines: seq<string>, first: int)
    ensures Contents(Numbered(lines, first)) == lines
    decreases |lines|
  {
    if lines != [] {
      ContentsOfNumbered(lines[1..], first + 1);
    }
  }

  /** The "range" sub-context a range stage keeps while a range is open. */
  datatype RangeScope<M> = RangeScope(regex: M, lineNumber: int, isLastLine: bool)

  /** Everything a handler or a gate expression can see of the context. */
  datatype View<U, M, V> = View(
    user: U,
    regex: Option<M>,
    line: Option<Record>,
    eval: Option<V>,
    range: Option<RangeScope<M>>)

  /** What a stage did with the context: called its handler, or evaluated its gate. */
  datatype Event<U, M, V> =
    | Called(stage: nat, record: Record, view: View<U, M, V>)
    | Evaluated(stage: nat, view: View<U, M, V>)

  /** The abstract state of a context: its attributes and the events so far. */
  datatype St<U, M, V> = St(view: View<U, M, V>, log: seq<Event<U, M, V>>)

  /** A handler sees the context and the record and may change the user state only. */
  type Handler<!U, !M, !V> = (View<U, M, V>, Record) -> U

  /** A gate expression; None stands for every falsy result. */
  type Gate<!U, !M, !V> = View<U, M, V> -> Option<V>

  /** The effect of calling `body` at stage `stage` on `rec`: it sees the whole context. */
  function Invoke<U, M, V>(stage: nat, body: Handler<U, M, V>, s: St<U, M, V>, rec: Record): St<U, M, V>
  {
    St(s.view.(user := body(s.view, rec)), s.log + [Called(stage, rec, s.view)])
  }

  /** The handler calls stage `stage` made, in order. */
  function CallsOf<U, M, V>(log: seq<Event<U, M, V>>, stage: nat): seq<Event<U, M, V>>
    decreases |log|
  {
    if log == [] then []
    else
      var e := log[|log| - 1];
      CallsOf(log[..|log| - 1], stage) + (if e.Called? && e.stage == stage then [e] else [])
  }

  /** The records of the handler calls among `calls`, in order. */
  function Records<U, M, V>(calls: seq<Event<U, M, V>>): seq<Record>
    decreases |calls|
  {
    if calls == [] then []
    else
      var e := calls[|calls| - 1];
      Records(calls[..|calls| - 1]) + (if e.Called? then [e.record] else [])
  }

  /** Appending one event adds it to the calls of its own stage only. */
  lemma CallsOfSnoc<U, M, V>(log: seq<Event<U, M, V>>, e: Event<U, M, V>, stage: nat)
    ensures CallsOf(log + [e], stage)
         == CallsOf(log, stage) + (if e.Called? && e.stage == stage then [e] else [])
  {
    assert (log + [e])[..|log|] == log;
  }

  /** The records of calls appended one at a time. */
  lemma RecordsSnoc<U, M, V>(calls: seq<Event<U, M, V>>, e: Event<U, M, V>)
    ensures Records(calls + [e]) == Records(calls) + (if e.Called? then [e.record] else [])
  {
    assert (calls + [e])[..|calls|] == calls;
  }

  /** The context the pipeline stages share. */
  class Context<U, M, V> {
    var user: U
    var regex: Option<M>
    var line: Option<Record>
    var eval: Option<V>
    var range: Option<RangeScope<M>>
    /** Every handler call and gate evaluation so far, with the context each one saw. */
    ghost var log: seq<Event<U, M, V>>

    function Snapshot(): View<U, M, V>
      reads this
    {
      View(user, regex, line, eval, range)
    }

    ghost function State(): St<U, M, V>
      reads this
    {
      St(Snapshot(), log)
    }

    /** A fresh context holds the user state only. */
    constructor (user: U)
      ensures State() == St(View(user, None, None, None, None), [])
    {
      this.user := user;
      regex, line, eval, range := None, None, None, None;
      log := [];
    }

    /** Calls a handler with this context: `body(self.context, line)`. */
    method Call(ghost stage: nat, body: Handler<U, M, V>, rec: Record)
      modifies this
      ensures State() == Invoke(stage, body, old(State()), rec)
    {
      log := log + [Called(stage, rec, Snapshot())];
      user := body(Snapshot(), rec);
    }

    /** Evaluates a gate against the context's current attributes. */
    method Evaluate(ghost stage: nat, code: Gate<U, M, V>) returns (ret: Option<V>)
      modifies this
      ensures ret == code(old(Snapshot()))
      ensures State() == St(old(Snapshot()), old(log) + [Evaluated(stage, old(Snapshot()))])
    {
      log := log + [Evaluated(stage, Snapshot())];
      ret := code(Snapshot());
    }
  }
}
