/**
 * The pull-based iterator objects of a textchomp pipeline: the line source
 * that numbers raw lines, and the stage objects that wrap it or each other
 * and share one context.  Every `Next` pulls exactly once from upstream and
 * yields that same record; its effect on the context and on the range flags
 * is the chain effect of the stages it passes through.
 */
module Pipeline {
  import opened Wrappers
  import opened Scope
  import opened Stages
  import opened Chains
  import opened Runs

  /** Wraps a sequence of raw lines and numbers them from 1 (textchomp's StringIterator). */
  class StringIterator {
    const data: seq<string>
    /** How many lines of `data` have been consumed. */
    var cursor: nat
    var lineno: nat

    /** `lineno` counts the pulls: it equals the lines consumed until the lines run out,
        and every further (exhausting) pull bumps it again. */
    ghost predicate Valid()
      reads this
    {
      cursor <= |data| && (lineno == cursor || (cursor == |data| && lineno > cursor))
    }

    /** The records still to come. */
    ghost function Pending(): seq<Record>
      reads this
      requires Valid()
    {
      Numbered(data[cursor..], cursor + 1)
    }

    constructor (data: seq<string>)
      ensures Valid() && this.data == data && cursor == 0 && lineno == 0
      ensures Pending() == Numbered(data, 1)
    {
      this.data := data;
      cursor, lineno := 0, 0;
      assert data[0..] == data;
    }

    method Next() returns (r: Option<Record>)
      requires Valid()
      modifies this
      ensures Valid() && lineno == old(lineno) + 1
      ensures old(cursor) == |data| ==> r == None && cursor == old(cursor)
      ensures old(cursor) < |data| ==>
                && cursor == old(cursor) + 1
                && r == Some(Record(data[old(cursor)], lineno)) && lineno == cursor
                && r == Some(old(Pending())[0]) && Pending() == old(Pending())[1..]
    {
      lineno := lineno + 1;
      if cursor == |data| {
        r := None;
      } else {
        r := Some(Record(data[cursor], lineno));
        assert data[cursor..][1..] == data[cursor + 1..];
        cursor := cursor + 1;
      }
    }
  }

  /** What a pull yields: a record, exhaustion (StopIteration), or the AttributeError a range
      stage raises when the `range` sub-scope it relies on is gone. */
  datatype Pulled = Item(record: Record) | Exhausted | MissingRange

  /**
   * One iterator stage (textchomp's EveryIterator, PatternIterator,
   * CodeIterator or RangeIterator, told apart by `kind`).  It pulls from
   * `inner`, or from `source` when `inner` is null.
   */
  class Stage<U, M, V> {
    const kind: StageKind<U, M, V>
    const inner: Stage?<U, M, V>
    const source: StringIterator
    const context: Context<U, M, V>
    var inRange: bool
    /** The position of this stage in its chain, the source's own stage being 0. */
    ghost const index: nat
    /** The stage objects below this one in its chain. */
    ghost const Below: set<Stage<U, M, V>>

    /** How the stages of a chain are linked; it holds for good once a stage is built. */
    ghost predicate Valid()
      decreases index
    {
      && this !in Below
      && (inner == null ==> index == 0 && Below == {})
      && (inner != null ==>
            && inner.index + 1 == index && Below == inner.Below + {inner}
            && inner.source == source && inner.context == context
            && inner.Valid())
    }

    /** The in-range flag of every stage of the chain, innermost first. */
    ghost function Flags(): (f: seq<bool>)
      reads this, Below
      requires Valid()
      ensures |f| == index + 1
      decreases index, 1
    {
      BelowFlags() + [inRange]
    }

    /** The kinds of the stages of the chain, innermost first, ending with this one. */
    ghost function Kinds(): (ks: seq<StageKind<U, M, V>>)
      requires Valid()
      ensures |ks| == index + 1
      decreases index, 1
    {
      BelowKinds() + [kind]
    }

    /** The kinds of the stages below this one. */
    ghost function BelowKinds(): (ks: seq<StageKind<U, M, V>>)
      requires Valid()
      ensures |ks| == index
      decreases index, 0
    {
      if inner == null then [] else inner.Kinds()
    }

    /** The in-range flags of the stages below this one. */
    ghost function BelowFlags(): (f: seq<bool>)
      reads Below
      requires Valid()
      ensures |f| == index
      decreases index, 0
    {
      if inner == null then [] else inner.Flags()
    }

    /** A stage reading straight from the line source. */
    constructor Over(source: StringIterator, context: Context<U, M, V>, kind: StageKind<U, M, V>)
      ensures Valid() && Below == {}
      ensures this.source == source && this.context == context && this.kind == kind
      ensures Kinds() == [kind] && Flags() == [false]
    {
      this.kind := kind;
      this.inner := null;
      this.source := source;
      this.context := context;
      this.inRange := false;
      this.index := 0;
      this.Below := {};
    }

    /** A stage reading from another stage of the same chain. */
    constructor Wrap(inner: Stage<U, M, V>, kind: StageKind<U, M, V>)
      requires inner.Valid()
      ensures Valid() && Below == inner.Below + {inner}
      ensures this.inner == inner && source == inner.source && context == inner.context
      ensures Kinds() == inner.Kinds() + [kind] && Flags() == inner.Flags() + [false]
    {
      this.kind := kind;
      this.inner := inner;
      this.source := inner.source;
      this.context := inner.context;
      this.inRange := false;
      this.index := inner.index + 1;
      this.Below := inner.Below + {inner};
    }

    /** EveryIterator: the handler runs on every record. */
    method EveryNext(rec: Record)
      requires kind.Every?
      modifies context
      ensures context.State() == Invoke(index, kind.body, old(context.State()), rec)
    {
      context.Call(index, kind.body, rec);
    }

    /** PatternIterator: on a match the handler runs with `regex` set, which is then deleted. */
    method PatternNext(rec: Record)
      requires kind.Pattern?
      modifies context
      ensures context.State() == PatternEffect(index, kind.body, kind.pattern, old(context.State()), rec)
    {
      var m := kind.pattern(rec);
      if m.Some? {
        context.regex := m;
        context.Call(index, kind.body, rec);
        context.regex := None;
      }
    }

    /** CodeIterator: the gate sees `line`; on a truthy result the handler runs with `eval` set. */
    method CodeNext(rec: Record)
      requires kind.Code?
      modifies context
      ensures context.State() == CodeEffect(index, kind.body, kind.code, old(context.State()), rec)
    {
      context.line := Some(rec);
      var ret := context.Evaluate(index, kind.code);
      context.line := None;
      if ret.Some? {
        context.eval := ret;
        context.Call(index, kind.body, rec);
        context.eval := None;
      }
    }

    /** RangeIterator._engine: the range state machine; false when it raised AttributeError. */
    method RangeNext(rec: Record) returns (ok: bool)
      requires kind.Range?
      modifies this`inRange, context
      ensures var e := RangeEffect(index, kind.body, kind.start, kind.end, old(inRange), old(context.State()), rec);
        inRange == e.inRange && context.State() == e.st && ok == e.ok
    {
      if !inRange {
        var m := kind.start(rec);
        if m.None? {
          return true;
        }
        inRange := true;
        context.range := Some(RangeScope(m.value, 0, false));
      }
      if context.range.None? {
        return false;
      }
      context.range := Some(context.range.value.(lineNumber := context.range.value.lineNumber + 1));
      var e := kind.end(rec);
      if e.Some? {
        context.range := Some(context.range.value.(regex := e.value, isLastLine := true));
      }
      context.Call(index, kind.body, rec);
      if e.None? {
        return true;
      }
      inRange := false;
      context.range := None;
      return true;
    }

    /** What this stage does with the record it pulled. */
    method Step(rec: Record) returns (ok: bool)
      requires Valid()
      modifies this`inRange, context
      ensures BelowFlags() == old(BelowFlags()) && Flags() == BelowFlags() + [inRange]
      ensures var e := StageEffect(index, kind, old(inRange), old(context.State()), rec);
        inRange == e.inRange && context.State() == e.st && ok == e.ok
    {
      match kind
      case Every(_) =>
        EveryNext(rec);
        ok := true;
      case Pattern(_, _) =>
        PatternNext(rec);
        ok := true;
      case Code(_, _) =>
        CodeNext(rec);
        ok := true;
      case Range(_, _, _) =>
        ok := RangeNext(rec);
    }

    /** The pull from upstream: from the line source, or through the stages below. */
    method Pull() returns (pulled: Pulled)
      requires Valid() && source.Valid()
      modifies Below, source, context
      ensures source.Valid()
      ensures inRange == old(inRange) && Flags() == BelowFlags() + [inRange]
      ensures source.lineno == old(source.lineno) + 1
      ensures old(source.cursor) == |source.data| ==>
                && pulled == Exhausted && source.cursor == old(source.cursor)
                && BelowFlags() == old(BelowFlags()) && context.State() == old(context.State())
      ensures old(source.cursor) < |source.data| ==>
                var rec := old(source.Pending())[0];
                var b := ChainEffect(BelowKinds(), old(BelowFlags()), old(context.State()), rec);
                && source.cursor == old(source.cursor) + 1
                && BelowFlags() == b.flags && context.State() == b.st
                && pulled == (if b.ok then Item(rec) else MissingRange)
      decreases index, 1
    {
      if inner == null {
        var line := source.Next();
        pulled := if line.Some? then Item(line.value) else Exhausted;
      } else {
        pulled := inner.Next();
      }
    }

    /** `__next__`: pull once from upstream, act on the record, yield it unchanged. */
    method Next() returns (p: Pulled)
      requires Valid() && source.Valid()
      modifies this, Below, source, context
      ensures source.Valid()
      ensures source.lineno == old(source.lineno) + 1
      ensures old(source.cursor) == |source.data| ==>
                && p == Exhausted && source.cursor == old(source.cursor)
                && Flags() == old(Flags()) && context.State() == old(context.State())
      ensures old(source.cursor) < |source.data| ==>
                var rec := old(source.Pending())[0];
                var o := ChainEffect(Kinds(), old(Flags()), old(context.State()), rec);
                && source.cursor == old(source.cursor) + 1
                && Flags() == o.flags && context.State() == o.st
                && p == (if o.ok then Item(rec) else MissingRange)
      decreases index, 2
    {
      ghost var rec := if source.cursor < |source.data| then source.Pending()[0] else Record([], 0);
      ghost var belowFlags := BelowFlags();
      ghost var st := context.State();
      ghost var b := ChainEffect(BelowKinds(), belowFlags, st, rec);
      var pulled := Pull();
      if pulled.Item? {
        var ok := Act(pulled.record, belowFlags, st, b);
        p := if ok then pulled else MissingRange;
      } else {
        p := pulled;
        if pulled.MissingRange? {
          ChainHalt(BelowKinds(), belowFlags, kind, inRange, st, rec, b);
        }
      }
    }

    /** The second half of `__next__`: this stage acts on a record the stages below passed on. */
    method Act(rec: Record, ghost belowFlags: seq<bool>, ghost st: St<U, M, V>, ghost b: Outcome<U, M, V>)
      returns (ok: bool)
      requires Valid() && |belowFlags| == index
      requires b == ChainEffect(BelowKinds(), belowFlags, st, rec) && b.ok
      requires BelowFlags() == b.flags && context.State() == b.st
      modifies this`inRange, context
      ensures var o := ChainEffect(Kinds(), belowFlags + [old(inRange)], st, rec);
        Flags() == o.flags && context.State() == o.st && ok == o.ok
    {
      ghost var flag := inRange;
      ok := Step(rec);
      ChainGrow(BelowKinds(), belowFlags, kind, flag, st, rec, b);
    }

    /** What draining the chain from now on yields: the run over the pending records. */
    ghost function Remaining(): (r: RunOut<U, M, V>)
      reads this, Below, source, context
      requires Valid() && source.Valid()
    {
      Run(Kinds(), Flags(), context.State(), source.Pending())
    }

    /** One pull seen from the consumer: how it advances the run still to come. */
    method Advance() returns (p: Pulled)
      requires Valid() && source.Valid()
      modifies this, Below, source, context
      ensures source.Valid()
      ensures source.lineno == old(source.lineno) + 1
      ensures p.Item? ==>
                && source.cursor == old(source.cursor) + 1
                && old(Remaining()) == Remaining().(out := [p.record] + Remaining().out)
      ensures p.Exhausted? ==>
                source.cursor == |source.data| && old(Remaining()) == RunOut(Flags(), context.State(), [], true)
      ensures p.MissingRange? ==> old(Remaining()) == RunOut(Flags(), context.State(), [], false)
    {
      ghost var pending := source.Pending();
      if pending != [] {
        RunStep(Kinds(), Flags(), context.State(), pending);
      }
      p := Next();
      if pending != [] {
        NumberedTail(source.data, old(source.cursor));
      }
    }

    /** The terminal consumer (`''.join(t)`, `list(t)` or a program run): pull until the
        source is exhausted or a stage raises, collecting what the chain yields. */
    method Drain() returns (out: seq<Record>, ok: bool)
      requires Valid() && source.Valid()
      modifies this, Below, source, context
      ensures source.Valid()
      ensures var r := old(Remaining());
        && out == r.out && ok == r.ok && Flags() == r.flags && context.State() == r.st
      ensures ok ==> out == old(source.Pending()) && source.cursor == |source.data|
      ensures source.lineno == old(source.lineno) + |out| + 1
    {
      ghost var total := Remaining();
      RunYieldsInput(Kinds(), Flags(), context.State(), source.Pending());
      out, ok := [], true;
      var done := false;
      while !done
        invariant source.Valid()
        invariant source.lineno == old(source.lineno) + |out| + (if done then 1 else 0)
        invariant !done ==> ok && total == Remaining().(out := out + Remaining().out)
        invariant done ==> total == RunOut(Flags(), context.State(), out, ok)
        invariant done && ok ==> source.cursor == |source.data|
        decreases |source.data| - source.cursor, !done
      {
        var p := Advance();
        match p
        case Item(rec) =>
          SeqAssoc(out, [rec], Remaining().out);
          out := out + [rec];
        case Exhausted =>
          done := true;
        case MissingRange =>
          ok, done := false, true;
      }
    }
  }

  /** A pattern stage whose action is the default print, as `t.pattern('match')()` builds it:
      it writes exactly the matching lines, in order, and yields every line, numbered from 1. */
  method PrintMatching<M>(lines: seq<string>, pattern: Matcher<M>) returns (written: seq<string>, yielded: seq<Record>)
    ensures written == Contents(Filter(Numbered(lines, 1), pattern))
    ensures yielded == Numbered(lines, 1)
  {
    var source := new StringIterator(lines);
    var context := new Context<seq<string>, M, ()>([]);
    var stage := new Stage.Over(source, context, Pattern(Print, pattern));
    var ok;
    yielded, ok := stage.Drain();
    PrintFilters<M, ()>(pattern, St(View([], None, None, None, None), []), Numbered(lines, 1));
    written := context.user;
  }

  /** An every stage with the default action over some lines: it writes the input back. */
  method PrintAll(lines: seq<string>) returns (written: seq<string>, yielded: seq<Record>)
    ensures written == lines
    ensures Contents(yielded) == lines
  {
    var source := new StringIterator(lines);
    var context := new Context<seq<string>, (), ()>([]);
    var stage := new Stage.Over(source, context, Every(Print));
    var ok;
    yielded, ok := stage.Drain();
    PrintEchoes<(), ()>(St(View([], None, None, None, None), []), Numbered(lines, 1));
    ContentsOfNumbered(lines, 1);
    written := context.user;
  }
}
