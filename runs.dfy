/**
 * A whole run of a chain: pulling the last stage until the line source is
 * exhausted (what `''.join(t)`, `list(t)` or a program run does), and what the
 * stages promise over all of the input.
 */
module Runs {
  import opened Wrappers
  import opened Scope
  import opened Stages
  import opened Chains

  /** The final flags and context state, the records the chain yielded, and false when it raised. */
  datatype RunOut<U, M, V> = RunOut(flags: seq<bool>, st: St<U, M, V>, out: seq<Record>, ok: bool)

  function Run<U, M, V>(kinds: seq<StageKind<U, M, V>>, flags: seq<bool>,
                        s: St<U, M, V>, recs: seq<Record>): (r: RunOut<U, M, V>)
    requires |flags| == |kinds|
    ensures |r.flags| == |kinds|
    decreases |recs|
  {
    if recs == [] then RunOut(flags, s, [], true)
    else
      var o := ChainEffect(kinds, flags, s, recs[0]);
      if !o.ok then RunOut(o.flags, o.st, [], false)
      else
        var rest := Run(kinds, o.flags, o.st, recs[1..]);
        RunOut(rest.flags, rest.st, [recs[0]] + rest.out, rest.ok)
  }

  /** The records a match predicate accepts, in input order. */
  function Filter<M>(recs: seq<Record>, pattern: Matcher<M>): seq<Record>
    decreases |recs|
  {
    if recs == [] then []
    else (if pattern(recs[0]).Some? then [recs[0]] else []) + Filter(recs[1..], pattern)
  }

  /** One handler call of a range stage: the record and the `range` scope it saw. */
  datatype Firing<M> = Firing(record: Record, scope: Option<RangeScope<M>>)

  function Firings<U, M, V>(calls: seq<Event<U, M, V>>): seq<Firing<M>>
    decreases |calls|
  {
    if calls == [] then []
    else
      var e := calls[|calls| - 1];
      Firings(calls[..|calls| - 1]) + (if e.Called? then [Firing(e.record, e.view.range)] else [])
  }

  lemma FiringsSnoc<U, M, V>(calls: seq<Event<U, M, V>>, e: Event<U, M, V>)
    requires e.Called?
    ensures Firings(calls + [e]) == Firings(calls) + [Firing(e.record, e.view.range)]
  {
    assert (calls + [e])[..|calls|] == calls;
  }

  /** The range engine alone over a sequence of records: the final state, the calls it fires,
      and false when it raised. */
  datatype ScanOut<M> = ScanOut(m: Machine<M>, fired: seq<Firing<M>>, ok: bool)

  function Scan<M>(start: Matcher<M>, end: Matcher<M>, m: Machine<M>, recs: seq<Record>): ScanOut<M>
    decreases |recs|
  {
    if recs == [] then ScanOut(m, [], true)
    else
      match Engine(start, end, m, recs[0])
      case Idle => Scan(start, end, m, recs[1..])
      case Missing => ScanOut(m, [], false)
      case Fire(shown, after) =>
        var rest := Scan(start, end, after, recs[1..]);
        ScanOut(rest.m, [Firing(recs[0], Some(shown))] + rest.fired, rest.ok)
  }

  /** Every handler call of a pattern stage saw the match of its record as `regex`. */
  ghost predicate CarryMatches<U, M, V>(calls: seq<Event<U, M, V>>, pattern: Matcher<M>)
  {
    forall k :: 0 <= k < |calls| ==> calls[k].Called? && calls[k].view.regex == pattern(calls[k].record)
  }

  /** A chain yields the records it pulled, unchanged and in order, without drops or
      duplicates; it yields all of them unless a stage raised. */
  lemma {:induction false} RunYieldsInput<U, M, V>(kinds: seq<StageKind<U, M, V>>, flags: seq<bool>,
                                                   s: St<U, M, V>, recs: seq<Record>)
    requires |flags| == |kinds|
    ensures var r := Run(kinds, flags, s, recs);
      && |r.out| <= |recs| && r.out == recs[..|r.out|]
      && (r.ok ==> r.out == recs)
      && (!r.ok ==> |r.out| < |recs|)
    decreases |recs|
  {
    if recs != [] {
      var o := ChainEffect(kinds, flags, s, recs[0]);
      if o.ok {
        RunYieldsInput(kinds, o.flags, o.st, recs[1..]);
      }
    }
  }

  /** Joining the contents of what a chain yields over numbered lines gives the lines back. */
  lemma JoinReproducesInput<U, M, V>(kinds: seq<StageKind<U, M, V>>, flags: seq<bool>,
                                     s: St<U, M, V>, lines: seq<string>)
    requires |flags| == |kinds| && Run(kinds, flags, s, Numbered(lines, 1)).ok
    ensures Contents(Run(kinds, flags, s, Numbered(lines, 1)).out) == lines
  {
    RunYieldsInput(kinds, flags, s, Numbered(lines, 1));
    ContentsOfNumbered(lines, 1);
  }

  /** Over a run, an every stage calls its handler once on each record, in order. */
  lemma {:induction false} RunEvery<U, M, V>(kinds: seq<StageKind<U, M, V>>, flags: seq<bool>,
                                             s: St<U, M, V>, recs: seq<Record>, i: nat)
    requires |flags| == |kinds| && i < |kinds| && kinds[i].Every?
    ensures var r := Run(kinds, flags, s, recs);
      r.ok ==> Records(CallsOf(r.st.log, i)) == Records(CallsOf(s.log, i)) + recs
    decreases |recs|
  {
    if recs != [] {
      var o := ChainEffect(kinds, flags, s, recs[0]);
      if o.ok {
        ChainEvery(kinds, flags, s, recs[0], i);
        RunEvery(kinds, o.flags, o.st, recs[1..], i);
      }
    }
  }

  /** Calls extended by at most one call on `rec`, made exactly on a match and seeing it. */
  lemma ExtendCalls<U, M, V>(before: seq<Event<U, M, V>>, after: seq<Event<U, M, V>>,
                             pattern: Matcher<M>, rec: Record)
    requires |after| == |before| + (if pattern(rec).Some? then 1 else 0)
    requires after[..|before|] == before
    requires pattern(rec).Some? ==>
               after[|before|].Called? && after[|before|].record == rec
               && after[|before|].view.regex == pattern(rec)
    ensures Records(after) == Records(before) + (if pattern(rec).Some? then [rec] else [])
    ensures CarryMatches(before, pattern) ==> CarryMatches(after, pattern)
  {
    if pattern(rec).Some? {
      assert after == before + [after[|before|]];
      RecordsSnoc(before, after[|before|]);
    } else {
      assert after == before;
    }
  }

  /** One pull through a pattern stage, in terms of the handler calls' records and matches. */
  lemma PatternPull<U, M, V>(kinds: seq<StageKind<U, M, V>>, flags: seq<bool>,
                             s: St<U, M, V>, rec: Record, i: nat)
    requires |flags| == |kinds| && i < |kinds| && kinds[i].Pattern?
    requires ChainEffect(kinds, flags, s, rec).ok
    ensures var o := ChainEffect(kinds, flags, s, rec);
      var pattern := kinds[i].pattern;
      && Records(CallsOf(o.st.log, i))
         == Records(CallsOf(s.log, i)) + (if pattern(rec).Some? then [rec] else [])
      && (CarryMatches(CallsOf(s.log, i), pattern) ==> CarryMatches(CallsOf(o.st.log, i), pattern))
  {
    ChainPattern(kinds, flags, s, rec, i);
    ExtendCalls(CallsOf(s.log, i), CallsOf(ChainEffect(kinds, flags, s, rec).st.log, i), kinds[i].pattern, rec);
  }

  /** Over a run, a pattern stage calls its handler exactly on the matching records, in input
      order, and each call sees the match of its record as `regex`. */
  lemma {:induction false} RunPattern<U, M, V>(kinds: seq<StageKind<U, M, V>>, flags: seq<bool>,
                                               s: St<U, M, V>, recs: seq<Record>, i: nat)
    requires |flags| == |kinds| && i < |kinds| && kinds[i].Pattern?
    ensures var r := Run(kinds, flags, s, recs);
      var pattern := kinds[i].pattern;
      r.ok ==>
        && Records(CallsOf(r.st.log, i)) == Records(CallsOf(s.log, i)) + Filter(recs, pattern)
        && (CarryMatches(CallsOf(s.log, i), pattern) ==> CarryMatches(CallsOf(r.st.log, i), pattern))
    decreases |recs|
  {
    if recs != [] {
      var o := ChainEffect(kinds, flags, s, recs[0]);
      RunStep(kinds, flags, s, recs);
      if o.ok {
        var pattern := kinds[i].pattern;
        PatternPull(kinds, flags, s, recs[0], i);
        RunPattern(kinds, o.flags, o.st, recs[1..], i);
        SeqAssoc(Records(CallsOf(s.log, i)), if pattern(recs[0]).Some? then [recs[0]] else [],
                 Filter(recs[1..], pattern));
      }
    }
  }

  /** Calls extended by at most one call, on `rec` and seeing `scope`. */
  lemma ExtendFirings<U, M, V>(before: seq<Event<U, M, V>>, after: seq<Event<U, M, V>>,
                               fired: bool, rec: Record, scope: Option<RangeScope<M>>)
    requires !fired ==> after == before
    requires fired ==>
               && |after| == |before| + 1 && after[..|before|] == before
               && after[|before|].Called? && after[|before|].record == rec
               && after[|before|].view.range == scope
    ensures Firings(after) == Firings(before) + (if fired then [Firing(rec, scope)] else [])
  {
    if fired {
      assert after == before + [after[|before|]];
      FiringsSnoc(before, after[|before|]);
    }
  }

  /** One pull through the only range stage, in terms of the scopes its handler calls saw. */
  lemma RangePull<U, M, V>(kinds: seq<StageKind<U, M, V>>, flags: seq<bool>,
                           s: St<U, M, V>, rec: Record, i: nat)
    requires |flags| == |kinds| && OnlyRange(kinds, i)
    ensures var o := ChainEffect(kinds, flags, s, rec);
      var t := Engine(kinds[i].start, kinds[i].end, Machine(flags[i], s.view.range), rec);
      var next := if t.Fire? then t.after else Machine(flags[i], s.view.range);
      && o.ok == !t.Missing?
      && o.flags[i] == next.inRange && o.st.view.range == next.scope
      && Firings(CallsOf(o.st.log, i))
         == Firings(CallsOf(s.log, i)) + (if t.Fire? then [Firing(rec, Some(t.shown))] else [])
  {
    var t := Engine(kinds[i].start, kinds[i].end, Machine(flags[i], s.view.range), rec);
    ChainRange(kinds, flags, s, rec, i);
    ExtendFirings(CallsOf(s.log, i), CallsOf(ChainEffect(kinds, flags, s, rec).st.log, i),
                  t.Fire?, rec, if t.Fire? then Some(t.shown) else None);
  }

  lemma SeqAssoc<T>(a: seq<T>, b: seq<T>, c: seq<T>)
    ensures a + b + c == a + (b + c)
  {
  }

  /** Run, unfolded once. */
  lemma RunStep<U, M, V>(kinds: seq<StageKind<U, M, V>>, flags: seq<bool>,
                         s: St<U, M, V>, recs: seq<Record>)
    requires |flags| == |kinds| && recs != []
    ensures var o := ChainEffect(kinds, flags, s, recs[0]);
      var r := Run(kinds, flags, s, recs);
      && (!o.ok ==> r == RunOut(o.flags, o.st, [], false))
      && (o.ok ==> var rest := Run(kinds, o.flags, o.st, recs[1..]);
                   r == RunOut(rest.flags, rest.st, [recs[0]] + rest.out, rest.ok))
  {
  }

  /** Scan, unfolded once. */
  lemma ScanStep<M>(start: Matcher<M>, end: Matcher<M>, m: Machine<M>, recs: seq<Record>)
    requires recs != []
    ensures var t := Engine(start, end, m, recs[0]);
      var sc := Scan(start, end, m, recs);
      var rest := Scan(start, end, if t.Fire? then t.after else m, recs[1..]);
      && (t.Missing? ==> sc == ScanOut(m, [], false))
      && (!t.Missing? ==>
            sc == ScanOut(rest.m, (if t.Fire? then [Firing(recs[0], Some(t.shown))] else []) + rest.fired, rest.ok))
  {
  }

  /** Scanning two inputs one after the other: the second scan starts where the first left the
      engine, unless the first raised, which ends the whole scan. */
  lemma {:induction false} ScanAppend<M>(start: Matcher<M>, end: Matcher<M>, m: Machine<M>,
                                         a: seq<Record>, b: seq<Record>)
    ensures var x := Scan(start, end, m, a);
      var y := Scan(start, end, x.m, b);
      Scan(start, end, m, a + b) == if x.ok then ScanOut(y.m, x.fired + y.fired, y.ok) else x
    decreases |a|
  {
    if a == [] {
      assert a + b == b;
    } else {
      assert (a + b)[0] == a[0] && (a + b)[1..] == a[1..] + b;
      ScanStep(start, end, m, a);
      ScanStep(start, end, m, a + b);
      var t := Engine(start, end, m, a[0]);
      if !t.Missing? {
        var m' := if t.Fire? then t.after else m;
        ScanAppend(start, end, m', a[1..], b);
        var x' := Scan(start, end, m', a[1..]);
        var y := Scan(start, end, x'.m, b);
        SeqAssoc(if t.Fire? then [Firing(a[0], Some(t.shown))] else [], x'.fired, y.fired);
      }
    }
  }

  /** Over a run, the only range stage of a chain behaves as the range engine scanning the
      records from the stage's flag and the context's `range` attribute. */
  lemma {:induction false} RunRange<U, M, V>(kinds: seq<StageKind<U, M, V>>, flags: seq<bool>,
                                             s: St<U, M, V>, recs: seq<Record>, i: nat)
    requires |flags| == |kinds| && OnlyRange(kinds, i)
    ensures var r := Run(kinds, flags, s, recs);
      var sc := Scan(kinds[i].start, kinds[i].end, Machine(flags[i], s.view.range), recs);
      && r.ok == sc.ok
      && Firings(CallsOf(r.st.log, i)) == Firings(CallsOf(s.log, i)) + sc.fired
      && r.flags[i] == sc.m.inRange && r.st.view.range == sc.m.scope
    decreases |recs|
  {
    if recs != [] {
      var k := kinds[i];
      var o := ChainEffect(kinds, flags, s, recs[0]);
      RangePull(kinds, flags, s, recs[0], i);
      RunStep(kinds, flags, s, recs);
      ScanStep(k.start, k.end, Machine(flags[i], s.view.range), recs);
      if o.ok {
        RunRange(kinds, o.flags, o.st, recs[1..], i);
        var t := Engine(k.start, k.end, Machine(flags[i], s.view.range), recs[0]);
        var rest := Scan(k.start, k.end, if t.Fire? then t.after else Machine(flags[i], s.view.range), recs[1..]);
        SeqAssoc(Firings(CallsOf(s.log, i)), if t.Fire? then [Firing(recs[0], Some(t.shown))] else [], rest.fired);
      }
    }
  }

  /** A chain without range stages never raises. */
  lemma {:induction false} RangeFreeRunSucceeds<U, M, V>(kinds: seq<StageKind<U, M, V>>, flags: seq<bool>,
                                                         s: St<U, M, V>, recs: seq<Record>)
    requires |flags| == |kinds| && RangeFree(kinds)
    ensures Run(kinds, flags, s, recs).ok
    decreases |recs|
  {
    if recs != [] {
      RangeFreeChain(kinds, flags, s, recs[0]);
      var o := ChainEffect(kinds, flags, s, recs[0]);
      RangeFreeRunSucceeds(kinds, o.flags, o.st, recs[1..]);
    }
  }

  /** From a guarded state the range engine never raises over any input, and stays guarded. */
  lemma {:induction false} ScanGuarded<M>(start: Matcher<M>, end: Matcher<M>, m: Machine<M>, recs: seq<Record>)
    requires Guarded(m)
    ensures Scan(start, end, m, recs).ok && Guarded(Scan(start, end, m, recs).m)
    decreases |recs|
  {
    if recs != [] {
      EngineKeepsGuarded(start, end, m, recs[0]);
      var t := Engine(start, end, m, recs[0]);
      ScanGuarded(start, end, if t.Fire? then t.after else m, recs[1..]);
    }
  }

  /** A chain with a single range stage never raises, unless the stage starts out believing it
      is in range while the context has no `range` attribute. */
  lemma SingleRangeRunSucceeds<U, M, V>(kinds: seq<StageKind<U, M, V>>, flags: seq<bool>,
                                        s: St<U, M, V>, recs: seq<Record>, i: nat)
    requires |flags| == |kinds| && OnlyRange(kinds, i) && (flags[i] ==> s.view.range.Some?)
    ensures Run(kinds, flags, s, recs).ok
  {
    RunRange(kinds, flags, s, recs, i);
    ScanGuarded(kinds[i].start, kinds[i].end, Machine(flags[i], s.view.range), recs);
  }

  /** Out of range, records the start condition rejects cause no handler call. */
  lemma {:induction false} ScanOutside<M>(start: Matcher<M>, end: Matcher<M>, m: Machine<M>, recs: seq<Record>)
    requires !m.inRange
    requires forall k :: 0 <= k < |recs| ==> start(recs[k]).None?
    ensures Scan(start, end, m, recs) == ScanOut(m, [], true)
    decreases |recs|
  {
    if recs != [] {
      ScanOutside(start, end, m, recs[1..]);
    }
  }

  /** In range, while no record matches the end, every record is handled, the line number
      goes up by one per record and the scope is otherwise unchanged: the range stays open. */
  lemma {:induction false} ScanUnterminated<M>(start: Matcher<M>, end: Matcher<M>,
                                               sc: RangeScope<M>, recs: seq<Record>)
    requires forall k :: 0 <= k < |recs| ==> end(recs[k]).None?
    ensures var o := Scan(start, end, Machine(true, Some(sc)), recs);
      && o.ok && o.m == Machine(true, Some(sc.(lineNumber := sc.lineNumber + |recs|)))
      && |o.fired| == |recs|
      && forall k :: 0 <= k < |recs| ==>
           o.fired[k] == Firing(recs[k], Some(sc.(lineNumber := sc.lineNumber + k + 1)))
    decreases |recs|
  {
    if recs != [] {
      var next := sc.(lineNumber := sc.lineNumber + 1);
      ScanUnterminated(start, end, next, recs[1..]);
    }
  }

  /** In range, when only the last record matches the end, every record is handled, the
      line number goes up by one per record, and only the last call sees the end match and
      `isLastLine`; then the stage is out of range and the scope is gone. */
  lemma {:induction false} ScanThroughEnd<M>(start: Matcher<M>, end: Matcher<M>,
                                             sc: RangeScope<M>, recs: seq<Record>)
    requires |recs| > 0 && end(recs[|recs| - 1]).Some?
    requires forall k :: 0 <= k < |recs| - 1 ==> end(recs[k]).None?
    ensures var o := Scan(start, end, Machine(true, Some(sc)), recs);
      var last := |recs| - 1;
      && o.ok && o.m == Machine(false, None)
      && |o.fired| == |recs|
      && (forall k :: 0 <= k < last ==>
            o.fired[k] == Firing(recs[k], Some(sc.(lineNumber := sc.lineNumber + k + 1))))
      && o.fired[last] == Firing(recs[last], Some(RangeScope(end(recs[last]).value, sc.lineNumber + |recs|, true)))
    decreases |recs|
  {
    if |recs| > 1 {
      var next := sc.(lineNumber := sc.lineNumber + 1);
      ScanThroughEnd(start, end, next, recs[1..]);
    } else {
      ScanOutside(start, end, Machine(false, None), recs[1..]);
    }
  }

  /** A range opened by a start match and closed by an end match later (or on the same
      record) calls the handler on every record in between, numbered 1 to k; only the last
      call sees `isLastLine` and the end match, the others see the start match; then the
      range is closed and the scope is gone. */
  lemma RangeClosure<M>(start: Matcher<M>, end: Matcher<M>, m: Machine<M>, recs: seq<Record>)
    requires !m.inRange && |recs| > 0 && start(recs[0]).Some?
    requires end(recs[|recs| - 1]).Some?
    requires forall k :: 0 <= k < |recs| - 1 ==> end(recs[k]).None?
    ensures var o := Scan(start, end, m, recs);
      var last := |recs| - 1;
      && o.ok && o.m == Machine(false, None)
      && |o.fired| == |recs|
      && forall k :: 0 <= k < |recs| ==>
           o.fired[k] == Firing(recs[k], Some(RangeScope(
                           if k == last then end(recs[last]).value else start(recs[0]).value,
                           k + 1, k == last)))
  {
    ScanStep(start, end, m, recs);
    RangeOpens(start, end, m, recs[0]);
    if |recs| == 1 {
      ScanOutside(start, end, Machine(false, None), recs[1..]);
    } else {
      var firstScope := RangeScope(start(recs[0]).value, 1, false);
      ScanThroughEnd(start, end, firstScope, recs[1..]);
    }
  }

  /** A range whose end never matches stays open to the end of the input: every record from
      the start match on is handled, numbered 1 to k, and no call sees `isLastLine`. */
  lemma RangeNeverCloses<M>(start: Matcher<M>, end: Matcher<M>, m: Machine<M>, recs: seq<Record>)
    requires !m.inRange && |recs| > 0 && start(recs[0]).Some?
    requires forall k :: 0 <= k < |recs| ==> end(recs[k]).None?
    ensures var o := Scan(start, end, m, recs);
      && o.ok && o.m == Machine(true, Some(RangeScope(start(recs[0]).value, |recs|, false)))
      && |o.fired| == |recs|
      && forall k :: 0 <= k < |recs| ==>
           o.fired[k] == Firing(recs[k], Some(RangeScope(start(recs[0]).value, k + 1, false)))
  {
    ScanStep(start, end, m, recs);
    RangeOpens(start, end, m, recs[0]);
    var firstScope := RangeScope(start(recs[0]).value, 1, false);
    ScanUnterminated(start, end, firstScope, recs[1..]);
  }

  /**
   * A whole input in which a range opens after records the start rejects and
   * closes later: nothing is handled before the start match, the range's
   * records are handled as one closed range, and what follows is scanned
   * afresh from a closed range with no scope.
   */
  lemma ScanPrefixThenRange<M>(start: Matcher<M>, end: Matcher<M>, m: Machine<M>,
                               pre: seq<Record>, body: seq<Record>, post: seq<Record>)
    requires !m.inRange
    requires forall k :: 0 <= k < |pre| ==> start(pre[k]).None?
    requires |body| > 0 && start(body[0]).Some? && end(body[|body| - 1]).Some?
    requires forall k :: 0 <= k < |body| - 1 ==> end(body[k]).None?
    ensures var o := Scan(start, end, m, pre + body + post);
      var rest := Scan(start, end, Machine(false, None), post);
      var last := |body| - 1;
      && o.ok == rest.ok && o.m == rest.m
      && |o.fired| == |body| + |rest.fired|
      && o.fired[|body|..] == rest.fired
      && forall k :: 0 <= k < |body| ==>
           o.fired[k] == Firing(body[k], Some(RangeScope(
                           if k == last then end(body[last]).value else start(body[0]).value,
                           k + 1, k == last)))
  {
    ScanOutside(start, end, m, pre);
    assert pre + body + post == pre + (body + post);
    ScanAppend(start, end, m, pre, body + post);
    ScanAppend(start, end, m, body, post);
    RangeClosure(start, end, m, body);
  }

  /** A whole input in which a range opens after records the start rejects and never closes:
      every record from the start match to the end of the input is handled, numbered from 1. */
  lemma ScanPrefixThenOpenRange<M>(start: Matcher<M>, end: Matcher<M>, m: Machine<M>,
                                   pre: seq<Record>, body: seq<Record>)
    requires !m.inRange
    requires forall k :: 0 <= k < |pre| ==> start(pre[k]).None?
    requires |body| > 0 && start(body[0]).Some?
    requires forall k :: 0 <= k < |body| ==> end(body[k]).None?
    ensures var o := Scan(start, end, m, pre + body);
      && o.ok && o.m == Machine(true, Some(RangeScope(start(body[0]).value, |body|, false)))
      && |o.fired| == |body|
      && forall k :: 0 <= k < |body| ==>
           o.fired[k] == Firing(body[k], Some(RangeScope(start(body[0]).value, k + 1, false)))
  {
    ScanOutside(start, end, m, pre);
    ScanAppend(start, end, m, pre, body);
    RangeNeverCloses(start, end, m, body);
  }

  /**
   * The same whole input through a chain whose only range stage starts out of
   * range: the stage's handler is called on exactly the range's records, with
   * the scopes of a closed range, and then as the engine scans the rest.
   */
  lemma ChainPrefixThenRange<U, M, V>(kinds: seq<StageKind<U, M, V>>, flags: seq<bool>, s: St<U, M, V>,
                                      pre: seq<Record>, body: seq<Record>, post: seq<Record>, i: nat)
    requires |flags| == |kinds| && OnlyRange(kinds, i) && !flags[i]
    requires forall k :: 0 <= k < |pre| ==> kinds[i].start(pre[k]).None?
    requires |body| > 0 && kinds[i].start(body[0]).Some? && kinds[i].end(body[|body| - 1]).Some?
    requires forall k :: 0 <= k < |body| - 1 ==> kinds[i].end(body[k]).None?
    ensures var r := Run(kinds, flags, s, pre + body + post);
      var rest := Scan(kinds[i].start, kinds[i].end, Machine(false, None), post);
      var before := Firings(CallsOf(s.log, i));
      var after := Firings(CallsOf(r.st.log, i));
      var last := |body| - 1;
      && r.ok == rest.ok && r.flags[i] == rest.m.inRange && r.st.view.range == rest.m.scope
      && |after| == |before| + |body| + |rest.fired|
      && after[..|before|] == before
      && after[|before| + |body|..] == rest.fired
      && forall k :: 0 <= k < |body| ==>
           after[|before| + k] == Firing(body[k], Some(RangeScope(
                                    if k == last then kinds[i].end(body[last]).value
                                    else kinds[i].start(body[0]).value,
                                    k + 1, k == last)))
  {
    var k := kinds[i];
    RunRange(kinds, flags, s, pre + body + post, i);
    ScanPrefixThenRange(k.start, k.end, Machine(false, s.view.range), pre, body, post);
  }

  /** The same through a chain, for a range that never closes: the stage ends in range, its
      scope numbered with the count of the range's records. */
  lemma ChainPrefixThenOpenRange<U, M, V>(kinds: seq<StageKind<U, M, V>>, flags: seq<bool>, s: St<U, M, V>,
                                          pre: seq<Record>, body: seq<Record>, i: nat)
    requires |flags| == |kinds| && OnlyRange(kinds, i) && !flags[i]
    requires forall k :: 0 <= k < |pre| ==> kinds[i].start(pre[k]).None?
    requires |body| > 0 && kinds[i].start(body[0]).Some?
    requires forall k :: 0 <= k < |body| ==> kinds[i].end(body[k]).None?
    ensures var r := Run(kinds, flags, s, pre + body);
      var before := Firings(CallsOf(s.log, i));
      var after := Firings(CallsOf(r.st.log, i));
      var still := RangeScope(kinds[i].start(body[0]).value, |body|, false);
      && r.ok && r.flags[i] && r.st.view.range == Some(still)
      && |after| == |before| + |body|
      && after[..|before|] == before
      && forall k :: 0 <= k < |body| ==>
           after[|before| + k] == Firing(body[k], Some(RangeScope(kinds[i].start(body[0]).value, k + 1, false)))
  {
    var k := kinds[i];
    RunRange(kinds, flags, s, pre + body, i);
    ScanPrefixThenOpenRange(k.start, k.end, Machine(false, s.view.range), pre, body);
  }

  /** The default action on an every stage writes every line, in order. */
  lemma {:induction false} PrintEchoes<M, V>(s: St<seq<string>, M, V>, recs: seq<Record>)
    ensures var r := Run([Every(Print)], [false], s, recs);
      r.ok && r.st.view.user == s.view.user + Contents(recs)
    decreases |recs|
  {
    var kinds: seq<StageKind<seq<string>, M, V>> := [Every(Print)];
    if recs != [] {
      RunStep(kinds, [false], s, recs);
      assert kinds[..0] == [] && [false][..0] == [];
      var o := ChainEffect(kinds, [false], s, recs[0]);
      assert ChainEffect(kinds[..0], [false][..0], s, recs[0]) == Outcome([], s, true);
      assert o == ChainTop(kinds, [false], s, recs[0]);
      assert o == Outcome([false], Invoke(0, Print, s, recs[0]), true);
      PrintEchoes(o.st, recs[1..]);
      SeqAssoc(s.view.user, [recs[0].content], Contents(recs[1..]));
    }
  }

  /** The default action on a pattern stage writes exactly the matching lines, in order. */
  lemma {:induction false} PrintFilters<M, V>(pattern: Matcher<M>, s: St<seq<string>, M, V>, recs: seq<Record>)
    ensures var r := Run([Pattern(Print, pattern)], [false], s, recs);
      r.ok && r.st.view.user == s.view.user + Contents(Filter(recs, pattern))
    decreases |recs|
  {
    var kinds: seq<StageKind<seq<string>, M, V>> := [Pattern(Print, pattern)];
    if recs != [] {
      RunStep(kinds, [false], s, recs);
      assert kinds[..0] == [] && [false][..0] == [];
      var o := ChainEffect(kinds, [false], s, recs[0]);
      assert ChainEffect(kinds[..0], [false][..0], s, recs[0]) == Outcome([], s, true);
      assert o == ChainTop(kinds, [false], s, recs[0]);
      assert o == Outcome([false], PatternEffect(0, Print, pattern, s, recs[0]), true);
      PrintFilters(pattern, o.st, recs[1..]);
      var rest := Filter(recs[1..], pattern);
      if pattern(recs[0]).Some? {
        assert ([recs[0]] + rest)[1..] == rest;
        SeqAssoc(s.view.user, [recs[0].content], Contents(rest));
      } else {
        assert [] + rest == rest;
      }
    }
  }
}
