/**
 * A chain of stages over one record.  The stage at position 0 pulls from the
 * line source, each later one pulls from the one before it, so on every pull
 * the stages act on the record in position order, innermost first.  A stage
 * that raises ends the pull: the stages after it never see the record.
 */
module Chains {
  import opened Wrappers
  import opened Scope
  import opened Stages

  /** The in-range flag of every stage, the context state, and false when some stage raised. */
  datatype Outcome<U, M, V> = Outcome(flags: seq<bool>, st: St<U, M, V>, ok: bool)

  function ChainEffect<U, M, V>(kinds: seq<StageKind<U, M, V>>, flags: seq<bool>,
                                s: St<U, M, V>, rec: Record): (o: Outcome<U, M, V>)
    requires |flags| == |kinds|
    ensures |o.flags| == |kinds|
    decreases |kinds|, 1
  {
    if kinds == [] then Outcome([], s, true) else ChainTop(kinds, flags, s, rec)
  }

  /** A non-empty chain: its last stage acts on what the stages below it left, unless one of
      them raised. */
  function ChainTop<U, M, V>(kinds: seq<StageKind<U, M, V>>, flags: seq<bool>,
                             s: St<U, M, V>, rec: Record): (o: Outcome<U, M, V>)
    requires |flags| == |kinds| && kinds != []
    ensures |o.flags| == |kinds|
    decreases |kinds|, 0
  {
    var n := |kinds| - 1;
    var below := ChainEffect(kinds[..n], flags[..n], s, rec);
    if !below.ok then Outcome(below.flags + [flags[n]], below.st, false)
    else
      var e := StageEffect(n, kinds[n], flags[n], below.st, rec);
      Outcome(below.flags + [e.inRange], e.st, e.ok)
  }

  /** Adding a stage on top of a chain whose stages all passed the record on. */
  lemma ChainGrow<U, M, V>(kinds: seq<StageKind<U, M, V>>, flags: seq<bool>, kind: StageKind<U, M, V>,
                           flag: bool, s: St<U, M, V>, rec: Record, b: Outcome<U, M, V>)
    requires |flags| == |kinds| && b == ChainEffect(kinds, flags, s, rec) && b.ok
    ensures var e := StageEffect(|kinds|, kind, flag, b.st, rec);
      ChainEffect(kinds + [kind], flags + [flag], s, rec) == Outcome(b.flags + [e.inRange], e.st, e.ok)
  {
    assert (kinds + [kind])[..|kinds|] == kinds;
    assert (flags + [flag])[..|kinds|] == flags;
  }

  /** Adding a stage on top of a chain that raised before reaching it. */
  lemma ChainHalt<U, M, V>(kinds: seq<StageKind<U, M, V>>, flags: seq<bool>, kind: StageKind<U, M, V>,
                           flag: bool, s: St<U, M, V>, rec: Record, b: Outcome<U, M, V>)
    requires |flags| == |kinds| && b == ChainEffect(kinds, flags, s, rec) && !b.ok
    ensures ChainEffect(kinds + [kind], flags + [flag], s, rec) == Outcome(b.flags + [flag], b.st, false)
  {
    assert (kinds + [kind])[..|kinds|] == kinds;
    assert (flags + [flag])[..|kinds|] == flags;
  }

  /** No stage of the chain is a range stage. */
  ghost predicate RangeFree<U, M, V>(kinds: seq<StageKind<U, M, V>>)
  {
    forall j :: 0 <= j < |kinds| ==> !kinds[j].Range?
  }

  /** The stage at position i is the chain's only range stage. */
  ghost predicate OnlyRange<U, M, V>(kinds: seq<StageKind<U, M, V>>, i: nat)
  {
    i < |kinds| && kinds[i].Range? && forall j :: 0 <= j < |kinds| && j != i ==> !kinds[j].Range?
  }

  /** No attribute that a stage sets for a handler call is present. */
  ghost predicate Quiet<U, M, V>(v: View<U, M, V>)
  {
    v.regex.None? && v.line.None? && v.eval.None?
  }

  /** A stage records handler calls under its own position only. */
  lemma StageTags<U, M, V>(stage: nat, kind: StageKind<U, M, V>, inRange: bool,
                           s: St<U, M, V>, rec: Record, j: nat)
    requires j != stage
    ensures CallsOf(StageEffect(stage, kind, inRange, s, rec).st.log, j) == CallsOf(s.log, j)
  {
    var log := StageEffect(stage, kind, inRange, s, rec).st.log;
    match kind
    case Every(body) =>
      var c := Called(stage, rec, s.view);
      assert log == s.log + [c];
      CallsOfSnoc(s.log, c, j);
    case Pattern(body, pattern) =>
      if pattern(rec).Some? {
        var c := Called(stage, rec, s.view.(regex := pattern(rec)));
        assert log == s.log + [c];
        CallsOfSnoc(s.log, c, j);
      } else {
        assert log == s.log;
      }
    case Code(body, code) =>
      var probe := s.view.(line := Some(rec));
      var log1 := s.log + [Evaluated(stage, probe)];
      CallsOfSnoc(s.log, Evaluated(stage, probe), j);
      if code(probe).Some? {
        var c := Called(stage, rec, s.view.(line := None, eval := code(probe)));
        assert log == log1 + [c];
        CallsOfSnoc(log1, c, j);
      } else {
        assert log == log1;
      }
    case Range(body, start, end) =>
      RangeEffectSpec(stage, body, start, end, inRange, s, rec);
      var t := Engine(start, end, Machine(inRange, s.view.range), rec);
      if t.Fire? {
        CallsOfSnoc(s.log, Called(stage, rec, s.view.(range := Some(t.shown))), j);
      }
  }

  /** A chain records no handler call under a position beyond its own stages. */
  lemma {:induction false} ChainTags<U, M, V>(kinds: seq<StageKind<U, M, V>>, flags: seq<bool>,
                                              s: St<U, M, V>, rec: Record, j: nat)
    requires |flags| == |kinds| && j >= |kinds|
    ensures CallsOf(ChainEffect(kinds, flags, s, rec).st.log, j) == CallsOf(s.log, j)
    decreases |kinds|
  {
    if kinds != [] {
      var n := |kinds| - 1;
      var below := ChainEffect(kinds[..n], flags[..n], s, rec);
      ChainTags(kinds[..n], flags[..n], s, rec, j);
      if below.ok {
        StageTags(n, kinds[n], flags[n], below.st, rec, j);
      }
    }
  }

  /** A stage other than a range stage never raises, keeps its flag and leaves `range` alone. */
  lemma StageKeepsRange<U, M, V>(stage: nat, kind: StageKind<U, M, V>, inRange: bool,
                                 s: St<U, M, V>, rec: Record)
    requires !kind.Range?
    ensures var e := StageEffect(stage, kind, inRange, s, rec);
      e.ok && e.inRange == inRange && e.st.view.range == s.view.range
  {
  }

  /** A chain without range stages never raises and never touches `range` or the flags. */
  lemma {:induction false} RangeFreeChain<U, M, V>(kinds: seq<StageKind<U, M, V>>, flags: seq<bool>,
                                                   s: St<U, M, V>, rec: Record)
    requires |flags| == |kinds| && RangeFree(kinds)
    ensures var o := ChainEffect(kinds, flags, s, rec);
      o.ok && o.flags == flags && o.st.view.range == s.view.range
    decreases |kinds|
  {
    if kinds != [] {
      var n := |kinds| - 1;
      assert RangeFree(kinds[..n]);
      RangeFreeChain(kinds[..n], flags[..n], s, rec);
      var below := ChainEffect(kinds[..n], flags[..n], s, rec);
      StageKeepsRange(n, kinds[n], flags[n], below.st, rec);
      assert flags[..n] + [flags[n]] == flags;
    }
  }

  /** No attribute set for a handler call survives the pull that set it. */
  lemma {:induction false} ChainKeepsQuiet<U, M, V>(kinds: seq<StageKind<U, M, V>>, flags: seq<bool>,
                                                    s: St<U, M, V>, rec: Record)
    requires |flags| == |kinds| && Quiet(s.view)
    ensures Quiet(ChainEffect(kinds, flags, s, rec).st.view)
    decreases |kinds|
  {
    if kinds != [] {
      var n := |kinds| - 1;
      ChainKeepsQuiet(kinds[..n], flags[..n], s, rec);
    }
  }

  /** Over one pull, an every stage adds exactly one handler call of its own, on the pulled record. */
  lemma {:induction false} ChainEvery<U, M, V>(kinds: seq<StageKind<U, M, V>>, flags: seq<bool>,
                                               s: St<U, M, V>, rec: Record, i: nat)
    requires |flags| == |kinds| && i < |kinds| && kinds[i].Every?
    ensures var o := ChainEffect(kinds, flags, s, rec);
      o.ok ==> Records(CallsOf(o.st.log, i)) == Records(CallsOf(s.log, i)) + [rec]
    decreases |kinds|
  {
    var o := ChainEffect(kinds, flags, s, rec);
    var n := |kinds| - 1;
    var below := ChainEffect(kinds[..n], flags[..n], s, rec);
    if o.ok {
      assert o == ChainTop(kinds, flags, s, rec);
      if i == n {
        ChainTags(kinds[..n], flags[..n], s, rec, i);
        var c := Called(i, rec, below.st.view);
        assert o.st == Invoke(n, kinds[n].body, below.st, rec);
        CallsOfSnoc(below.st.log, c, i);
        RecordsSnoc(CallsOf(below.st.log, i), c);
      } else {
        ChainEvery(kinds[..n], flags[..n], s, rec, i);
        StageTags(n, kinds[n], flags[n], below.st, rec, i);
      }
    }
  }

  /** Over one pull, a pattern stage adds a handler call of its own exactly when its pattern
      matches the pulled record, and that call sees the match as `regex`. */
  lemma {:induction false} ChainPattern<U, M, V>(kinds: seq<StageKind<U, M, V>>, flags: seq<bool>,
                                                 s: St<U, M, V>, rec: Record, i: nat)
    requires |flags| == |kinds| && i < |kinds| && kinds[i].Pattern?
    ensures var o := ChainEffect(kinds, flags, s, rec);
      var m := kinds[i].pattern(rec);
      var before := CallsOf(s.log, i);
      var after := CallsOf(o.st.log, i);
      o.ok ==>
        && |after| == |before| + (if m.Some? then 1 else 0)
        && after[..|before|] == before
        && (m.Some? ==> after[|before|].Called? && after[|before|].record == rec
                          && after[|before|].view.regex == m)
    decreases |kinds|
  {
    var o := ChainEffect(kinds, flags, s, rec);
    var n := |kinds| - 1;
    var below := ChainEffect(kinds[..n], flags[..n], s, rec);
    assert o == ChainTop(kinds, flags, s, rec);
    if o.ok {
      if i == n {
        ChainTags(kinds[..n], flags[..n], s, rec, i);
        var k := kinds[n];
        var m := k.pattern(rec);
        assert o.st == PatternEffect(n, k.body, k.pattern, below.st, rec);
        if m.Some? {
          var c := Called(i, rec, below.st.view.(regex := m));
          assert o.st.log == below.st.log + [c];
          CallsOfSnoc(below.st.log, c, i);
        } else {
          assert o.st.log == below.st.log;
        }
      } else {
        ChainPattern(kinds[..n], flags[..n], s, rec, i);
        StageTags(n, kinds[n], flags[n], below.st, rec, i);
      }
    }
  }

  /** A code stage records one handler call of its own exactly when its gate is truthy; the
      gate's evaluation is not a call. */
  lemma CodeCalls<U, M, V>(stage: nat, body: Handler<U, M, V>, code: Gate<U, M, V>,
                           s: St<U, M, V>, rec: Record)
    ensures var g := code(s.view.(line := Some(rec)));
      var before := CallsOf(s.log, stage);
      var after := CallsOf(CodeEffect(stage, body, code, s, rec).log, stage);
      && |after| == |before| + (if g.Some? then 1 else 0)
      && after[..|before|] == before
      && (g.Some? ==> after[|before|] == Called(stage, rec, s.view.(line := None, eval := g)))
  {
    var probe := s.view.(line := Some(rec));
    var ev := Evaluated(stage, probe);
    var log := CodeEffect(stage, body, code, s, rec).log;
    CallsOfSnoc(s.log, ev, stage);
    assert CallsOf(s.log + [ev], stage) == CallsOf(s.log, stage);
    if code(probe).Some? {
      var c := Called(stage, rec, s.view.(line := None, eval := code(probe)));
      assert log == s.log + [ev] + [c];
      CallsOfSnoc(s.log + [ev], c, stage);
    } else {
      assert log == s.log + [ev];
    }
  }

  /** The code stage on top of a chain: what `ChainCode` states, for the top position. */
  lemma ChainCodeTop<U, M, V>(kinds: seq<StageKind<U, M, V>>, flags: seq<bool>,
                              s: St<U, M, V>, rec: Record)
    requires |flags| == |kinds| && kinds != [] && kinds[|kinds| - 1].Code?
    ensures var n := |kinds| - 1;
      var o := ChainEffect(kinds, flags, s, rec);
      var below := ChainEffect(kinds[..n], flags[..n], s, rec);
      var g := kinds[n].code(below.st.view.(line := Some(rec)));
      var before := CallsOf(s.log, n);
      var after := CallsOf(o.st.log, n);
      o.ok ==>
        && |after| == |before| + (if g.Some? then 1 else 0)
        && after[..|before|] == before
        && (g.Some? ==> after[|before|] == Called(n, rec, below.st.view.(line := None, eval := g)))
  {
    var n := |kinds| - 1;
    var o := ChainEffect(kinds, flags, s, rec);
    var below := ChainEffect(kinds[..n], flags[..n], s, rec);
    assert o == ChainTop(kinds, flags, s, rec);
    if o.ok {
      ChainTags(kinds[..n], flags[..n], s, rec, n);
      var k := kinds[n];
      assert o.st == CodeEffect(n, k.body, k.code, below.st, rec);
      CodeCalls(n, k.body, k.code, below.st, rec);
    }
  }

  /**
   * Over one pull, a code stage adds a handler call of its own exactly when its
   * gate is truthy on the view the stages below it left, with `line` set to the
   * pulled record; that call sees the gate's result as `eval` and no `line`.
   */
  lemma {:induction false} ChainCode<U, M, V>(kinds: seq<StageKind<U, M, V>>, flags: seq<bool>,
                                              s: St<U, M, V>, rec: Record, i: nat)
    requires |flags| == |kinds| && i < |kinds| && kinds[i].Code?
    ensures var o := ChainEffect(kinds, flags, s, rec);
      var probe := ChainEffect(kinds[..i], flags[..i], s, rec).st.view.(line := Some(rec));
      var g := kinds[i].code(probe);
      var before := CallsOf(s.log, i);
      var after := CallsOf(o.st.log, i);
      o.ok ==>
        && |after| == |before| + (if g.Some? then 1 else 0)
        && after[..|before|] == before
        && (g.Some? ==> after[|before|].Called? && after[|before|].record == rec
                          && after[|before|].view.eval == g && after[|before|].view.line.None?)
    decreases |kinds|
  {
    var n := |kinds| - 1;
    if i == n {
      ChainCodeTop(kinds, flags, s, rec);
    } else {
      var o := ChainEffect(kinds, flags, s, rec);
      var below := ChainEffect(kinds[..n], flags[..n], s, rec);
      assert o == ChainTop(kinds, flags, s, rec);
      if o.ok {
        assert kinds[..n][..i] == kinds[..i] && flags[..n][..i] == flags[..i];
        ChainCode(kinds[..n], flags[..n], s, rec, i);
        StageTags(n, kinds[n], flags[n], below.st, rec, i);
      }
    }
  }

  /**
   * Over one pull, the only range stage of a chain behaves as its engine on
   * the context's `range` attribute: it raises exactly when the engine finds
   * the scope missing, adds one handler call of its own showing that scope
   * exactly when the engine fires, and leaves the engine's new state.
   */
  lemma {:induction false} ChainRange<U, M, V>(kinds: seq<StageKind<U, M, V>>, flags: seq<bool>,
                                               s: St<U, M, V>, rec: Record, i: nat)
    requires |flags| == |kinds| && OnlyRange(kinds, i)
    ensures var o := ChainEffect(kinds, flags, s, rec);
      var t := Engine(kinds[i].start, kinds[i].end, Machine(flags[i], s.view.range), rec);
      var next := if t.Fire? then t.after else Machine(flags[i], s.view.range);
      var before := CallsOf(s.log, i);
      var after := CallsOf(o.st.log, i);
      && o.ok == !t.Missing?
      && o.flags[i] == next.inRange && o.st.view.range == next.scope
      && (!t.Fire? ==> after == before)
      && (t.Fire? ==>
            && |after| == |before| + 1 && after[..|before|] == before
            && after[|before|].Called? && after[|before|].record == rec
            && after[|before|].view.range == Some(t.shown))
    decreases |kinds|
  {
    var n := |kinds| - 1;
    var below := ChainEffect(kinds[..n], flags[..n], s, rec);
    var k := kinds[i];
    var t := Engine(k.start, k.end, Machine(flags[i], s.view.range), rec);
    if i == n {
      assert RangeFree(kinds[..n]);
      RangeFreeChain(kinds[..n], flags[..n], s, rec);
      ChainTags(kinds[..n], flags[..n], s, rec, i);
      RangeEffectSpec(n, k.body, k.start, k.end, flags[n], below.st, rec);
      if t.Fire? {
        CallsOfSnoc(below.st.log, Called(i, rec, below.st.view.(range := Some(t.shown))), i);
      }
    } else {
      assert OnlyRange(kinds[..n], i);
      ChainRange(kinds[..n], flags[..n], s, rec, i);
      if below.ok {
        StageKeepsRange(n, kinds[n], flags[n], below.st, rec);
        StageTags(n, kinds[n], flags[n], below.st, rec, i);
      }
    }
  }

  /** Two range stages share the one `range` attribute: when the inner one closes its range
      while the outer one is in range, the outer one finds the scope gone and raises. */
  lemma NestedRangesClash<U, M, V>(body1: Handler<U, M, V>, start1: Matcher<M>, end1: Matcher<M>,
                                   body2: Handler<U, M, V>, start2: Matcher<M>, end2: Matcher<M>,
                                   s: St<U, M, V>, rec: Record)
    requires s.view.range.Some? && end1(rec).Some?
    ensures var o := ChainEffect([Range(body1, start1, end1), Range(body2, start2, end2)], [true, true], s, rec);
      !o.ok && o.flags == [false, true] && o.st.view.range.None?
  {
    var kinds := [Range(body1, start1, end1), Range(body2, start2, end2)];
    assert kinds[..1] == [kinds[0]] && kinds[..1][..0] == [];
    assert [true, true][..1] == [true] && [true][..0] == [];
    var below := ChainEffect(kinds[..1], [true], s, rec);
    assert below == ChainTop(kinds[..1], [true], s, rec);
    assert ChainEffect(kinds[..1][..0], [true][..0], s, rec) == Outcome([], s, true);
    assert kinds[..1][0] == Range(body1, start1, end1);
    RangeEffectSpec(0, body1, start1, end1, true, s, rec);
    assert below.ok && below.flags == [false] && below.st.view.range.None?;
    RangeEffectSpec(1, body2, start2, end2, true, below.st, rec);
    assert ChainEffect(kinds, [true, true], s, rec) == ChainTop(kinds, [true, true], s, rec);
  }
}
