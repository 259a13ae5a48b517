/**
 * What one pipeline stage does with the shared context when it has pulled a
 * record: the four iterator kinds of textchomp (every, pattern, code and
 * range), each as a function from the context state before to the context
 * state after, and the range state machine on its own.
 */
module Stages {
  import opened Wrappers
  import opened Scope

  /** A match predicate (a regex search): a match result, or None when it fails. */
  type Matcher<!M> = Record -> Option<M>

  /** The configuration of one stage: its kind, its handler and its conditions. */
  datatype StageKind<!U, !M, !V> =
    | Every(body: Handler<U, M, V>)
    | Pattern(body: Handler<U, M, V>, pattern: Matcher<M>)
    | Code(body: Handler<U, M, V>, code: Gate<U, M, V>)
    | Range(body: Handler<U, M, V>, start: Matcher<M>, end: Matcher<M>)

  /** A stage's new in-range flag, the new context state, and false when the stage raised. */
  datatype Effect<U, M, V> = Effect(inRange: bool, st: St<U, M, V>, ok: bool)

  /** The effect of a pattern stage: the handler runs, with `regex` set to the match, only on a match. */
  function PatternEffect<U, M, V>(stage: nat, body: Handler<U, M, V>, pattern: Matcher<M>,
                                  s: St<U, M, V>, rec: Record): St<U, M, V>
  {
    match pattern(rec)
    case None => s
    case Some(m) =>
      var called := Invoke(stage, body, s.(view := s.view.(regex := Some(m))), rec);
      called.(view := called.view.(regex := None))
  }

  /**
   * The effect of a code stage: the gate is evaluated with `line` set to the
   * record, `line` is removed, and only on a truthy result the handler runs
   * with `eval` set to that result.
   */
  function CodeEffect<U, M, V>(stage: nat, body: Handler<U, M, V>, code: Gate<U, M, V>,
                               s: St<U, M, V>, rec: Record): St<U, M, V>
  {
    var probe := s.view.(line := Some(rec));
    var evaluated := St(s.view.(line := None), s.log + [Evaluated(stage, probe)]);
    match code(probe)
    case None => evaluated
    case Some(v) =>
      var called := Invoke(stage, body, evaluated.(view := evaluated.view.(eval := Some(v))), rec);
      called.(view := called.view.(eval := None))
  }

  /** The state of a range stage: its own in-range flag and the context's `range` sub-scope. */
  datatype Machine<M> = Machine(inRange: bool, scope: Option<RangeScope<M>>)

  /**
   * One step of the range engine: no handler call (Idle), the sub-scope is
   * missing while the stage believes it is in range (Missing: Python raises
   * AttributeError), or a handler call that sees `shown` and leaves `after`.
   */
  datatype Tick<M> = Idle | Missing | Fire(shown: RangeScope<M>, after: Machine<M>)

  function Engine<M>(start: Matcher<M>, end: Matcher<M>, m: Machine<M>, rec: Record): Tick<M>
  {
    if !m.inRange && start(rec).None? then Idle
    else
      var scope := if m.inRange then m.scope else Some(RangeScope(start(rec).value, 0, false));
      if scope.None? then Missing
      else
        var counted := scope.value.(lineNumber := scope.value.lineNumber + 1);
        match end(rec)
        case None => Fire(counted, Machine(true, Some(counted)))
        case Some(e) => Fire(counted.(regex := e, isLastLine := true), Machine(false, None))
  }

  /** The effect of a range stage: the engine runs on the context's `range` attribute. */
  function RangeEffect<U, M, V>(stage: nat, body: Handler<U, M, V>, start: Matcher<M>, end: Matcher<M>,
                                inRange: bool, s: St<U, M, V>, rec: Record): Effect<U, M, V>
  {
    match Engine(start, end, Machine(inRange, s.view.range), rec)
    case Idle => Effect(inRange, s, true)
    case Missing => Effect(inRange, s, false)
    case Fire(shown, after) =>
      var called := Invoke(stage, body, s.(view := s.view.(range := Some(shown))), rec);
      Effect(after.inRange, called.(view := called.view.(range := after.scope)), true)
  }

  /** The effect of the stage at position `stage` of a chain on the record it pulled. */
  function StageEffect<U, M, V>(stage: nat, kind: StageKind<U, M, V>, inRange: bool,
                                s: St<U, M, V>, rec: Record): Effect<U, M, V>
  {
    match kind
    case Every(body) => Effect(inRange, Invoke(stage, body, s, rec), true)
    case Pattern(body, pattern) => Effect(inRange, PatternEffect(stage, body, pattern, s, rec), true)
    case Code(body, code) => Effect(inRange, CodeEffect(stage, body, code, s, rec), true)
    case Range(body, start, end) => RangeEffect(stage, body, start, end, inRange, s, rec)
  }

  /** The default action: append the raw line to the output (stdout, held in the user state). */
  function Print<M, V>(v: View<seq<string>, M, V>, rec: Record): seq<string>
  {
    v.user + [rec.content]
  }

  /** A pattern stage calls its handler at most once, exactly on a match, with `regex` set to
      the match; afterwards `regex` is gone and no other attribute was touched. */
  lemma PatternScoping<U, M, V>(stage: nat, body: Handler<U, M, V>, pattern: Matcher<M>,
                                s: St<U, M, V>, rec: Record)
    ensures var r := PatternEffect(stage, body, pattern, s, rec);
      && r.log[..|s.log|] == s.log
      && |r.log| == |s.log| + (if pattern(rec).Some? then 1 else 0)
      && (pattern(rec).Some? ==>
            && r.log[|s.log|] == Called(stage, rec, s.view.(regex := pattern(rec)))
            && r.view.regex == None)
      && (pattern(rec).None? ==> r.view == s.view)
      && r.view.line == s.view.line && r.view.eval == s.view.eval && r.view.range == s.view.range
  {
  }

  /** A code stage shows `line` to the gate only, calls the handler exactly when the gate is
      truthy, shows it the result as `eval` without `line`, and leaves neither attribute behind. */
  lemma CodeScoping<U, M, V>(stage: nat, body: Handler<U, M, V>, code: Gate<U, M, V>,
                             s: St<U, M, V>, rec: Record)
    ensures var probe := s.view.(line := Some(rec));
      var r := CodeEffect(stage, body, code, s, rec);
      && r.log[..|s.log|] == s.log
      && |r.log| == |s.log| + 1 + (if code(probe).Some? then 1 else 0)
      && r.log[|s.log|] == Evaluated(stage, probe)
      && (code(probe).Some? ==>
            && r.log[|s.log| + 1] == Called(stage, rec, s.view.(line := None, eval := code(probe)))
            && r.view.eval == None)
      && (code(probe).None? ==> r.view == s.view.(line := None))
      && r.view.line == None && r.view.regex == s.view.regex && r.view.range == s.view.range
  {
  }

  /** Out of range, a record the start condition rejects is skipped. */
  lemma RangeStaysOutside<M>(start: Matcher<M>, end: Matcher<M>, m: Machine<M>, rec: Record)
    requires !m.inRange && start(rec).None?
    ensures Engine(start, end, m, rec) == Idle
  {
  }

  /** Out of range, a start match opens a fresh scope whose first line is number 1; when the
      same record also matches the end the range is a single line and closes at once. */
  lemma RangeOpens<M>(start: Matcher<M>, end: Matcher<M>, m: Machine<M>, rec: Record)
    requires !m.inRange && start(rec).Some?
    ensures Engine(start, end, m, rec)
         == if end(rec).Some? then Fire(RangeScope(end(rec).value, 1, true), Machine(false, None))
            else Fire(RangeScope(start(rec).value, 1, false), Machine(true, Some(RangeScope(start(rec).value, 1, false))))
  {
  }

  /** In range, every record is handled with the line number one higher; the end match
      replaces the match, marks the last line and closes the range. */
  lemma RangeContinues<M>(start: Matcher<M>, end: Matcher<M>, sc: RangeScope<M>, rec: Record)
    ensures var t := Engine(start, end, Machine(true, Some(sc)), rec);
      && t.Fire?
      && t.shown.lineNumber == sc.lineNumber + 1
      && t.shown.isLastLine == (end(rec).Some? || sc.isLastLine)
      && t.shown.regex == (if end(rec).Some? then end(rec).value else sc.regex)
      && t.after == (if end(rec).Some? then Machine(false, None) else Machine(true, Some(t.shown)))
  {
  }

  /** A stage that believes it is in range while the sub-scope is gone raises. */
  lemma RangeMissing<M>(start: Matcher<M>, end: Matcher<M>, rec: Record)
    ensures Engine(start, end, Machine(true, None), rec) == Missing
  {
  }

  /** Whenever the stage believes a range is open, the sub-scope is there. */
  predicate Guarded<M>(m: Machine<M>)
  {
    m.inRange ==> m.scope.Some?
  }

  /** From a guarded state the engine never raises and stays guarded. */
  lemma EngineKeepsGuarded<M>(start: Matcher<M>, end: Matcher<M>, m: Machine<M>, rec: Record)
    requires Guarded(m)
    ensures var t := Engine(start, end, m, rec);
      !t.Missing? && (t.Fire? ==> Guarded(t.after))
  {
  }

  /** A range stage's handler sees the scope the engine shows; afterwards the context keeps
      the engine's new scope and nothing else changed but the user state. */
  lemma RangeEffectSpec<U, M, V>(stage: nat, body: Handler<U, M, V>, start: Matcher<M>, end: Matcher<M>,
                                 inRange: bool, s: St<U, M, V>, rec: Record)
    ensures var t := Engine(start, end, Machine(inRange, s.view.range), rec);
      var e := RangeEffect(stage, body, start, end, inRange, s, rec);
      && e.ok == !t.Missing?
      && (!t.Fire? ==> e.st == s && e.inRange == inRange)
      && (t.Fire? ==>
            && e.st.log == s.log + [Called(stage, rec, s.view.(range := Some(t.shown)))]
            && e.inRange == t.after.inRange
            && e.st.view == s.view.(user := e.st.view.user, range := t.after.scope))
  {
  }
}
