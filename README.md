# textchomp record pipeline, modelled in Dafny

textchomp (the `gawk` package) processes text the way awk does. A numbering
line source (`StringIterator`) sits at the bottom of a chain of pull-based
iterator stages. Each stage wraps the one below it. It pulls exactly one record
per `__next__`, may call a user handler with a shared `Context`, and yields
the same record unchanged. There are four kinds of stage:

- `EveryIterator` calls its handler on every record.
- `PatternIterator` calls it on a regex match, with `context.regex` set to the match.
- `CodeIterator` evaluates a code gate with `context.line` set and, on a truthy result, calls the handler with `context.eval` set.
- `RangeIterator` runs a start/end state machine. It keeps a `context.range` sub-scope (`line_number`, `is_last_line`, `regex`) for the life of a range.

The default action `_print` writes the raw line.

The model has six modules:

- `Wrappers`: `Option`.
- `Scope`: records, the context, and the log of handler calls and gate evaluations. The `Context` class holds the user state and the transient attributes `regex`, `line`, `eval` and `range`. A ghost log records each handler call and gate evaluation together with the context it saw.
- `Stages`: the effect of one stage on the context, one pure function per kind. It also holds the range engine as a state machine on `(in_range, context.range)`.
- `Chains`: the effect of a whole chain on one pulled record, and the per-pull properties.
- `Runs`: the effect of draining a chain over the whole input, and the whole-input properties.
- `Pipeline`: the imperative iterator objects. `StringIterator` and `Stage` are classes whose methods update their fields and the shared context in place. Each method is proved against the `Stages`/`Chains`/`Runs` functions.

All range stages of a chain share one `context.range` attribute, just as in the
source. Suppose an inner range stage closes its range (deleting `context.range`)
while an outer range stage is still in range. The outer stage's
`self.context.range.line_number += 1` then raises `AttributeError`. This
relies on `Context` (from `textchomp/objects.py`, which is not part of this
model) having no `__getattr__` fallback that would answer for a deleted attribute.
The model keeps this path: it is the `MissingRange` pull and the `Missing`
engine tick. `Chains.NestedRangesClash` exhibits it.
`Runs.SingleRangeRunSucceeds` proves that it cannot happen in a chain with a
single range stage, unless that stage starts out believing it is in range
while `context.range` is absent (a fresh stage starts out of range).

## Model

| member | source | states |
|---|---|---|
| Pipeline.StringIterator.Next | textchomp/internal.py:24-26 | the line number goes up by one on every call, also on the exhausting one; otherwise the result is the next raw line tagged with the new line number, which equals the count of lines consumed, and it is the head of the pending records |
| Pipeline.StringIterator.constructor | textchomp/internal.py:17-19 | a fresh source has consumed nothing, has line number 0, and will yield the lines numbered from 1 |
| Scope.Numbered | textchomp/internal.py:24-26 | the records a line source yields over a whole input, the first numbered `first` and each next one higher; one record per line; `Scope.NumberedAt`, `Scope.NumberedTail` and `Scope.ContentsOfNumbered` state what each record is |
| Scope.Invoke | textchomp/internal.py:82 | a handler call `self.body(self.context, line)` (also lines 56, 115 and 167): the handler sees the whole context, its result becomes the user state, and the call is logged with the context it saw; `Scope.Context.Call` and `Chains.ChainEvery` state it |
| Scope.NumberedAt | textchomp/internal.py:24-26 | the k-th record the source yields (0-based) carries the k-th input line and the line number k + 1 |
| Scope.NumberedTail | textchomp/internal.py:24-26 | from any position, the next record is that line with its number, and the rest is the numbering from the next position |
| Scope.ContentsOfNumbered | textchomp/internal.py:24-26 | numbering lines keeps their text: the contents of the records are the input lines |
| Scope.Context.Call | textchomp/internal.py:56 | a handler call sees the whole current context and changes only the user state; the call is logged with that context |
| Scope.Context.Evaluate | textchomp/internal.py:111 | the gate's result is the gate applied to the current context; nothing in the context changes, and the evaluation is logged |
| Pipeline.Stage.EveryNext | textchomp/internal.py:80-83 | the context's new state is one handler call on the record |
| Pipeline.Stage.PatternNext | textchomp/internal.py:51-58 | the context's new state is the pattern effect: a handler call with `regex` set to the match only on a match, with `regex` removed afterwards |
| Pipeline.Stage.CodeNext | textchomp/internal.py:108-117 | the context's new state is the code effect: the gate is evaluated with `line` set, `line` is removed, and only on a truthy result the handler runs with `eval` set, which is then removed |
| Pipeline.Stage.RangeNext | textchomp/internal.py:147-171 | the stage's new flag, the context's new state and whether it raised are those of the range engine on `(in_range, context.range)` |
| Pipeline.Stage.Step | textchomp/internal.py:51-176 | the stage's flag and the context change as the stage effect of its kind |
| Pipeline.Stage.Pull | textchomp/internal.py:52 | the pull from upstream: from the source for the first stage, through the stages below otherwise; on exhaustion only the line number changes; otherwise the stages below change their flags and the context as their chain effect on the next record, this stage's own flag is untouched, and the record comes back unless a stage below raised |
| Pipeline.Stage.Act | textchomp/internal.py:51-176 | when every stage below passed the record on, this stage's effect on top of theirs is the chain effect of the whole chain |
| Pipeline.Stage.Next | textchomp/internal.py:51-176 | one pull from the source per call, through the whole chain; on exhaustion nothing but the line number changes; otherwise all stage flags and the context change as the chain effect on the next record, and the result is that same record, or the AttributeError when a range stage found the scope missing |
| Pipeline.Stage.Advance | textchomp/internal.py:51-176 | one `__next__` of the outermost stage, as `''.join(t)` in tests/test_main.py line 25 consumes it: one pull seen against the run still to come; a yielded record is the head of that run's output and the rest of the run is what remains; exhaustion and the error each end the run with the current flags and context |
| Pipeline.Stage.Drain | textchomp/internal.py:51-176 | iterating the outermost stage to the end, as `''.join(t)` in tests/test_main.py line 25 does: pulling until exhaustion or an error gives exactly the run of the chain over the pending records; on success the output is all pending records, in order; the source's line number ends at the number of records yielded plus one |
| Pipeline.Stage.Over | textchomp/internal.py:42-142 | a stage over the source starts out of range and is the first stage of its chain |
| Pipeline.Stage.Wrap | textchomp/internal.py:42-142 | a stage over another stage shares its source and context, starts out of range and extends the chain by one |
| Pipeline.PrintMatching | textchomp/internal.py:51-188 | a pattern stage whose action is the default print, as `t.pattern('match')()` builds it, writes exactly the matching lines, in input order, and yields every line numbered from 1 |
| Pipeline.PrintAll | textchomp/internal.py:80-188 | an every stage with the default print writes back the whole input, and the yielded records' contents are the input lines |
| Stages.PatternEffect | textchomp/internal.py:51-58 | what a pattern stage does to the context on one record; `Stages.PatternScoping` states its properties |
| Stages.CodeEffect | textchomp/internal.py:108-117 | what a code stage does to the context on one record; `Stages.CodeScoping` states its properties |
| Stages.Engine | textchomp/internal.py:147-171 | one step of the range state machine on `(in_range, context.range)`: skip, raise, or fire with a scope and a new state; `Stages.RangeStaysOutside`, `Stages.RangeOpens`, `Stages.RangeContinues`, `Stages.RangeMissing` and `Stages.EngineKeepsGuarded` state its behaviour |
| Stages.RangeEffect | textchomp/internal.py:147-176 | what a range stage does to its flag and the context on one record, driven by the engine; `Stages.RangeEffectSpec` states it |
| Stages.StageEffect | textchomp/internal.py:51-176 | the effect of a stage of any kind on one record; `Chains.StageTags` and `Chains.StageKeepsRange` state its properties |
| Stages.Print | textchomp/internal.py:179-188 | the default action appends the raw line to the output; `Runs.PrintEchoes` and `Runs.PrintFilters` state what it writes over a run |
| Stages.PatternScoping | textchomp/internal.py:54-57 | a pattern stage logs one handler call exactly when the pattern matches, with `regex` set to the match; afterwards `regex` is gone, and on a miss the context is unchanged; `line`, `eval` and `range` are untouched |
| Stages.CodeScoping | textchomp/internal.py:110-116 | the gate sees `line` set to the record; the handler is called exactly when the gate is truthy, sees the result as `eval` and no `line`; afterwards neither attribute is present; `regex` and `range` are untouched |
| Stages.RangeStaysOutside | textchomp/internal.py:152-155 | out of range, a record the start rejects causes no handler call |
| Stages.RangeOpens | textchomp/internal.py:152-167 | out of range, a start match opens the range with line number 1; if the same record matches the end, the call sees the end match and the last-line mark and the range closes at once |
| Stages.RangeContinues | textchomp/internal.py:162-171 | in range, the handler is called with the line number one higher; an end match replaces the match, marks the last line and closes the range (the scope is removed), and otherwise the range stays open |
| Stages.RangeMissing | textchomp/internal.py:162 | a stage in range whose `range` scope is gone raises |
| Stages.EngineKeepsGuarded | textchomp/internal.py:147-171 | when the scope is present whenever the flag says in range, the engine never raises and keeps that so |
| Stages.RangeEffectSpec | textchomp/internal.py:147-171 | a range stage raises exactly when the engine finds the scope missing; when the engine fires, it logs one handler call showing the engine's scope and leaves the engine's new scope, changing nothing else but the user state; otherwise the context is unchanged |
| Chains.ChainEffect | textchomp/internal.py:51-176 | the effect of one pull on a chain, innermost stage first, with a stage that raises stopping the stages above it; the flags it returns cover every stage |
| Chains.ChainTop | textchomp/internal.py:51-176 | a non-empty chain's effect on one pull: the top stage acts on what the stages below left, and does not run when one of them raised; `Chains.ChainGrow` and `Chains.ChainHalt` state it |
| Chains.StageTags | textchomp/internal.py:51-171 | a stage logs handler calls only under its own position |
| Chains.ChainTags | textchomp/internal.py:51-176 | a pull through a chain logs no call under any position beyond its stages |
| Chains.StageKeepsRange | textchomp/internal.py:51-117 | every, pattern and code stages never raise, keep the range flag, and leave `context.range` alone |
| Chains.RangeFreeChain | textchomp/internal.py:51-117 | a chain without range stages never raises on a pull and keeps all flags and `context.range` |
| Chains.ChainKeepsQuiet | textchomp/internal.py:55-116 | after any pull, none of `regex`, `line`, `eval` is left on the context if none was there before |
| Chains.ChainEvery | textchomp/internal.py:80-83 | over one successful pull, an every stage adds exactly one handler call, on the pulled record |
| Chains.ChainPattern | textchomp/internal.py:51-58 | over one successful pull, a pattern stage adds one handler call exactly when its pattern matches the record, and that call sees the match as `regex` |
| Chains.CodeCalls | textchomp/internal.py:108-117 | a code stage records one handler call of its own exactly when its gate is truthy on the context with `line` set, and that call sees the result as `eval` and no `line`; the gate's evaluation is not a call |
| Chains.ChainCodeTop | textchomp/internal.py:108-117 | the same for a code stage on top of a chain, on the context the stages below it left, when none of them raised |
| Chains.ChainCode | textchomp/internal.py:108-117 | over one successful pull, a code stage adds one handler call exactly when its gate is truthy on the view the stages below it left, with `line` set to the record; that call sees the gate's result as `eval` and no `line` |
| Chains.ChainRange | textchomp/internal.py:147-176 | over one pull, the only range stage of a chain raises exactly when its engine finds the scope missing, adds one call showing the engine's scope exactly when the engine fires, and leaves the engine's new flag and scope |
| Chains.ChainGrow | textchomp/internal.py:51-176 | a stage put on top of a chain acts on what the chain left when no stage below raised: the chain effect is the stage effect after the effect of the stages below |
| Chains.ChainHalt | textchomp/internal.py:52 | when a stage below raised, the stage on top does not run: its flag and the context stay as the stages below left them |
| Chains.NestedRangesClash | textchomp/internal.py:162-171 | when an inner range stage's end matches while both range stages are in range, the inner one closes and deletes the shared scope, and the outer one raises on the same record |
| Runs.Run | tests/test_main.py:22-25 | the driver that pulls the chain until exhaustion: the flags it returns cover every stage (its behaviour is stated by the lemmas below) |
| Runs.Filter | textchomp/internal.py:51-58 | reference definition: the records on which the pattern's match succeeds, in input order; `Runs.RunPattern` and `Runs.PrintFilters` relate the pattern stage to it |
| Runs.Scan | textchomp/internal.py:147-176 | reference definition: the range engine run over a sequence of records, giving its final state, the calls it fires with their scopes, and whether it raised; `Runs.ScanAppend`, `Runs.ScanGuarded` and the range lemmas below state its properties, and `Runs.RunRange` ties a chain to it |
| Runs.RunYieldsInput | textchomp/internal.py:51-176 | a chain yields a prefix of its input records, unchanged and in order, with no drop or duplicate; all of them unless a stage raised, and fewer when one did |
| Runs.JoinReproducesInput | textchomp/internal.py:24-26 | joining the contents of what a successful chain yields over numbered lines gives the input lines back |
| Runs.RunEvery | textchomp/internal.py:80-83 | over a successful run, an every stage's handler calls are on exactly the input records, in order |
| Runs.PatternPull | textchomp/internal.py:51-58 | one pull through a pattern stage adds the record to the handled records exactly when the pattern matches it, and keeps every call carrying its record's match |
| Runs.RunPattern | textchomp/internal.py:51-58 | over a successful run, a pattern stage's handler calls are on exactly the matching records, in input order, each seeing its record's match as `regex` |
| Runs.RangePull | textchomp/internal.py:147-176 | one pull through the only range stage adds the engine's firing, record and scope, to that stage's calls and leaves the engine's new flag and scope |
| Runs.RunRange | textchomp/internal.py:147-176 | over a run, the only range stage's handler calls, error and final flag and scope are exactly those of the range engine scanning the input |
| Runs.RangeFreeRunSucceeds | textchomp/internal.py:51-117 | a chain without range stages never raises over any input |
| Runs.ScanGuarded | textchomp/internal.py:147-171 | from a state where the scope is present whenever the flag says in range, the range engine never raises over any input and keeps that so |
| Runs.SingleRangeRunSucceeds | textchomp/internal.py:147-176 | a chain with one range stage never raises over any input, provided the stage does not start in range without `context.range` |
| Runs.ScanAppend | textchomp/internal.py:147-176 | the range engine over two inputs one after the other is the scan of the first followed by the scan of the second from where the first left the engine, unless the first raised, which ends the scan |
| Runs.ScanOutside | textchomp/internal.py:152-155 | out of range, records the start rejects cause no handler call and leave the engine's state as it was |
| Runs.ScanUnterminated | textchomp/internal.py:162-169 | in range, while no record matches the end, every record is handled, the line number goes up by exactly one per record, the match and last-line mark stay, and the range stays open |
| Runs.ScanThroughEnd | textchomp/internal.py:162-171 | in range, when only the last record matches the end, every record is handled with line numbers going up by one; only the last call sees the end match and the last-line mark; then the stage is out of range and the scope is gone |
| Runs.RangeClosure | textchomp/internal.py:152-171 | a range from a start match to its first end match calls the handler on every record of it, numbered 1 to k; the calls before the last see the start match and no last-line mark, and the last sees both the end match and the mark; then the range is closed and the scope gone |
| Runs.RangeNeverCloses | textchomp/internal.py:152-169 | a range whose end never matches stays open to the end of the input: every record from the start on is handled, numbered 1 to k, and no call sees the last-line mark; the stage ends in range with the scope numbered k |
| Runs.ScanPrefixThenRange | textchomp/internal.py:152-171 | over a whole input whose records before the start match are all rejected by the start, nothing before the start match is handled, the range's records are handled as a closed range numbered 1 to k, and the rest is scanned afresh from a closed range |
| Runs.ScanPrefixThenOpenRange | textchomp/internal.py:152-169 | over a whole input whose records before the start match are all rejected by the start and whose end never matches later, exactly the records from the start match on are handled, numbered 1 to k, and the range stays open |
| Runs.ChainPrefixThenRange | textchomp/internal.py:147-176 | the same whole input through a chain whose only range stage starts out of range: the stage's handler calls are its earlier ones, then one per record of the range with the closed range's scopes, then the engine's calls over the rest; the error, flag and scope are those of the rest |
| Runs.ChainPrefixThenOpenRange | textchomp/internal.py:147-176 | the same for a range that never closes, through the chain: no error, one call per record of the range numbered 1 to k, and the stage ends in range with `context.range` numbered k |
| Runs.PrintEchoes | textchomp/internal.py:179-188 | the default action on an every stage writes every input line, in order, and never raises |
| Runs.PrintFilters | textchomp/internal.py:179-188 | the default action on a pattern stage writes exactly the matching lines, in order, and never raises |

## Left out

- The code gate's `eval(self.code, None, vars(self.context))` is a parameter `code` of the model: a function from the context's attributes to an optional result. Executing Python is out of reach. `None` stands for every falsy result, so the model does not tell a falsy value apart from an absent one.
- The regex engine behind `pattern`, `start` and `end` is out of scope. These are parameters returning an optional match.
- `sys.stdout.write` in `_print` is I/O. The model's `Print` appends the line to the output held in the user state.
- Handlers are functions from the context and the record to a new user state. A real handler may do anything, for example delete `regex` itself or set `range`; the model lets it change only the user state.
- `Context` and `String` come from `textchomp/objects.py`, which is not part of this model. The model keeps only the attributes the stages read and write. The `range` sub-context is a value (`RangeScope`), not a second `Context` object, so a handler's changes to it are not modelled.
- The `gawk.Gawk` builder that assembles chains (`grep`, `pattern`, `run`, `begin`) is not part of this model. `Stage.Over`, `Stage.Wrap` and `Drain` stand in for the chains it assembles. `Pipeline.PrintMatching` is a pattern stage with the default print, as `t.pattern('match')()` builds it (textchomp/internal.py:184), and it yields every record; `grep` yields only the matching records (tests/test_main.py:28-31); how the builder arranges that is not part of this model, and `PrintMatching` does not model it.
- Exceptions raised by handlers, gates, patterns or the upstream iterator are out of scope. In the source they leave `regex`, `line`, `eval` or `range` behind because the `del` is skipped. The one exception the model keeps is the `AttributeError` of a range stage whose scope is gone, yielded as `MissingRange`.
- `__iter__` just returns the object itself and is not modelled.
- Pipeline.StringIterator: the source wraps any iterator of strings. The model wraps a finite sequence of lines, so an endless or lazily produced input is out of scope.
- Pipeline.Stage.Next: once a pull has raised, Python propagates the exception and the consumer stops. The model returns `MissingRange` and leaves the stages above the failing one untouched for that record.
