/** `Toys::Executor`: builds a tool's data from its defaults, folds the flag
    occurrences through their handlers, binds the positional tokens to the
    required, optional and remaining args, and runs the script inside the
    middleware chain with the logger level narrowed for the duration.

    The executor's methods thread the data hash through as a `map` value.
    The hash is also handed to the tool object the middlewares and the script
    run against; their actions here only read the data, so writes through
    that shared hash are not part of this model. */
module Execution {
  import opened Base
  import opened Composition
  import opened ToolModel
  import Definition

  /** The logger; only its level is modelled. */
  class Logger {
    var level: int

    constructor (level: int)
      ensures this.level == level
    {
      this.level := level;
    }
  }

  /** The part of the CLI object the executor uses. */
  class Cli {
    const logger: Logger
    const baseLevel: int

    constructor (logger: Logger, baseLevel: int)
      ensures this.logger == logger && this.baseLevel == baseLevel
    {
      this.logger := logger;
      this.baseLevel := baseLevel;
    }
  }

  /** One flag occurrence OptionParser reports: the flag and its value. */
  datatype Occurrence = Occurrence(flag: Flag, value: Value)

  /** How `optparse.parse(args)` ends: with the non-option tokens, or with an
      OptionParser::ParseError. */
  datatype ParseOutcome = Leftover(tokens: seq<string>) | ParseFailed(reason: string, path: seq<string>)

  /** The flag blocks OptionParser fired, in order, and how it ended. Blocks
      fired before a parse error have already updated the data. */
  datatype OptParse = OptParse(fired: seq<Occurrence>, outcome: ParseOutcome)

  /** The code the executor calls whose behaviour is not part of this model:
      OptionParser loaded with the tool's active flags, `Arg#process_value`,
      and the custom handler procs, called with (new value, previous value). */
  datatype Collaborators = Collaborators(
    parse: (seq<Flag>, seq<string>) -> OptParse,
    process: (Arg, string) -> Value,
    call: (nat, Value, Value) -> Value)

  // --------------------------------------------------------------- create_data

  /** The tool's defaults with the five reserved keys set on top. */
  function InitialData(st: ToolState, args: seq<string>, verbosity: int): (data: map<Key, Value>)
    ensures data.Keys == st.defaultData.Keys + RESERVED_KEYS
    ensures forall k :: k in st.defaultData && k !in RESERVED_KEYS ==> data[k] == st.defaultData[k]
    ensures data[ToolDefinitionKey] == DefinitionRef && data[ToolNameKey] == Strings(st.fullName)
    ensures data[VerbosityKey] == Int(verbosity) && data[ArgsKey] == Strings(args)
    ensures data[UsageErrorKey] == Nil
  {
    st.defaultData[ToolDefinitionKey := DefinitionRef][ToolNameKey := Strings(st.fullName)]
      [VerbosityKey := Int(verbosity)][ArgsKey := Strings(args)][UsageErrorKey := Nil]
  }

  // ------------------------------------------------------------ flag handlers

  function CallHandler(call: (nat, Value, Value) -> Value, h: Handler, val: Value, prev: Value): (r: Value)
    ensures h.ReplaceHandler? ==> r == val
    ensures h.CustomHandler? ==> r == call(h.id, val, prev)
  {
    match h
    case ReplaceHandler => val
    case CustomHandler(id) => call(id, val, prev)
  }

  /** One flag block: `data[flag.key] = flag.handler.call(val, data[flag.key])`. */
  function Fire(data: map<Key, Value>, o: Occurrence, call: (nat, Value, Value) -> Value): map<Key, Value>
  {
    data[o.flag.key := CallHandler(call, o.flag.handler, o.value, Lookup(data, o.flag.key))]
  }

  /** The blocks fired in order. */
  function FoldFlags(data: map<Key, Value>, occs: seq<Occurrence>, call: (nat, Value, Value) -> Value): map<Key, Value>
    decreases |occs|
  {
    if |occs| == 0 then data else FoldFlags(Fire(data, occs[0], call), occs[1..], call)
  }

  /** The value one key ends with: the handlers of the occurrences for that
      key applied left to right, starting from its value before parsing. */
  function FoldKey(occs: seq<Occurrence>, k: Key, v: Value, call: (nat, Value, Value) -> Value): Value
    decreases |occs|
  {
    if |occs| == 0 then v
    else
      var o := occs[0];
      FoldKey(occs[1..], k, if o.flag.key == k then CallHandler(call, o.flag.handler, o.value, v) else v, call)
  }

  /** Folding one more occurrence applies its handler last. */
  lemma {:induction false} FoldKeySnoc(occs: seq<Occurrence>, o: Occurrence, k: Key, v: Value,
                                       call: (nat, Value, Value) -> Value)
    ensures FoldKey(occs + [o], k, v, call) ==
      var before := FoldKey(occs, k, v, call);
      if o.flag.key == k then CallHandler(call, o.flag.handler, o.value, before) else before
    decreases |occs|
  {
    if |occs| == 0 {
      assert (occs + [o])[1..] == [];
    } else {
      assert (occs + [o])[0] == occs[0];
      assert (occs + [o])[1..] == occs[1..] + [o];
      var first := occs[0];
      FoldKeySnoc(occs[1..], o, k,
                  if first.flag.key == k then CallHandler(call, first.flag.handler, first.value, v) else v, call);
    }
  }

  /** With the default handler the last occurrence of a flag wins: whatever
      came before, the key ends with the value given last. */
  lemma LastOccurrenceWins(data: map<Key, Value>, occs: seq<Occurrence>, k: Key,
                           call: (nat, Value, Value) -> Value)
    requires |occs| > 0 && occs[|occs| - 1].flag.key == k
    requires occs[|occs| - 1].flag.handler.ReplaceHandler?
    ensures Lookup(FoldFlags(data, occs, call), k) == occs[|occs| - 1].value
    ensures k in FoldFlags(data, occs, call)
  {
    var n := |occs| - 1;
    assert occs == occs[..n] + [occs[n]];
    FoldKeySnoc(occs[..n], occs[n], k, Lookup(data, k), call);
    FoldFlagsPerKey(data, occs, k, call);
    FoldFlagsAddsKey(data, occs, n, call);
  }

  /** A key that has an occurrence is present after the fold. */
  lemma {:induction false} FoldFlagsAddsKey(data: map<Key, Value>, occs: seq<Occurrence>, i: nat,
                                            call: (nat, Value, Value) -> Value)
    requires i < |occs|
    ensures occs[i].flag.key in FoldFlags(data, occs, call)
    decreases |occs|
  {
    var next := Fire(data, occs[0], call);
    if i == 0 {
      FoldFlagsPerKey(next, occs[1..], occs[0].flag.key, call);
    } else {
      assert occs[1..][i - 1] == occs[i];
      FoldFlagsAddsKey(next, occs[1..], i - 1, call);
    }
  }

  /** Each key of the data ends with the left fold of its own occurrences'
      handlers over its starting value, keys without occurrences are left
      alone, and no key is dropped. */
  lemma {:induction false} FoldFlagsPerKey(data: map<Key, Value>, occs: seq<Occurrence>, k: Key,
                                           call: (nat, Value, Value) -> Value)
    ensures Lookup(FoldFlags(data, occs, call), k) == FoldKey(occs, k, Lookup(data, k), call)
    ensures k in data ==> k in FoldFlags(data, occs, call)
    ensures (forall i :: 0 <= i < |occs| ==> occs[i].flag.key != k) ==>
      Lookup(FoldFlags(data, occs, call), k) == Lookup(data, k) &&
      (k in FoldFlags(data, occs, call) <==> k in data)
    decreases |occs|
  {
    if |occs| > 0 {
      var next := Fire(data, occs[0], call);
      FoldFlagsPerKey(next, occs[1..], k, call);
      if (forall i :: 0 <= i < |occs| ==> occs[i].flag.key != k) {
        assert forall i :: 0 <= i < |occs[1..]| ==> occs[1..][i].flag.key != k by {
          forall i | 0 <= i < |occs[1..]| ensures occs[1..][i].flag.key != k {
            assert occs[1..][i] == occs[i + 1];
          }
        }
      }
    }
  }

  /** Two occurrences of one flag with a summing handler, values 3 then 4,
      default 0: the result is handler(4, handler(3, 0)). */
  lemma HandlerAppliedInOrder(data: map<Key, Value>, flag: Flag, call: (nat, Value, Value) -> Value)
    requires flag.handler.CustomHandler? && data.Keys == {flag.key} && data[flag.key] == Int(0)
    requires forall a, b :: call(flag.handler.id, Int(a), Int(b)) == Int(a + b)
    ensures var d := FoldFlags(data, [Occurrence(flag, Int(3)), Occurrence(flag, Int(4))], call);
      Lookup(d, flag.key) == call(flag.handler.id, Int(4), call(flag.handler.id, Int(3), Int(0))) == Int(7)
  {
    var occs := [Occurrence(flag, Int(3)), Occurrence(flag, Int(4))];
    var id := flag.handler.id;
    FoldFlagsPerKey(data, occs, flag.key, call);
    assert occs[1..] == [Occurrence(flag, Int(4))];
    assert occs[1..][1..] == [];
    assert call(id, Int(3), Int(0)) == Int(3);
    assert call(id, Int(4), Int(3)) == Int(7);
    assert FoldKey(occs, flag.key, Int(0), call) == FoldKey(occs[1..], flag.key, Int(3), call);
    assert FoldKey(occs[1..], flag.key, Int(3), call) == FoldKey([], flag.key, Int(7), call);
  }

  // ---------------------------------------------------------- positional args

  /** Binding `defs[i]` to the processed `tokens[i]`, in order; a later
      definition with the same key overwrites an earlier one. */
  function Assign(data: map<Key, Value>, defs: seq<Arg>, tokens: seq<string>,
                  process: (Arg, string) -> Value): map<Key, Value>
    requires |defs| == |tokens|
    decreases |defs|
  {
    if |defs| == 0 then data
    else
      var n := |defs| - 1;
      Assign(data, defs[..n], tokens[..n], process)[defs[n].key := process(defs[n], tokens[n])]
  }

  ghost predicate DistinctKeys(defs: seq<Arg>)
  {
    forall i, j :: 0 <= i < j < |defs| ==> defs[i].key != defs[j].key
  }

  /** With distinct keys, the i-th definition holds the i-th token processed. */
  lemma {:induction false} AssignAt(data: map<Key, Value>, defs: seq<Arg>, tokens: seq<string>,
                                    process: (Arg, string) -> Value, i: nat)
    requires |defs| == |tokens| && DistinctKeys(defs) && i < |defs|
    ensures defs[i].key in Assign(data, defs, tokens, process)
    ensures Assign(data, defs, tokens, process)[defs[i].key] == process(defs[i], tokens[i])
    decreases |defs|
  {
    var n := |defs| - 1;
    if i < n {
      assert DistinctKeys(defs[..n]);
      assert defs[..n][i] == defs[i] && tokens[..n][i] == tokens[i];
      AssignAt(data, defs[..n], tokens[..n], process, i);
    }
  }

  /** Keys no definition names are left as they were. */
  lemma {:induction false} AssignElsewhere(data: map<Key, Value>, defs: seq<Arg>, tokens: seq<string>,
                                           process: (Arg, string) -> Value, k: Key)
    requires |defs| == |tokens| && forall i :: 0 <= i < |defs| ==> defs[i].key != k
    ensures Lookup(Assign(data, defs, tokens, process), k) == Lookup(data, k)
    ensures k in Assign(data, defs, tokens, process) <==> k in data
    decreases |defs|
  {
    if |defs| > 0 {
      var n := |defs| - 1;
      assert forall i :: 0 <= i < n ==> defs[..n][i].key != k by {
        forall i | 0 <= i < n ensures defs[..n][i].key != k {
          assert defs[..n][i] == defs[i];
        }
      }
      AssignElsewhere(data, defs[..n], tokens[..n], process, k);
    }
  }

  /** The data after one stage of positional binding, the tokens it left,
      and the usage error it raised, if any. */
  datatype Binding = Binding(data: map<Key, Value>, rest: seq<string>, error: Option<Value>)

  function MissingArgument(arg: Arg, args: seq<string>): Value
  {
    UsageError("No value given for required argument " + arg.displayName, args)
  }

  function Min(a: nat, b: nat): nat
  {
    if a < b then a else b
  }

  /** `parse_required_args`: one token per required arg in order; when the
      tokens run out, the error names the first arg left without one. */
  function BindRequired(req: seq<Arg>, remaining: seq<string>, args: seq<string>, data: map<Key, Value>,
                        process: (Arg, string) -> Value): Binding
  {
    if |remaining| < |req|
    then Binding(Assign(data, req[..|remaining|], remaining, process), [],
                 Some(MissingArgument(req[|remaining|], args)))
    else Binding(Assign(data, req, remaining[..|req|], process), remaining[|req|..], None)
  }

  /** `parse_optional_args`: one token per optional arg in order while tokens
      last; running out is not an error. */
  function BindOptional(opt: seq<Arg>, remaining: seq<string>, data: map<Key, Value>,
                        process: (Arg, string) -> Value): Binding
  {
    var k := Min(|opt|, |remaining|);
    Binding(Assign(data, opt[..k], remaining[..k], process), remaining[k..], None)
  }

  /** `parse_remaining_args`: nothing left is fine; leftovers go to the
      remaining-args definition, processed in order; without one, they are
      extra arguments to a tool with a script, or a tool that was not found. */
  function BindRemaining(st: ToolState, remaining: seq<string>, args: seq<string>, data: map<Key, Value>,
                         process: (Arg, string) -> Value): Binding
  {
    if |remaining| == 0 then Binding(data, [], None)
    else if st.remaining.None? then
      Binding(data, remaining,
              Some(if st.IncludesScript() then UsageError("Extra arguments provided", remaining)
                   else UsageError("Tool not found", st.fullName + args)))
    else
      var arg := st.remaining.value;
      Binding(data[arg.key := List(seq(|remaining|, i requires 0 <= i < |remaining| => process(arg, remaining[i])))],
              [], None)
  }

  /** `parse_args`: flags, then required, optional and remaining args; a parse
      error stops the stages and is recorded under the usage-error key. */
  function ParsedData(st: ToolState, co: Collaborators, args: seq<string>, data: map<Key, Value>): map<Key, Value>
  {
    var p := co.parse(st.flags, args);
    var flagged := FoldFlags(data, p.fired, co.call);
    match p.outcome
    case ParseFailed(reason, path) => flagged[UsageErrorKey := UsageError(reason, path)]
    case Leftover(tokens) =>
      var req := BindRequired(st.required, tokens, args, flagged, co.process);
      if req.error.Some? then req.data[UsageErrorKey := req.error.value]
      else
        var opt := BindOptional(st.optional, req.rest, req.data, co.process);
        var rem := BindRemaining(st, opt.rest, args, opt.data, co.process);
        if rem.error.Some? then rem.data[UsageErrorKey := rem.error.value] else rem.data
  }

  // ------------------------------------------------------------------ running

  datatype Event = Event(note: string, level: int)

  /** How a run ends: normally, by `throw :result, code`, or by an exception. */
  datatype Signal = Continue | Thrown(code: int) | Raised(message: string)

  datatype Run = Run(trace: seq<Event>, signal: Signal)

  /** Running `a` and then, if it ended normally, `b`. */
  function Then(a: Run, b: Run): Run
  {
    if a.signal.Continue? then Run(a.trace + b.trace, b.signal) else a
  }

  /** A sequence of actions, each event recorded at the logger's level. */
  function RunActions(acts: seq<Action>, data: map<Key, Value>, level: int): Run
    decreases |acts|
  {
    if |acts| == 0 then Run([], Continue)
    else
      match acts[0]
      case Emit(note) => Then(Run([Event(note, level)], Continue), RunActions(acts[1..], data, level))
      case Exit(code) => Run([], Thrown(code))
      case Raise(message) => Run([], Raised(message))
      case ExitOnUsageError(code) =>
        if Lookup(data, UsageErrorKey) != Nil then Run([], Thrown(code)) else RunActions(acts[1..], data, level)
  }

  /** The fatal line logged for a tool without a script; `inspect` quotes
      the display name. */
  function NoImplementation(st: ToolState): string
  {
    "No implementation for tool \"" + st.DisplayName() + "\""
  }

  /** The terminal continuation: the script, or for a tool without one, a
      fatal log and `exit(-1)`. */
  function Body(st: ToolState, data: map<Key, Value>, level: int): Run
  {
    if st.script.Some? then RunActions(st.script.value.actions, data, level)
    else Run([Event(NoImplementation(st), level)], Thrown(-1))
  }

  /** Calling the composed execution proc. */
  function RunChain(c: Chain<Middleware>, body: Run, data: map<Key, Value>, level: int): Run
    decreases c
  {
    match c
    case Terminal => body
    case Layer(m, inner) =>
      Then(RunActions(m.exec.before, data, level),
           Then(if m.exec.proceed then RunChain(inner, body, data, level) else Run([], Continue),
                RunActions(m.exec.after, data, level)))
  }

  datatype ExecResult = Exited(code: int, trace: seq<Event>) | Crashed(message: string, trace: seq<Event>)

  /** `catch(:result) { executor.call; 0 }`: a thrown code is the exit code,
      a normal end is 0, an exception goes on to the caller. */
  function CatchResult(r: Run): (e: ExecResult)
    ensures r.signal.Continue? ==> e == Exited(0, r.trace)
    ensures r.signal.Thrown? ==> e == Exited(r.signal.code, r.trace)
    ensures r.signal.Raised? ==> e == Crashed(r.signal.message, r.trace)
  {
    match r.signal
    case Continue => Exited(0, r.trace)
    case Thrown(code) => Exited(code, r.trace)
    case Raised(message) => Crashed(message, r.trace)
  }

  /** `execute`: create and parse the data, narrow the logger level by the
      parsed verbosity and run the chain. A verbosity that is not an integer
      makes the subtraction raise before the level is touched. */
  function Executed(st: ToolState, stack: seq<Middleware>, co: Collaborators, baseLevel: int,
                    args: seq<string>, verbosity: int): ExecResult
  {
    var data := ParsedData(st, co, args, InitialData(st, args, verbosity));
    match Lookup(data, VerbosityKey)
    case Int(v) => CatchResult(RunChain(Nest(stack), Body(st, data, baseLevel - v), data, baseLevel - v))
    case _ => Crashed("TypeError", [])
  }

  // -------------------------------------------------------------- the executor

  class Executor {
    const cli: Cli
    const tool: Definition.Tool
    const co: Collaborators

    constructor (cli: Cli, tool: Definition.Tool, co: Collaborators)
      ensures this.cli == cli && this.tool == tool && this.co == co
    {
      this.cli := cli;
      this.tool := tool;
      this.co := co;
    }

    /** The logger level is restored whatever the execution does. */
    method Execute(args: seq<string>, verbosity: int := 0) returns (r: ExecResult)
      modifies cli.logger
      ensures cli.logger.level == old(cli.logger.level)
      ensures r == Executed(tool.State(), tool.middlewareStack, co, cli.baseLevel, args, verbosity)
    {
      var data := CreateData(args, verbosity);
      data := ParseArgs(args, data);
      var originalLevel := cli.logger.level;
      var v := Lookup(data, VerbosityKey);
      if !v.Int? {
        return Crashed("TypeError", []);
      }
      cli.logger.level := cli.baseLevel - v.i;
      r := PerformExecution(data);
      cli.logger.level := originalLevel;
    }

    method CreateData(args: seq<string>, baseVerbosity: int) returns (data: map<Key, Value>)
      ensures data == InitialData(tool.State(), args, baseVerbosity)
    {
      data := tool.defaultData;
      data := data[ToolDefinitionKey := DefinitionRef];
      data := data[ToolNameKey := Strings(tool.fullName)];
      data := data[VerbosityKey := Int(baseVerbosity)];
      data := data[ArgsKey := Strings(args)];
      data := data[UsageErrorKey := Nil];
    }

    method ParseArgs(args: seq<string>, data: map<Key, Value>) returns (d: map<Key, Value>)
      ensures d == ParsedData(tool.State(), co, args, data)
    {
      var p := co.parse(tool.flagDefinitions, args);
      d := FireFlags(p.fired, data);
      if p.outcome.ParseFailed? {
        return d[UsageErrorKey := UsageError(p.outcome.reason, p.outcome.path)];
      }
      var b := ParseRequiredArgs(p.outcome.tokens, args, d);
      if b.error.Some? {
        return b.data[UsageErrorKey := b.error.value];
      }
      b := ParseOptionalArgs(b.rest, b.data);
      b := ParseRemainingArgs(b.rest, args, b.data);
      if b.error.Some? {
        return b.data[UsageErrorKey := b.error.value];
      }
      d := b.data;
    }

    /** The flag blocks `create_option_parser` installs, as OptionParser fires
        them. */
    method FireFlags(occs: seq<Occurrence>, data: map<Key, Value>) returns (d: map<Key, Value>)
      ensures d == FoldFlags(data, occs, co.call)
    {
      d := data;
      var i := 0;
      while i < |occs|
        invariant 0 <= i <= |occs|
        invariant FoldFlags(d, occs[i..], co.call) == FoldFlags(data, occs, co.call)
      {
        var flag := occs[i].flag;
        assert occs[i..][0] == occs[i] && occs[i..][1..] == occs[i + 1..];
        d := d[flag.key := CallHandler(co.call, flag.handler, occs[i].value, Lookup(d, flag.key))];
        i := i + 1;
      }
    }

    method ParseRequiredArgs(remaining: seq<string>, args: seq<string>, data: map<Key, Value>)
      returns (b: Binding)
      ensures b == BindRequired(tool.requiredArgDefinitions, remaining, args, data, co.process)
    {
      var req := tool.requiredArgDefinitions;
      var rest := remaining;
      var d := data;
      var i := 0;
      while i < |req|
        invariant 0 <= i <= |req| && i <= |remaining|
        invariant rest == remaining[i..]
        invariant d == Assign(data, req[..i], remaining[..i], co.process)
      {
        if |rest| == 0 {
          assert remaining[..i] == remaining;
          return Binding(d, [], Some(MissingArgument(req[i], args)));
        }
        assert req[..i + 1][..i] == req[..i] && remaining[..i + 1][..i] == remaining[..i];
        d := d[req[i].key := co.process(req[i], rest[0])];
        rest := rest[1..];
        i := i + 1;
      }
      assert req[..i] == req;
      b := Binding(d, rest, None);
    }

    method ParseOptionalArgs(remaining: seq<string>, data: map<Key, Value>) returns (b: Binding)
      ensures b == BindOptional(tool.optionalArgDefinitions, remaining, data, co.process)
    {
      var opt := tool.optionalArgDefinitions;
      var rest := remaining;
      var d := data;
      var i := 0;
      while i < |opt|
        invariant 0 <= i <= |opt| && i <= |remaining|
        invariant rest == remaining[i..]
        invariant d == Assign(data, opt[..i], remaining[..i], co.process)
      {
        if |rest| == 0 {
          break;
        }
        assert opt[..i + 1][..i] == opt[..i] && remaining[..i + 1][..i] == remaining[..i];
        d := d[opt[i].key := co.process(opt[i], rest[0])];
        rest := rest[1..];
        i := i + 1;
      }
      assert i == Min(|opt|, |remaining|);
      b := Binding(d, rest, None);
    }

    method ParseRemainingArgs(remaining: seq<string>, args: seq<string>, data: map<Key, Value>)
      returns (b: Binding)
      ensures b == BindRemaining(tool.State(), remaining, args, data, co.process)
    {
      if |remaining| == 0 {
        return Binding(data, [], None);
      }
      if tool.remainingArgsDefinition.None? {
        if tool.IncludesScript() {
          return Binding(data, remaining, Some(UsageError("Extra arguments provided", remaining)));
        }
        return Binding(data, remaining, Some(UsageError("Tool not found", tool.fullName + args)));
      }
      var arg := tool.remainingArgsDefinition.value;
      var values := seq(|remaining|, i requires 0 <= i < |remaining| => co.process(arg, remaining[i]));
      b := Binding(data[arg.key := List(values)], [], None);
    }

    /** `perform_execution`: wrap the body in the middlewares, first entry
        outermost, and catch `:result`. */
    method PerformExecution(data: map<Key, Value>) returns (r: ExecResult)
      ensures r == CatchResult(RunChain(Nest(tool.middlewareStack),
                                        Body(tool.State(), data, cli.logger.level), data, cli.logger.level))
    {
      var chain := WrapAll(tool.middlewareStack);
      r := CatchResult(RunChain(chain, Body(tool.State(), data, cli.logger.level), data, cli.logger.level));
    }
  }
}
