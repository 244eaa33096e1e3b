/** What `Toys::Executor` promises about the data a tool runs with and about
    the way the middleware chain runs: each positional stage in terms of the
    tokens OptionParser leaves, the flag fold per key, the reserved keys, the
    log level and the exit code. */
module ExecutionLaws {
  import opened Base
  import opened Composition
  import opened ToolModel
  import opened Execution

  /** The positional args have distinct keys, none of them the usage-error
      key. */
  ghost predicate KeysApart(st: ToolState)
  {
    var defs := st.ArgDefinitions();
    DistinctKeys(defs) && forall i :: 0 <= i < |defs| ==> defs[i].key != UsageErrorKey
  }

  ghost predicate NotAmong(defs: seq<Arg>, k: Key)
  {
    forall i :: 0 <= i < |defs| ==> defs[i].key != k
  }

  /** The key-distinctness facts the three stages need. */
  lemma KeysApartParts(st: ToolState)
    requires KeysApart(st)
    ensures DistinctKeys(st.required) && DistinctKeys(st.optional)
    ensures forall j :: 0 <= j < |st.optional| ==> NotAmong(st.required, st.optional[j].key)
    ensures forall i :: 0 <= i < |st.required| ==> NotAmong(st.optional, st.required[i].key)
    ensures NotAmong(st.required, UsageErrorKey) && NotAmong(st.optional, UsageErrorKey)
    ensures st.remaining.Some? ==>
      && NotAmong(st.required, st.remaining.value.key)
      && NotAmong(st.optional, st.remaining.value.key)
      && st.remaining.value.key != UsageErrorKey
  {
    var defs := st.ArgDefinitions();
    var r, o := |st.required|, |st.optional|;
    assert forall i :: 0 <= i < r ==> st.required[i] == defs[..r][i] == defs[i];
    assert forall j :: 0 <= j < o ==> st.optional[j] == defs[r..r + o][j] == defs[r + j];
  }

  lemma PrefixDistinct(defs: seq<Arg>, k: nat)
    requires DistinctKeys(defs) && k <= |defs|
    ensures DistinctKeys(defs[..k])
  {
    assert forall i :: 0 <= i < k ==> defs[..k][i] == defs[i];
  }

  lemma PrefixNotAmong(defs: seq<Arg>, key: Key, k: nat)
    requires NotAmong(defs, key) && k <= |defs|
    ensures NotAmong(defs[..k], key)
  {
    assert forall i :: 0 <= i < k ==> defs[..k][i] == defs[i];
  }

  /** The data after the flag blocks OptionParser fired. */
  function Flagged(st: ToolState, co: Collaborators, args: seq<string>, data: map<Key, Value>): map<Key, Value>
  {
    FoldFlags(data, co.parse(st.flags, args).fired, co.call)
  }

  /** A parse error is recorded and stops the positional stages: every other
      key holds what the flag blocks fired before the error left. */
  lemma ParseErrorRecorded(st: ToolState, co: Collaborators, args: seq<string>, data: map<Key, Value>, k: Key)
    requires co.parse(st.flags, args).outcome.ParseFailed?
    ensures var o := co.parse(st.flags, args).outcome;
      Lookup(ParsedData(st, co, args, data), UsageErrorKey) == UsageError(o.reason, o.path)
    ensures k != UsageErrorKey ==> Lookup(ParsedData(st, co, args, data), k) == Lookup(Flagged(st, co, args, data), k)
  {
  }

  /** Required args take the tokens in declaration order, whether or not
      enough of them are there. */
  lemma RequiredArgsBound(st: ToolState, co: Collaborators, args: seq<string>, data: map<Key, Value>,
                          tokens: seq<string>, i: nat)
    requires co.parse(st.flags, args).outcome == Leftover(tokens)
    requires KeysApart(st) && i < |st.required| && i < |tokens|
    ensures Lookup(ParsedData(st, co, args, data), st.required[i].key) == co.process(st.required[i], tokens[i])
  {
    KeysApartParts(st);
    var req, key := st.required, st.required[i].key;
    var flagged := Flagged(st, co, args, data);
    var b := BindRequired(req, tokens, args, flagged, co.process);
    if |tokens| < |req| {
      PrefixDistinct(req, |tokens|);
      assert req[..|tokens|][i] == req[i];
      AssignAt(flagged, req[..|tokens|], tokens, co.process, i);
    } else {
      AssignAt(flagged, req, tokens[..|req|], co.process, i);
      assert b.data[key] == co.process(req[i], tokens[i]);
      var opt := BindOptional(st.optional, b.rest, b.data, co.process);
      var k := Min(|st.optional|, |b.rest|);
      PrefixNotAmong(st.optional, key, k);
      AssignElsewhere(b.data, st.optional[..k], b.rest[..k], co.process, key);
      assert Lookup(opt.data, key) == co.process(req[i], tokens[i]);
    }
  }

  /** With fewer tokens than required args, the usage error names the first
      required arg without one, and the optional and remaining args keep
      their values. */
  lemma MissingRequiredArg(st: ToolState, co: Collaborators, args: seq<string>, data: map<Key, Value>,
                           tokens: seq<string>)
    requires co.parse(st.flags, args).outcome == Leftover(tokens) && |tokens| < |st.required|
    ensures Lookup(ParsedData(st, co, args, data), UsageErrorKey) == MissingArgument(st.required[|tokens|], args)
    ensures KeysApart(st) ==> forall j :: 0 <= j < |st.optional| ==>
      Lookup(ParsedData(st, co, args, data), st.optional[j].key)
        == Lookup(Flagged(st, co, args, data), st.optional[j].key)
    ensures KeysApart(st) && st.remaining.Some? ==>
      Lookup(ParsedData(st, co, args, data), st.remaining.value.key)
        == Lookup(Flagged(st, co, args, data), st.remaining.value.key)
  {
    var flagged := Flagged(st, co, args, data);
    var req := st.required;
    var n := |tokens|;
    if KeysApart(st) {
      KeysApartParts(st);
      forall j | 0 <= j < |st.optional|
        ensures Lookup(ParsedData(st, co, args, data), st.optional[j].key) == Lookup(flagged, st.optional[j].key)
      {
        PrefixNotAmong(req, st.optional[j].key, n);
        AssignElsewhere(flagged, req[..n], tokens, co.process, st.optional[j].key);
      }
      if st.remaining.Some? {
        PrefixNotAmong(req, st.remaining.value.key, n);
        AssignElsewhere(flagged, req[..n], tokens, co.process, st.remaining.value.key);
      }
    }
  }

  /** Optional args take the tokens after the required ones, in order, while
      tokens last; the rest keep the value they had. */
  lemma OptionalArgsBound(st: ToolState, co: Collaborators, args: seq<string>, data: map<Key, Value>,
                          tokens: seq<string>, j: nat)
    requires co.parse(st.flags, args).outcome == Leftover(tokens) && |st.required| <= |tokens|
    requires KeysApart(st) && j < |st.optional|
    ensures Lookup(ParsedData(st, co, args, data), st.optional[j].key) ==
      if |st.required| + j < |tokens| then co.process(st.optional[j], tokens[|st.required| + j])
      else Lookup(Flagged(st, co, args, data), st.optional[j].key)
  {
    KeysApartParts(st);
    var req, opt, key := st.required, st.optional, st.optional[j].key;
    var flagged := Flagged(st, co, args, data);
    var b := BindRequired(req, tokens, args, flagged, co.process);
    AssignElsewhere(flagged, req, tokens[..|req|], co.process, key);
    var k := Min(|opt|, |b.rest|);
    var o := BindOptional(opt, b.rest, b.data, co.process);
    if j < k {
      PrefixDistinct(opt, k);
      assert opt[..k][j] == opt[j] && b.rest[..k][j] == tokens[|req| + j];
      AssignAt(b.data, opt[..k], b.rest[..k], co.process, j);
    } else {
      assert NotAmong(opt[..k], key) by {
        assert forall i :: 0 <= i < k ==> opt[..k][i] == opt[i];
      }
      AssignElsewhere(b.data, opt[..k], b.rest[..k], co.process, key);
    }
  }

  /** The tokens left after the required and optional args. */
  function Leftovers(st: ToolState, tokens: seq<string>): seq<string>
  {
    var n := |st.required| + |st.optional|;
    if |tokens| > n then tokens[n..] else []
  }

  /** Leftover tokens go to the remaining-args definition, processed in
      order; without one they are extra arguments to a tool with a script, or
      the path of a tool that was not found. No leftovers, no error. */
  lemma LeftoverArgs(st: ToolState, co: Collaborators, args: seq<string>, data: map<Key, Value>,
                     tokens: seq<string>)
    requires co.parse(st.flags, args).outcome == Leftover(tokens) && |st.required| <= |tokens|
    requires KeysApart(st)
    ensures var extra, d := Leftovers(st, tokens), ParsedData(st, co, args, data);
      && (|extra| == 0 ==> Lookup(d, UsageErrorKey) == Lookup(Flagged(st, co, args, data), UsageErrorKey))
      && (|extra| == 0 && st.remaining.Some? ==>
            Lookup(d, st.remaining.value.key) == Lookup(Flagged(st, co, args, data), st.remaining.value.key))
      && (|extra| > 0 && st.remaining.Some? ==>
            && Lookup(d, UsageErrorKey) == Lookup(Flagged(st, co, args, data), UsageErrorKey)
            && Lookup(d, st.remaining.value.key).List?
            && |Lookup(d, st.remaining.value.key).elements| == |extra|
            && forall i :: 0 <= i < |extra| ==>
                 Lookup(d, st.remaining.value.key).elements[i] == co.process(st.remaining.value, extra[i]))
      && (|extra| > 0 && st.remaining.None? && st.IncludesScript() ==>
            Lookup(d, UsageErrorKey) == UsageError("Extra arguments provided", extra))
      && (|extra| > 0 && st.remaining.None? && !st.IncludesScript() ==>
            Lookup(d, UsageErrorKey) == UsageError("Tool not found", st.fullName + args))
  {
    KeysApartParts(st);
    var req, opt := st.required, st.optional;
    var flagged := Flagged(st, co, args, data);
    var b := BindRequired(req, tokens, args, flagged, co.process);
    var k := Min(|opt|, |b.rest|);
    var o := BindOptional(opt, b.rest, b.data, co.process);
    assert o.rest == Leftovers(st, tokens);
    AssignElsewhere(flagged, req, tokens[..|req|], co.process, UsageErrorKey);
    PrefixNotAmong(opt, UsageErrorKey, k);
    AssignElsewhere(b.data, opt[..k], b.rest[..k], co.process, UsageErrorKey);
    if st.remaining.Some? {
      var key := st.remaining.value.key;
      AssignElsewhere(flagged, req, tokens[..|req|], co.process, key);
      PrefixNotAmong(opt, key, k);
      AssignElsewhere(b.data, opt[..k], b.rest[..k], co.process, key);
    }
  }

  /** The positional stages touch only the positional keys and the
      usage-error key. */
  lemma StagesLeaveKey(st: ToolState, co: Collaborators, args: seq<string>, data: map<Key, Value>, k: Key)
    requires NotAmong(st.required, k) && NotAmong(st.optional, k) && k != UsageErrorKey
    requires st.remaining.Some? ==> st.remaining.value.key != k
    ensures Lookup(ParsedData(st, co, args, data), k) == Lookup(Flagged(st, co, args, data), k)
  {
    var p := co.parse(st.flags, args);
    var flagged := Flagged(st, co, args, data);
    if p.outcome.Leftover? {
      var tokens := p.outcome.tokens;
      var req, opt := st.required, st.optional;
      var b := BindRequired(req, tokens, args, flagged, co.process);
      if |tokens| < |req| {
        PrefixNotAmong(req, k, |tokens|);
        AssignElsewhere(flagged, req[..|tokens|], tokens, co.process, k);
      } else {
        AssignElsewhere(flagged, req, tokens[..|req|], co.process, k);
        var q := Min(|opt|, |b.rest|);
        PrefixNotAmong(opt, k, q);
        AssignElsewhere(b.data, opt[..q], b.rest[..q], co.process, k);
      }
    }
  }

  /** `set_remaining_args` with its default `[]`: when no tokens are left
      over and no flag sets the key, the tool runs with an empty list there. */
  lemma RemainingArgsDefaultEmpty(st: ToolState, key: Key, name: string, mk: FlagConstructor,
                                  co: Collaborators, args: seq<string>, verbosity: int)
    requires !st.finished && key !in RESERVED_KEYS
    requires KeysApart(st.Apply(SetRemainingArgs(key, displayName := name), mk).state)
    requires co.parse(st.flags, args).outcome.Leftover?
    requires |st.required| <= |co.parse(st.flags, args).outcome.tokens| <= |st.required| + |st.optional|
    requires forall i :: 0 <= i < |co.parse(st.flags, args).fired| ==> co.parse(st.flags, args).fired[i].flag.key != key
    ensures var s := st.Apply(SetRemainingArgs(key, displayName := name), mk);
      && s.outcome.Pass?
      && Lookup(ParsedData(s.state, co, args, InitialData(s.state, args, verbosity)), key) == List([])
  {
    var s := st.Apply(SetRemainingArgs(key, displayName := name), mk).state;
    assert s.flags == st.flags && s.required == st.required && s.optional == st.optional;
    assert s.remaining == Some(Arg(key, Remaining, None, List([]), name));
    var data := InitialData(s, args, verbosity);
    var p := co.parse(s.flags, args);
    LeftoverArgs(s, co, args, data, p.outcome.tokens);
    FoldFlagsPerKey(data, p.fired, key, co.call);
  }

  /** A key no positional arg names (and not the usage-error key) ends with
      the fold of its flag occurrences' handlers over its starting value. */
  lemma FlagValuesSurvive(st: ToolState, co: Collaborators, args: seq<string>, data: map<Key, Value>, k: Key)
    requires NotAmong(st.ArgDefinitions(), k) && k != UsageErrorKey
    ensures Lookup(ParsedData(st, co, args, data), k) == FoldKey(co.parse(st.flags, args).fired, k, Lookup(data, k), co.call)
  {
    var defs := st.ArgDefinitions();
    var req, opt := st.required, st.optional;
    var r, n := |req|, |opt|;
    assert NotAmong(req, k) by {
      assert forall i :: 0 <= i < r ==> req[i] == defs[..r][i] == defs[i];
    }
    assert NotAmong(opt, k) by {
      assert forall j :: 0 <= j < n ==> opt[j] == defs[r..r + n][j] == defs[r + j];
    }
    assert st.remaining.Some? ==> st.remaining.value.key != k by {
      if st.remaining.Some? {
        assert defs[|defs| - 1] == st.remaining.value;
      }
    }
    StagesLeaveKey(st, co, args, data, k);
    FoldFlagsPerKey(data, co.parse(st.flags, args).fired, k, co.call);
  }

  /** Running a tool with no arguments gives it its defaults and the reserved
      keys, and nothing else, when it has no required args and OptionParser
      fires nothing on an empty argument list. */
  lemma ZeroArgsRoundTrip(st: ToolState, co: Collaborators, verbosity: int)
    requires co.parse(st.flags, []) == OptParse([], Leftover([]))
    ensures st.required == [] ==> ParsedData(st, co, [], InitialData(st, [], verbosity)) == InitialData(st, [], verbosity)
    ensures st.required != [] ==> Lookup(ParsedData(st, co, [], InitialData(st, [], verbosity)), UsageErrorKey)
                                   == MissingArgument(st.required[0], [])
  {
    var data := InitialData(st, [], verbosity);
    assert FoldFlags(data, [], co.call) == data;
    if st.required == [] {
      var b := BindRequired([], [], [], data, co.process);
      assert b == Binding(data, [], None);
      var o := BindOptional(st.optional, [], data, co.process);
      assert o == Binding(data, [], None);
    } else {
      MissingRequiredArg(st, co, [], data, []);
    }
  }

  // ------------------------------------------------------------------ running

  ghost predicate AllAt(trace: seq<Event>, level: int)
  {
    forall i :: 0 <= i < |trace| ==> trace[i].level == level
  }

  lemma {:induction false} ActionsAt(acts: seq<Action>, data: map<Key, Value>, level: int)
    ensures AllAt(RunActions(acts, data, level).trace, level)
    decreases |acts|
  {
    if |acts| > 0 {
      ActionsAt(acts[1..], data, level);
    }
  }

  lemma {:induction false} ChainAt(c: Chain<Middleware>, body: Run, data: map<Key, Value>, level: int)
    requires AllAt(body.trace, level)
    ensures AllAt(RunChain(c, body, data, level).trace, level)
    decreases c
  {
    match c
    case Terminal =>
    case Layer(m, inner) =>
      ActionsAt(m.exec.before, data, level);
      ActionsAt(m.exec.after, data, level);
      ChainAt(inner, body, data, level);
  }

  /** Everything the middlewares and the script log is logged at the base
      level minus the parsed verbosity. */
  lemma EventsAtNarrowedLevel(st: ToolState, stack: seq<Middleware>, co: Collaborators, baseLevel: int,
                              args: seq<string>, verbosity: int)
    ensures var v := Lookup(ParsedData(st, co, args, InitialData(st, args, verbosity)), VerbosityKey);
      v.Int? ==> AllAt(Executed(st, stack, co, baseLevel, args, verbosity).trace, baseLevel - v.i)
  {
    var data := ParsedData(st, co, args, InitialData(st, args, verbosity));
    var v := Lookup(data, VerbosityKey);
    if v.Int? {
      var level := baseLevel - v.i;
      if st.script.Some? {
        ActionsAt(st.script.value.actions, data, level);
      } else {
        assert AllAt(Body(st, data, level).trace, level);
      }
      ChainAt(Nest(stack), Body(st, data, level), data, level);
    }
  }

  ghost predicate EmitsOnly(acts: seq<Action>)
  {
    forall i :: 0 <= i < |acts| ==> acts[i].Emit?
  }

  /** The events of the `Emit` actions of a list, in order. */
  function Notes(acts: seq<Action>, level: int): seq<Event>
    decreases |acts|
  {
    if |acts| == 0 then []
    else (if acts[0].Emit? then [Event(acts[0].note, level)] else []) + Notes(acts[1..], level)
  }

  lemma {:induction false} RunEmits(acts: seq<Action>, data: map<Key, Value>, level: int)
    requires EmitsOnly(acts)
    ensures RunActions(acts, data, level) == Run(Notes(acts, level), Continue)
    decreases |acts|
  {
    if |acts| > 0 {
      assert forall i :: 0 <= i < |acts[1..]| ==> acts[1..][i] == acts[i + 1];
      RunEmits(acts[1..], data, level);
    }
  }

  /** Middlewares that call `next` and only log on either side of it. */
  ghost predicate Transparent(stack: seq<Middleware>)
  {
    forall i :: 0 <= i < |stack| ==>
      stack[i].exec.proceed && EmitsOnly(stack[i].exec.before) && EmitsOnly(stack[i].exec.after)
  }

  /** What the middlewares log before `next`, the first entry first. */
  function Befores(stack: seq<Middleware>, level: int): seq<Event>
    decreases |stack|
  {
    if |stack| == 0 then [] else Notes(stack[0].exec.before, level) + Befores(stack[1..], level)
  }

  /** What they log after `next`, the first entry last. */
  function Afters(stack: seq<Middleware>, level: int): seq<Event>
    decreases |stack|
  {
    if |stack| == 0 then [] else Afters(stack[1..], level) + Notes(stack[0].exec.after, level)
  }

  /** One layer that calls `next` between two logging parts. */
  lemma LayerOfEmits(m: Middleware, inner: Chain<Middleware>, body: Run, data: map<Key, Value>, level: int)
    requires m.exec.proceed && EmitsOnly(m.exec.before) && EmitsOnly(m.exec.after)
    ensures var r := RunChain(inner, body, data, level);
      RunChain(Layer(m, inner), body, data, level) ==
        if r.signal.Continue?
        then Run(Notes(m.exec.before, level) + (r.trace + Notes(m.exec.after, level)), Continue)
        else Run(Notes(m.exec.before, level) + r.trace, r.signal)
  {
    RunEmits(m.exec.before, data, level);
    RunEmits(m.exec.after, data, level);
  }

  lemma ConcatRegroup<T>(pre: seq<T>, b: seq<T>, mid: seq<T>, a: seq<T>, post: seq<T>)
    ensures pre + ((b + mid + a) + post) == (pre + b) + mid + (a + post)
  {
  }

  /** The first middleware is the outermost: its pre-`next` code runs first
      and its post-`next` code last; a thrown exit code or an exception
      unwinds past every post-`next` part. */
  lemma {:induction false} ChainOrder(stack: seq<Middleware>, body: Run, data: map<Key, Value>, level: int)
    requires Transparent(stack)
    ensures RunChain(Nest(stack), body, data, level) ==
      Run(Befores(stack, level) + body.trace + (if body.signal.Continue? then Afters(stack, level) else []),
          body.signal)
    decreases |stack|
  {
    if |stack| == 0 {
      assert [] + body.trace + [] == body.trace;
    } else {
      var m, rest := stack[0], stack[1..];
      assert Transparent(rest) by {
        assert forall i :: 0 <= i < |rest| ==> rest[i] == stack[i + 1];
      }
      assert m.exec.proceed && EmitsOnly(m.exec.before) && EmitsOnly(m.exec.after) by {
        assert stack[0] == m;
      }
      ChainOrder(rest, body, data, level);
      LayerOfEmits(m, Nest(rest), body, data, level);
      var pre, post := Notes(m.exec.before, level), Notes(m.exec.after, level);
      assert Nest(stack) == Layer(m, Nest(rest));
      if body.signal.Continue? {
        ConcatRegroup(pre, Befores(rest, level), body.trace, Afters(rest, level), post);
      } else {
        ConcatRegroup(pre, Befores(rest, level), body.trace, [], []);
      }
    }
  }

  /** A tool without a script logs the fatal "No implementation" line and
      exits with -1 from inside the chain, after the pre-`next` parts and
      without the post-`next` ones. */
  lemma NoScriptExitsMinusOne(st: ToolState, stack: seq<Middleware>, co: Collaborators, baseLevel: int,
                              args: seq<string>, verbosity: int)
    requires st.script.None? && Transparent(stack)
    ensures var v := Lookup(ParsedData(st, co, args, InitialData(st, args, verbosity)), VerbosityKey);
      v.Int? ==> var level := baseLevel - v.i;
        Executed(st, stack, co, baseLevel, args, verbosity)
          == Exited(-1, Befores(stack, level) + [Event(NoImplementation(st), level)])
  {
    var data := ParsedData(st, co, args, InitialData(st, args, verbosity));
    var v := Lookup(data, VerbosityKey);
    if v.Int? {
      var level := baseLevel - v.i;
      ChainOrder(stack, Body(st, data, level), data, level);
    }
  }

  /** A script that only logs ends with exit code 0, inside every middleware's
      pre- and post-`next` parts. */
  lemma ScriptExitsZero(st: ToolState, stack: seq<Middleware>, co: Collaborators, baseLevel: int,
                        args: seq<string>, verbosity: int)
    requires st.script.Some? && EmitsOnly(st.script.value.actions) && Transparent(stack)
    ensures var v := Lookup(ParsedData(st, co, args, InitialData(st, args, verbosity)), VerbosityKey);
      v.Int? ==> var level := baseLevel - v.i;
        Executed(st, stack, co, baseLevel, args, verbosity)
          == Exited(0, Befores(stack, level) + Notes(st.script.value.actions, level) + Afters(stack, level))
  {
    var data := ParsedData(st, co, args, InitialData(st, args, verbosity));
    var v := Lookup(data, VerbosityKey);
    if v.Int? {
      var level := baseLevel - v.i;
      RunEmits(st.script.value.actions, data, level);
      ChainOrder(stack, Body(st, data, level), data, level);
    }
  }

  /** A first middleware that checks for a usage error before `next` ends the
      run with its exit code and nothing else runs; without a usage error it
      lets the run through. */
  lemma UsageErrorStopsRun(st: ToolState, m: Middleware, rest: seq<Middleware>, co: Collaborators,
                           baseLevel: int, args: seq<string>, verbosity: int, code: int)
    requires m.exec.before == [ExitOnUsageError(code)] && m.exec.proceed && m.exec.after == []
    ensures var d := ParsedData(st, co, args, InitialData(st, args, verbosity));
      Lookup(d, VerbosityKey).Int? && Lookup(d, UsageErrorKey) != Nil ==>
        Executed(st, [m] + rest, co, baseLevel, args, verbosity) == Exited(code, [])
    ensures var d := ParsedData(st, co, args, InitialData(st, args, verbosity));
      Lookup(d, UsageErrorKey) == Nil ==>
        Executed(st, [m] + rest, co, baseLevel, args, verbosity) == Executed(st, rest, co, baseLevel, args, verbosity)
  {
    var stack := [m] + rest;
    assert stack[0] == m && stack[1..] == rest;
    var d := ParsedData(st, co, args, InitialData(st, args, verbosity));
    var v := Lookup(d, VerbosityKey);
    if v.Int? {
      var level := baseLevel - v.i;
      var inner := RunChain(Nest(rest), Body(st, d, level), d, level);
      assert Nest(stack) == Layer(m, Nest(rest));
      assert RunActions([], d, level) == Run([], Continue);
      if Lookup(d, UsageErrorKey) == Nil {
        assert [ExitOnUsageError(code)][1..] == [];
        assert RunActions(m.exec.before, d, level) == Run([], Continue);
        assert Then(inner, Run([], Continue)) == inner by {
          assert inner.trace + [] == inner.trace;
        }
        assert [] + inner.trace == inner.trace;
      }
    }
  }

  // ---------------------------------------------------------------- scenarios

  /** A flag class that keeps every switch it is given and reports no
      collision. */
  ghost predicate AlwaysBuilds(mk: FlagConstructor)
  {
    forall req, used :: mk(req, used) == Built(req.flags, true, used + req.flags)
  }

  /** `greet`: a `--verbose` flag and a required `NAME`, all other keyword
      arguments left at their defaults, and a script that logs one line. */
  const GREET_CALLS: seq<DefOp> := [
    AddFlag(Sym("verbose"), ["-v", "--verbose"]),
    AddRequiredArg(Sym("name"), displayName := "NAME"),
    SetScript(Some(Script([Emit("hello")])))
  ]

  const VERBOSE_FLAG: Flag := Flag(Sym("verbose"), ["-v", "--verbose"], None, Nil, ReplaceHandler, true)
  const NAME_ARG: Arg := Arg(Sym("name"), Required, None, Nil, "NAME")

  function Greet(mk: FlagConstructor): ToolState
  {
    Initial(["greet"]).ApplyAll(GREET_CALLS, mk).state
  }

  /** Defining `greet` succeeds and leaves the flag with a nil default and the
      default handler, and the required arg without an acceptor. */
  lemma GreetDefinition(mk: FlagConstructor)
    requires AlwaysBuilds(mk)
    ensures Initial(["greet"]).ApplyAll(GREET_CALLS, mk).outcome.Pass?
    ensures var st := Greet(mk);
      && st.flags == [VERBOSE_FLAG] && st.required == [NAME_ARG] && st.optional == []
      && st.remaining.None? && st.script == Some(Script([Emit("hello")]))
      && st.defaultData == map[Sym("verbose") := Nil] && !st.finished
  {
    var s0 := Initial(["greet"]);
    var s1 := s0.Apply(GREET_CALLS[0], mk);
    assert s1.outcome.Pass? && s1.state.flags == [VERBOSE_FLAG];
    var s2 := s1.state.Apply(GREET_CALLS[1], mk);
    assert s2.outcome.Pass? && s2.state.required == [NAME_ARG];
    var s3 := s2.state.Apply(GREET_CALLS[2], mk);
    assert s3.outcome.Pass?;
    assert GREET_CALLS[1..][1..][1..] == [];
  }

  /** The data `greet -v alice` runs with, for any tool shaped like `greet`:
      `:verbose` is true, `:name` is "alice", no usage error and verbosity 0;
      with no arguments the missing `NAME` is reported. */
  lemma GreetParsed(st: ToolState, co: Collaborators)
    requires st.flags == [VERBOSE_FLAG] && st.required == [NAME_ARG] && st.optional == []
    requires st.remaining.None?
    requires co.parse([VERBOSE_FLAG], ["-v", "alice"])
          == OptParse([Occurrence(VERBOSE_FLAG, Bool(true))], Leftover(["alice"]))
    requires co.parse([VERBOSE_FLAG], []) == OptParse([], Leftover([]))
    requires co.process(NAME_ARG, "alice") == Str("alice")
    ensures var args := ["-v", "alice"];
      var d := ParsedData(st, co, args, InitialData(st, args, 0));
      && Lookup(d, Sym("verbose")) == Bool(true) && Lookup(d, Sym("name")) == Str("alice")
      && Lookup(d, UsageErrorKey) == Nil && Lookup(d, VerbosityKey) == Int(0)
    ensures Lookup(ParsedData(st, co, [], InitialData(st, [], 0)), UsageErrorKey)
      == UsageError("No value given for required argument NAME", [])
  {
    var args := ["-v", "alice"];
    var data := InitialData(st, args, 0);
    var occs := [Occurrence(VERBOSE_FLAG, Bool(true))];
    assert occs[1..] == [];
    assert st.ArgDefinitions() == [NAME_ARG];
    assert KeysApart(st);
    assert NotAmong(st.ArgDefinitions(), Sym("verbose"));
    FlagValuesSurvive(st, co, args, data, Sym("verbose"));
    assert FoldKey(occs, Sym("verbose"), Lookup(data, Sym("verbose")), co.call)
        == FoldKey([], Sym("verbose"), Bool(true), co.call);
    assert NotAmong(st.ArgDefinitions(), VerbosityKey);
    FlagValuesSurvive(st, co, args, data, VerbosityKey);
    assert FoldKey(occs, VerbosityKey, Int(0), co.call) == FoldKey([], VerbosityKey, Int(0), co.call);
    RequiredArgsBound(st, co, args, data, ["alice"], 0);
    LeftoverArgs(st, co, args, data, ["alice"]);
    FoldFlagsPerKey(data, occs, UsageErrorKey, co.call);
    ZeroArgsRoundTrip(st, co, 0);
  }

  /** Running `greet -v alice` on a tool shaped like `greet`: exit code 0,
      the script's line logged at the base level inside the middlewares. */
  lemma GreetRuns(st: ToolState, co: Collaborators, stack: seq<Middleware>, baseLevel: int)
    requires st.script == Some(Script([Emit("hello")])) && Transparent(stack)
    requires Lookup(ParsedData(st, co, ["-v", "alice"], InitialData(st, ["-v", "alice"], 0)), VerbosityKey) == Int(0)
    ensures Executed(st, stack, co, baseLevel, ["-v", "alice"], 0)
      == Exited(0, Befores(stack, baseLevel) + [Event("hello", baseLevel)] + Afters(stack, baseLevel))
  {
    ScriptExitsZero(st, stack, co, baseLevel, ["-v", "alice"], 0);
    assert Notes([Emit("hello")], baseLevel) == [Event("hello", baseLevel)];
  }

  /** `greet -v alice` on the tool the definition calls build: the data of
      `GreetParsed`, and the run exits with 0 after logging its line inside
      the middlewares. */
  lemma VerboseAliceScenario(mk: FlagConstructor, co: Collaborators, stack: seq<Middleware>, baseLevel: int)
    requires AlwaysBuilds(mk) && Transparent(stack)
    requires co.parse([VERBOSE_FLAG], ["-v", "alice"])
          == OptParse([Occurrence(VERBOSE_FLAG, Bool(true))], Leftover(["alice"]))
    requires co.parse([VERBOSE_FLAG], []) == OptParse([], Leftover([]))
    requires co.process(NAME_ARG, "alice") == Str("alice")
    ensures var st, args := Greet(mk), ["-v", "alice"];
      var d := ParsedData(st, co, args, InitialData(st, args, 0));
      && Lookup(d, Sym("verbose")) == Bool(true) && Lookup(d, Sym("name")) == Str("alice")
      && Lookup(d, UsageErrorKey) == Nil
      && Executed(st, stack, co, baseLevel, args, 0)
         == Exited(0, Befores(stack, baseLevel) + [Event("hello", baseLevel)] + Afters(stack, baseLevel))
    ensures Lookup(ParsedData(Greet(mk), co, [], InitialData(Greet(mk), [], 0)), UsageErrorKey)
      == UsageError("No value given for required argument NAME", [])
  {
    GreetDefinition(mk);
    GreetParsed(Greet(mk), co);
    GreetRuns(Greet(mk), co, stack, baseLevel);
  }

  /** A group without a script and without args, given tokens for a subtool
      that is not there: "Tool not found" with the full path tried. */
  lemma ToolNotFoundScenario(st: ToolState, co: Collaborators)
    requires st.fullName == ["group"] && st.script.None?
    requires st.required == [] && st.optional == [] && st.remaining.None?
    requires co.parse(st.flags, ["build", "--fast"]) == OptParse([], Leftover(["build", "--fast"]))
    ensures var d := ParsedData(st, co, ["build", "--fast"], InitialData(st, ["build", "--fast"], 0));
      d[UsageErrorKey] == UsageError("Tool not found", ["group", "build", "--fast"])
  {
    var args := ["build", "--fast"];
    var data := InitialData(st, args, 0);
    assert FoldFlags(data, [], co.call) == data;
    var b := BindRequired([], args, args, data, co.process);
    assert b.rest == args;
    var o := BindOptional([], args, data, co.process);
    assert o.rest == args;
  }
}
