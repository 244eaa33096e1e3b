/** The state of a `Toys::Definition::Tool` as a value, and what each of its
    definition calls does to that state. The class `Definition.Tool` keeps this
    state in fields and is proved against `ToolState.Apply`; the properties of
    the definition discipline are lemmas about `Apply`, `ApplyAll` and
    `Finish` here. */
module ToolModel {
  import opened Base
  import opened Composition

  // ---------------------------------------------------------------- acceptors

  /** The classes OptionParser recognises as acceptors on its own
      (`OPTPARSER_ACCEPTORS`). */
  datatype Builtin =
    | ObjectClass | NilClass | StringClass | IntegerClass | FloatClass
    | NumericClass | TrueClassClass | FalseClassClass | ArrayClass | RegexpClass
    | DecimalInteger | OctalInteger | DecimalNumeric

  const BUILTINS: seq<Builtin> := [
    ObjectClass, NilClass, StringClass, IntegerClass, FloatClass,
    NumericClass, TrueClassClass, FalseClassClass, ArrayClass, RegexpClass,
    DecimalInteger, OctalInteger, DecimalNumeric
  ]

  /** A key of the acceptor registry: a built-in class, or the name of a
      custom acceptor. */
  datatype AcceptorName = BuiltinName(builtin: Builtin) | CustomName(name: string)

  /** A `Toys::Definition::Acceptor`; its conversion is not modelled, `id`
      tells acceptors with the same name apart. */
  datatype Acceptor = Acceptor(name: AcceptorName, id: nat)

  /** What a flag or argument ends up using to convert its values. */
  datatype Accept = BuiltinAccept(builtin: Builtin) | CustomAccept(acceptor: Acceptor)

  /** The `accept:` argument of a definition call: nil, an acceptor object,
      or anything else, which is looked up in the registry. */
  datatype AcceptSpec = NoAcceptor | GivenAcceptor(acceptor: Acceptor) | ByName(name: AcceptorName)

  /** `OPTPARSER_ACCEPTORS` lists every built-in. */
  lemma BuiltinsListed()
    ensures forall b: Builtin :: b in BUILTINS
  {
    forall b: Builtin ensures b in BUILTINS {
      match b
      case ObjectClass => assert BUILTINS[0] == b;
      case NilClass => assert BUILTINS[1] == b;
      case StringClass => assert BUILTINS[2] == b;
      case IntegerClass => assert BUILTINS[3] == b;
      case FloatClass => assert BUILTINS[4] == b;
      case NumericClass => assert BUILTINS[5] == b;
      case TrueClassClass => assert BUILTINS[6] == b;
      case FalseClassClass => assert BUILTINS[7] == b;
      case ArrayClass => assert BUILTINS[8] == b;
      case RegexpClass => assert BUILTINS[9] == b;
      case DecimalInteger => assert BUILTINS[10] == b;
      case OctalInteger => assert BUILTINS[11] == b;
      case DecimalNumeric => assert BUILTINS[12] == b;
    }
  }

  /** Every built-in class is registered under itself at construction. */
  function InitialAcceptors(): (r: map<AcceptorName, Accept>)
    ensures forall b :: BuiltinName(b) in r && r[BuiltinName(b)] == BuiltinAccept(b)
    ensures forall n :: n in r ==> n.BuiltinName?
  {
    BuiltinsListed();
    map b | b in BUILTINS :: BuiltinName(b) := BuiltinAccept(b)
  }

  /** A registry entry is filed under its own name: `@acceptors[a] = a` for the
      built-ins, `@acceptors[acceptor.name] = acceptor` for custom ones. */
  ghost predicate FiledUnderOwnName(n: AcceptorName, a: Accept)
  {
    match a
    case BuiltinAccept(b) => n == BuiltinName(b)
    case CustomAccept(acc) => n == acc.name
  }

  // ------------------------------------------------------------ flags and args

  /** A flag's value handler. The default one replaces the previous value
      with the new one; a custom one is a proc of the tool author. */
  datatype Handler = ReplaceHandler | CustomHandler(id: nat)

  function HandlerOf(handler: Option<nat>): Handler
  {
    match handler
    case None => ReplaceHandler
    case Some(id) => CustomHandler(id)
  }

  /** A `Toys::Definition::Flag` as the tool and the executor see it. */
  datatype Flag = Flag(key: Key, switches: seq<string>, accept: Option<Accept>,
                       defaultValue: Value, handler: Handler, active: bool)

  /** What `add_flag` hands to `Definition::Flag.new`. */
  datatype FlagRequest = FlagRequest(key: Key, flags: seq<string>, accept: Option<Accept>,
                                     defaultValue: Value, handler: Option<nat>,
                                     reportCollisions: bool)

  /** What `Definition::Flag.new` decides: the switches it keeps, whether the
      flag is active, and the tool's `used_flags` afterwards; or the error it
      raises. */
  datatype FlagBuild = Built(switches: seq<string>, active: bool, usedFlags: seq<string>)
                     | Rejected(reason: string)

  /** `Definition::Flag.new`, which is not part of this model: it receives the
      request and the tool's current `used_flags`. */
  type FlagConstructor = (FlagRequest, seq<string>) -> FlagBuild

  datatype ArgKind = Required | Optional | Remaining

  /** A `Toys::Definition::Arg`. */
  datatype Arg = Arg(key: Key, kind: ArgKind, accept: Option<Accept>,
                     defaultValue: Value, displayName: string)

  // ------------------------------------------------- scripts and middlewares

  /** What a middleware or a script does when it runs: record an event, throw
      `:result` with an exit code, raise, or throw `:result` if the data holds
      a usage error. */
  datatype Action = Emit(note: string) | Exit(code: int) | Raise(message: string)
                  | ExitOnUsageError(code: int)

  /** The body of a tool, an abstract command. */
  datatype Script = Script(actions: seq<Action>)

  /** A middleware's `config(tool, loader) { next }`: definition calls made
      before calling `next`, whether `next` is called, calls made after. */
  datatype ConfigBehavior = ConfigBehavior(before: seq<DefOp>, proceed: bool, after: seq<DefOp>)

  /** A middleware's `execute(tool) { next }`, in the same shape. */
  datatype ExecBehavior = ExecBehavior(before: seq<Action>, proceed: bool, after: seq<Action>)

  datatype Middleware = Middleware(config: ConfigBehavior, exec: ExecBehavior)

  // ------------------------------------------------------- definition calls

  /** The public definition calls of a tool, with the defaults of their
      keyword arguments (`flags = []`, `accept: nil`, `default: nil`,
      `handler: nil`, `report_collisions: true`; `default: []` for the
      remaining args). */
  datatype DefOp =
    | LockDefinitionPath(path: string)
    | SetDesc(desc: seq<string>)
    | SetLongDesc(descs: seq<seq<string>>)
    | AddAcceptor(acceptor: Acceptor)
    | AddFlag(key: Key, flags: seq<string> := [], accept: AcceptSpec := NoAcceptor,
              defaultValue: Value := Nil, handler: Option<nat> := None, reportCollisions: bool := true)
    | DisableFlag(flags: seq<string>)
    | AddRequiredArg(key: Key, accept: AcceptSpec := NoAcceptor, displayName: string)
    | AddOptionalArg(key: Key, defaultValue: Value := Nil, accept: AcceptSpec := NoAcceptor,
                     displayName: string)
    | SetRemainingArgs(key: Key, defaultValue: Value := List([]), accept: AcceptSpec := NoAcceptor,
                       displayName: string)
    | SetScript(script: Option<Script>)
  {
    /** The calls that begin with `check_definition_state`. */
    predicate Guarded()
    {
      !(LockDefinitionPath? || AddAcceptor? || DisableFlag?)
    }

    /** The calls that declare a flag or a positional argument. */
    predicate Declares()
    {
      AddFlag? || AddRequiredArg? || AddOptionalArg? || SetRemainingArgs?
    }
  }

  datatype DefinitionError =
    | DefinitionFinished(toolName: string)           // "Defintion of tool ... is already finished"
    | UnknownAcceptor(name: AcceptorName)            // "Unknown acceptor: ..."
    | FlagsAlreadyUsed(flags: seq<string>)           // "Cannot disable flags already used: ..."
    | Redefinition(toolName: string, path: string, existing: string)
    | FlagRejected(reason: string)                   // raised by Definition::Flag.new
    | MiddlewareError(tool: seq<string>, cause: DefinitionError)

  datatype Result<T> = Ok(value: T) | Err(error: DefinitionError)

  /** What a definition call returns, and the tool afterwards. */
  datatype Step = Step(outcome: Outcome<DefinitionError>, state: ToolState)

  // ---------------------------------------------------------------- the tool

  /** The mutable part of a tool, plus its immutable full name. */
  datatype ToolState = ToolState(
    fullName: seq<string>,
    definitionPath: Option<string>,
    finished: bool,
    desc: seq<string>,
    longDesc: seq<seq<string>>,
    defaultData: map<Key, Value>,
    acceptors: map<AcceptorName, Accept>,
    usedFlags: seq<string>,
    flags: seq<Flag>,
    required: seq<Arg>,
    optional: seq<Arg>,
    remaining: Option<Arg>,
    script: Option<Script>)
  {
    /** The words of the full name joined with spaces. */
    function DisplayName(): string
    {
      Join(fullName, " ")
    }

    /** `full_name.last`, which is nil for the root tool. */
    function SimpleName(): (r: Option<string>)
      ensures r.None? <==> IsRoot()
      ensures r.Some? ==> r.value == fullName[|fullName| - 1]
    {
      if |fullName| == 0 then None else Some(fullName[|fullName| - 1])
    }

    predicate IsRoot()
    {
      |fullName| == 0
    }

    predicate IncludesScript()
    {
      script.Some?
    }

    predicate IncludesDescription()
    {
      longDesc != [] || desc != []
    }

    predicate IncludesArguments()
    {
      defaultData != map[] || flags != [] || required != [] || optional != [] || remaining.Some?
    }

    predicate IncludesDefinition()
    {
      IncludesArguments() || IncludesScript()
    }

    /** All positional definitions: required, then optional, then remaining. */
    function ArgDefinitions(): (r: seq<Arg>)
      ensures |r| == |required| + |optional| + (if remaining.Some? then 1 else 0)
      ensures r[..|required|] == required
      ensures r[|required|..|required| + |optional|] == optional
      ensures remaining.Some? ==> r[|r| - 1] == remaining.value
    {
      var result := required + optional;
      if remaining.Some? then result + [remaining.value] else result
    }

    function CheckDefinitionState(): (r: Outcome<DefinitionError>)
      ensures r.Pass? <==> !finished
    {
      if finished then Fail(DefinitionFinished(DisplayName())) else Pass
    }

    /** `resolve_acceptor`: nil and acceptor objects pass through, anything else
        must be a key of the registry. */
    function ResolveAcceptor(accept: AcceptSpec): (r: Result<Option<Accept>>)
      ensures accept.NoAcceptor? ==> r == Ok(None)
      ensures accept.GivenAcceptor? ==> r == Ok(Some(CustomAccept(accept.acceptor)))
      ensures accept.ByName? ==>
        (r.Ok? <==> accept.name in acceptors) &&
        (r.Ok? ==> r.value == Some(acceptors[accept.name])) &&
        (r.Err? ==> r.error == UnknownAcceptor(accept.name))
    {
      match accept
      case NoAcceptor => Ok(None)
      case GivenAcceptor(a) => Ok(Some(CustomAccept(a)))
      case ByName(n) => if n in acceptors then Ok(Some(acceptors[n])) else Err(UnknownAcceptor(n))
    }

    /** The effect of one definition call. */
    function Apply(op: DefOp, makeFlag: FlagConstructor): Step
    {
      match op
      case LockDefinitionPath(path) =>
        if definitionPath.Some? && definitionPath.value != path
        then Step(Fail(Redefinition(DisplayName(), path, definitionPath.value)), this)
        else Step(Pass, this.(definitionPath := Some(path)))
      case SetDesc(d) =>
        if finished then Step(CheckDefinitionState(), this) else Step(Pass, this.(desc := d))
      case SetLongDesc(ds) =>
        if finished then Step(CheckDefinitionState(), this) else Step(Pass, this.(longDesc := ds))
      case AddAcceptor(a) =>
        Step(Pass, this.(acceptors := acceptors[a.name := CustomAccept(a)]))
      case AddFlag(key, fs, accept, dv, handler, report) =>
        if finished then Step(CheckDefinitionState(), this)
        else
          (match ResolveAcceptor(accept)
          case Err(e) => Step(Fail(e), this)
          case Ok(acc) =>
            (match makeFlag(FlagRequest(key, fs, acc, dv, handler, report), usedFlags)
             case Rejected(reason) => Step(Fail(FlagRejected(reason)), this)
             case Built(switches, active, used) =>
               var f := Flag(key, switches, acc, dv, HandlerOf(handler), active);
               Step(Pass, this.(usedFlags := used,
                                flags := if active then flags + [f] else flags,
                                defaultData := defaultData[key := dv]))))
      case DisableFlag(fs) =>
        var unique := Uniq(fs);
        var clash := Intersect(usedFlags, unique);
        if clash != [] then Step(Fail(FlagsAlreadyUsed(clash)), this)
        else Step(Pass, this.(usedFlags := usedFlags + unique))
      case AddRequiredArg(key, accept, name) =>
        if finished then Step(CheckDefinitionState(), this)
        else
          (match ResolveAcceptor(accept)
          case Err(e) => Step(Fail(e), this)
          case Ok(acc) => Step(Pass, this.(required := required + [Arg(key, Required, acc, Nil, name)])))
      case AddOptionalArg(key, dv, accept, name) =>
        if finished then Step(CheckDefinitionState(), this)
        else
          (match ResolveAcceptor(accept)
          case Err(e) => Step(Fail(e), this)
          case Ok(acc) =>
            Step(Pass, this.(optional := optional + [Arg(key, Optional, acc, dv, name)],
                             defaultData := defaultData[key := dv])))
      case SetRemainingArgs(key, dv, accept, name) =>
        if finished then Step(CheckDefinitionState(), this)
        else
          (match ResolveAcceptor(accept)
          case Err(e) => Step(Fail(e), this)
          case Ok(acc) =>
            Step(Pass, this.(remaining := Some(Arg(key, Remaining, acc, dv, name)),
                             defaultData := defaultData[key := dv])))
      case SetScript(s) =>
        if finished then Step(CheckDefinitionState(), this) else Step(Pass, this.(script := s))
    }

    /** A run of definition calls, stopping at the first that raises. */
    function ApplyAll(ops: seq<DefOp>, makeFlag: FlagConstructor): Step
      decreases |ops|
    {
      if |ops| == 0 then Step(Pass, this)
      else
        var s := Apply(ops[0], makeFlag);
        if s.outcome.Fail? then s else s.state.ApplyAll(ops[1..], makeFlag)
    }
  }

  /** A freshly constructed tool (`initialize`). */
  function Initial(fullName: seq<string>): ToolState
  {
    ToolState(fullName, None, false, [], [], map[], InitialAcceptors(), [], [], [], [], None, None)
  }

  /** Calling the composed configuration proc: each middleware makes its own
      calls around the call to the rest of the chain; the innermost
      continuation is `proc {}`. */
  function RunConfig(st: ToolState, c: Chain<Middleware>, makeFlag: FlagConstructor): Step
    decreases c
  {
    match c
    case Terminal => Step(Pass, st)
    case Layer(m, inner) =>
      var pre := st.ApplyAll(m.config.before, makeFlag);
      if pre.outcome.Fail? then pre
      else
        var mid := if m.config.proceed then RunConfig(pre.state, inner, makeFlag) else pre;
        if mid.outcome.Fail? then mid
        else mid.state.ApplyAll(m.config.after, makeFlag)
  }

  /** `finish_definition`: on the first call, run the configuration chain and
      lock the tool; an error in a middleware is reported tagged with the
      tool's name and leaves the tool unlocked. */
  function Finish(st: ToolState, stack: seq<Middleware>, makeFlag: FlagConstructor): Step
  {
    if st.finished then Step(Pass, st)
    else
      var s := RunConfig(st, Nest(stack), makeFlag);
      if s.outcome.Fail? then Step(Fail(MiddlewareError(st.fullName, s.outcome.error)), s.state)
      else Step(Pass, s.state.(finished := true))
  }

  // ------------------------------------------------------- the tool's invariant

  /** What every reachable tool satisfies: flags on record are active and have
      a default, optional and remaining args have a default, the argument
      lists hold args of their own kind, and the registry files each acceptor
      under its name and still holds every built-in. */
  ghost predicate WellFormed(st: ToolState)
  {
    && (forall i :: 0 <= i < |st.flags| ==> st.flags[i].active && st.flags[i].key in st.defaultData)
    && (forall i :: 0 <= i < |st.required| ==> st.required[i].kind == Required)
    && (forall i :: 0 <= i < |st.optional| ==>
          st.optional[i].kind == Optional && st.optional[i].key in st.defaultData)
    && (st.remaining.Some? ==>
          st.remaining.value.kind == Remaining && st.remaining.value.key in st.defaultData)
    && (forall n :: n in st.acceptors ==> FiledUnderOwnName(n, st.acceptors[n]))
    && (forall b :: BuiltinName(b) in st.acceptors)
  }

  lemma InitialWellFormed(fullName: seq<string>)
    ensures WellFormed(Initial(fullName))
    ensures !Initial(fullName).IncludesDefinition()
    ensures !Initial(fullName).finished
  {
  }

  /** Every definition call keeps the invariant, whether it succeeds or raises. */
  lemma ApplyWellFormed(st: ToolState, op: DefOp, makeFlag: FlagConstructor)
    requires WellFormed(st)
    ensures WellFormed(st.Apply(op, makeFlag).state)
  {
    var s := st.Apply(op, makeFlag).state;
    match op
    case AddFlag(key, fs, accept, dv, handler, report) =>
      if s != st {
        assert s.defaultData == st.defaultData[key := dv];
        assert forall i :: 0 <= i < |s.flags| ==> s.flags[i].active && s.flags[i].key in s.defaultData;
      }
    case AddOptionalArg(key, dv, accept, name) =>
      if s != st {
        assert forall i :: 0 <= i < |s.optional| ==>
          s.optional[i].kind == Optional && s.optional[i].key in s.defaultData;
      }
    case AddRequiredArg(key, accept, name) =>
      if s != st {
        assert forall i :: 0 <= i < |s.required| ==> s.required[i].kind == Required;
      }
    case AddAcceptor(a) =>
      assert forall n :: n in s.acceptors ==> FiledUnderOwnName(n, s.acceptors[n]);
    case _ =>
  }

  lemma {:induction false} ApplyAllWellFormed(st: ToolState, ops: seq<DefOp>, makeFlag: FlagConstructor)
    requires WellFormed(st)
    ensures WellFormed(st.ApplyAll(ops, makeFlag).state)
    decreases |ops|
  {
    if |ops| > 0 {
      ApplyWellFormed(st, ops[0], makeFlag);
      var s := st.Apply(ops[0], makeFlag);
      if s.outcome.Pass? {
        ApplyAllWellFormed(s.state, ops[1..], makeFlag);
      }
    }
  }

  lemma {:induction false} RunConfigWellFormed(st: ToolState, c: Chain<Middleware>, makeFlag: FlagConstructor)
    requires WellFormed(st)
    ensures WellFormed(RunConfig(st, c, makeFlag).state)
    decreases c
  {
    match c
    case Terminal =>
    case Layer(m, inner) =>
      ApplyAllWellFormed(st, m.config.before, makeFlag);
      var pre := st.ApplyAll(m.config.before, makeFlag);
      if pre.outcome.Pass? {
        if m.config.proceed {
          RunConfigWellFormed(pre.state, inner, makeFlag);
        }
        var mid := if m.config.proceed then RunConfig(pre.state, inner, makeFlag) else pre;
        if mid.outcome.Pass? {
          ApplyAllWellFormed(mid.state, m.config.after, makeFlag);
        }
      }
  }

  /** `finish_definition` keeps the invariant, whatever the middlewares do. */
  lemma FinishWellFormed(st: ToolState, stack: seq<Middleware>, makeFlag: FlagConstructor)
    requires WellFormed(st)
    ensures WellFormed(Finish(st, stack, makeFlag).state)
  {
    if !st.finished {
      RunConfigWellFormed(st, Nest(stack), makeFlag);
    }
  }

  /** Because flags, optional and remaining args all leave a default behind,
      a well-formed tool includes arguments exactly when it has defaults or
      required args. */
  lemma IncludesArgumentsByDefaults(st: ToolState)
    requires WellFormed(st)
    ensures st.IncludesArguments() <==> st.defaultData != map[] || st.required != []
  {
    if st.flags != [] {
      assert st.flags[0].key in st.defaultData;
    }
    if st.optional != [] {
      assert st.optional[0].key in st.defaultData;
    }
    if st.remaining.Some? {
      assert st.remaining.value.key in st.defaultData;
    }
  }

  /** The display name is the full name spelled with spaces: empty for the
      root tool, and otherwise ending in the simple name, after the parent's
      display name and a space when there is a parent. */
  lemma DisplayNameEndsWithSimpleName(st: ToolState)
    ensures st.IsRoot() <==> st.DisplayName() == "" && st.SimpleName().None?
    ensures !st.IsRoot() ==>
      var parent := st.fullName[..|st.fullName| - 1];
      st.DisplayName() == if parent == [] then st.SimpleName().value
                          else Join(parent, " ") + " " + st.SimpleName().value
  {
    if !st.IsRoot() {
      var n := |st.fullName|;
      assert st.fullName == st.fullName[..n - 1] + [st.fullName[n - 1]];
      JoinSnoc(st.fullName[..n - 1], st.fullName[n - 1], " ");
    }
  }

  /** What the definition calls on an open tool make it include: a non-empty
      description, a script, and (when they succeed) any flag or positional
      argument, each of which counts as part of the definition. */
  lemma DefinitionCallsInclude(st: ToolState, op: DefOp, makeFlag: FlagConstructor)
    requires !st.finished
    ensures var s := st.Apply(op, makeFlag);
      && (op.SetDesc? && op.desc != [] ==> s.state.IncludesDescription())
      && (op.SetLongDesc? && op.descs != [] ==> s.state.IncludesDescription())
      && (op.SetScript? && op.script.Some? ==> s.state.IncludesScript() && s.state.IncludesDefinition())
      && (op.SetScript? && op.script.None? ==> !s.state.IncludesScript())
      && (op.Declares() && s.outcome.Pass? ==>
            s.state.IncludesArguments() && s.state.IncludesDefinition())
  {
    var s := st.Apply(op, makeFlag);
    match op
    case AddFlag(key, fs, accept, dv, handler, report) =>
      if s.outcome.Pass? {
        assert key in s.state.defaultData;
      }
    case AddOptionalArg(key, dv, accept, name) =>
      if s.outcome.Pass? {
        assert key in s.state.defaultData;
      }
    case SetRemainingArgs(key, dv, accept, name) =>
      if s.outcome.Pass? {
        assert key in s.state.defaultData;
      }
    case _ =>
  }

  // ---------------------------------------------------------- the lock discipline

  /** Once finished, every guarded call raises "already finished" naming the
      tool and changes nothing. */
  lemma FinishedRejectsGuarded(st: ToolState, op: DefOp, makeFlag: FlagConstructor)
    requires st.finished && op.Guarded()
    ensures st.Apply(op, makeFlag) == Step(Fail(DefinitionFinished(st.DisplayName())), st)
  {
  }

  /** The unguarded calls (`lock_definition_path`, `add_acceptor`,
      `disable_flag`) do not consult the lock: they behave the same whether
      the tool is finished or not. */
  lemma UnguardedIgnoreLock(st: ToolState, op: DefOp, makeFlag: FlagConstructor)
    requires !op.Guarded()
    ensures st.Apply(op, makeFlag).outcome == st.(finished := !st.finished).Apply(op, makeFlag).outcome
    ensures st.Apply(op, makeFlag).state
         == st.(finished := !st.finished).Apply(op, makeFlag).state.(finished := st.finished)
  {
  }

  /** No definition call changes the lock or the name. */
  lemma ApplyKeepsLockAndName(st: ToolState, op: DefOp, makeFlag: FlagConstructor)
    ensures st.Apply(op, makeFlag).state.finished == st.finished
    ensures st.Apply(op, makeFlag).state.fullName == st.fullName
  {
  }

  /** On a finished tool, any run of calls changes at most the definition
      path, the acceptor registry and the used flags, and stops at the first
      guarded call with "already finished". */
  lemma {:induction false} FinishedToolFrozen(st: ToolState, ops: seq<DefOp>, makeFlag: FlagConstructor)
    requires st.finished
    ensures var s := st.ApplyAll(ops, makeFlag).state;
      && s.finished && s.fullName == st.fullName
      && s.desc == st.desc && s.longDesc == st.longDesc && s.defaultData == st.defaultData
      && s.flags == st.flags && s.required == st.required && s.optional == st.optional
      && s.remaining == st.remaining && s.script == st.script
    ensures (exists i :: 0 <= i < |ops| && ops[i].Guarded()) ==>
      st.ApplyAll(ops, makeFlag).outcome.Fail?
    decreases |ops|
  {
    if |ops| > 0 {
      var s := st.Apply(ops[0], makeFlag);
      if ops[0].Guarded() {
        FinishedRejectsGuarded(st, ops[0], makeFlag);
      } else if s.outcome.Pass? {
        FinishedToolFrozen(s.state, ops[1..], makeFlag);
        if exists i :: 0 <= i < |ops| && ops[i].Guarded() {
          var i :| 0 <= i < |ops| && ops[i].Guarded();
          assert i > 0 && ops[1..][i - 1].Guarded();
        }
      }
    }
  }

  /** `finish_definition` locks the tool when it succeeds, leaves it open when
      a middleware raises, and is a no-op on a finished tool; so a second call
      after a successful one runs no middleware. */
  lemma FinishLocksOnce(st: ToolState, stack: seq<Middleware>, makeFlag: FlagConstructor)
    ensures var s := Finish(st, stack, makeFlag);
      (s.outcome.Pass? ==> s.state.finished) &&
      (s.outcome.Fail? ==> !s.state.finished && s.outcome.error.MiddlewareError? &&
                           s.outcome.error.tool == st.fullName)
    ensures st.finished ==> Finish(st, stack, makeFlag) == Step(Pass, st)
    ensures var s := Finish(st, stack, makeFlag);
      s.outcome.Pass? ==> Finish(s.state, stack, makeFlag) == Step(Pass, s.state)
  {
    if !st.finished {
      RunConfigKeepsLock(st, Nest(stack), makeFlag);
    }
  }

  lemma {:induction false} ApplyAllKeepsLockAndName(st: ToolState, ops: seq<DefOp>, makeFlag: FlagConstructor)
    ensures st.ApplyAll(ops, makeFlag).state.finished == st.finished
    ensures st.ApplyAll(ops, makeFlag).state.fullName == st.fullName
    decreases |ops|
  {
    if |ops| > 0 {
      ApplyKeepsLockAndName(st, ops[0], makeFlag);
      var s := st.Apply(ops[0], makeFlag);
      if s.outcome.Pass? {
        ApplyAllKeepsLockAndName(s.state, ops[1..], makeFlag);
      }
    }
  }

  lemma {:induction false} RunConfigKeepsLock(st: ToolState, c: Chain<Middleware>, makeFlag: FlagConstructor)
    ensures RunConfig(st, c, makeFlag).state.finished == st.finished
    ensures RunConfig(st, c, makeFlag).state.fullName == st.fullName
    decreases c
  {
    match c
    case Terminal =>
    case Layer(m, inner) =>
      ApplyAllKeepsLockAndName(st, m.config.before, makeFlag);
      var pre := st.ApplyAll(m.config.before, makeFlag);
      if pre.outcome.Pass? {
        if m.config.proceed {
          RunConfigKeepsLock(pre.state, inner, makeFlag);
        }
        var mid := if m.config.proceed then RunConfig(pre.state, inner, makeFlag) else pre;
        if mid.outcome.Pass? {
          ApplyAllKeepsLockAndName(mid.state, m.config.after, makeFlag);
        }
      }
  }

  /** The configuration calls run outside in: with every middleware calling
      `next`, the calls made are the first middleware's "before" calls, then
      the second's, ..., then the last one's "after" calls, ..., then the
      first one's. */
  lemma {:induction false} ConfigOrder(st: ToolState, stack: seq<Middleware>, makeFlag: FlagConstructor)
    requires forall i :: 0 <= i < |stack| ==> stack[i].config.proceed
    ensures RunConfig(st, Nest(stack), makeFlag) == st.ApplyAll(ConfigCalls(stack), makeFlag)
    decreases |stack|
  {
    if |stack| > 0 {
      var m := stack[0];
      var rest := stack[1..];
      ApplyAllAppend(st, m.config.before, ConfigCalls(rest) + m.config.after, makeFlag);
      var pre := st.ApplyAll(m.config.before, makeFlag);
      if pre.outcome.Pass? {
        ConfigOrder(pre.state, rest, makeFlag);
        ApplyAllAppend(pre.state, ConfigCalls(rest), m.config.after, makeFlag);
      }
      assert ConfigCalls(stack) == m.config.before + (ConfigCalls(rest) + m.config.after);
    }
  }

  /** The calls the chain makes when every middleware calls `next`. */
  function ConfigCalls(stack: seq<Middleware>): seq<DefOp>
    decreases |stack|
  {
    if |stack| == 0 then []
    else stack[0].config.before + ConfigCalls(stack[1..]) + stack[0].config.after
  }

  /** Running two runs of calls back to back is running their concatenation. */
  lemma {:induction false} ApplyAllAppend(st: ToolState, a: seq<DefOp>, b: seq<DefOp>, makeFlag: FlagConstructor)
    ensures st.ApplyAll(a + b, makeFlag) ==
      (var s := st.ApplyAll(a, makeFlag); if s.outcome.Fail? then s else s.state.ApplyAll(b, makeFlag))
    decreases |a|
  {
    if |a| == 0 {
      assert a + b == b;
    } else {
      assert (a + b)[0] == a[0];
      assert (a + b)[1..] == a[1..] + b;
      var s := st.Apply(a[0], makeFlag);
      if s.outcome.Pass? {
        ApplyAllAppend(s.state, a[1..], b, makeFlag);
      }
    }
  }

  // ------------------------------------------------------- the definition path

  /** The first `lock_definition_path` records its path; the same path again
      succeeds and changes nothing; a different path raises and keeps the
      recorded one. */
  lemma LockDefinitionPathRules(st: ToolState, path: string, makeFlag: FlagConstructor)
    ensures var s := st.Apply(LockDefinitionPath(path), makeFlag);
      (st.definitionPath.None? ==> s == Step(Pass, st.(definitionPath := Some(path)))) &&
      (st.definitionPath == Some(path) ==> s == Step(Pass, st)) &&
      (st.definitionPath.Some? && st.definitionPath.value != path ==>
         s.outcome == Fail(Redefinition(st.DisplayName(), path, st.definitionPath.value)) && s.state == st)
  {
  }

  /** Once recorded, the definition path never changes, whatever calls follow. */
  lemma {:induction false} DefinitionPathSticks(st: ToolState, ops: seq<DefOp>, makeFlag: FlagConstructor)
    requires st.definitionPath.Some?
    ensures st.ApplyAll(ops, makeFlag).state.definitionPath == st.definitionPath
    decreases |ops|
  {
    if |ops| > 0 {
      var s := st.Apply(ops[0], makeFlag);
      assert s.state.definitionPath == st.definitionPath;
      if s.outcome.Pass? {
        DefinitionPathSticks(s.state, ops[1..], makeFlag);
      }
    }
  }

  // -------------------------------------------------------------- disabling flags

  /** `disable_flag` raises exactly when one of its flags is already used,
      naming the clashing ones; otherwise it appends its flags, each once, to
      `used_flags` and changes nothing else. It is not guarded by the lock. */
  lemma DisableFlagRules(st: ToolState, fs: seq<string>, makeFlag: FlagConstructor)
    ensures var s := st.Apply(DisableFlag(fs), makeFlag);
      (s.outcome.Fail? <==> exists f :: f in fs && f in st.usedFlags) &&
      (s.outcome.Fail? ==>
         s.state == st && s.outcome.error.FlagsAlreadyUsed? &&
         (forall f :: f in s.outcome.error.flags <==> f in fs && f in st.usedFlags)) &&
      (s.outcome.Pass? ==>
         s.state == st.(usedFlags := st.usedFlags + Uniq(fs)) &&
         (forall f :: f in fs ==> f in s.state.usedFlags))
  {
    var clash := Intersect(st.usedFlags, Uniq(fs));
    if exists f :: f in fs && f in st.usedFlags {
      var f :| f in fs && f in st.usedFlags;
      assert f in clash;
    }
  }

  /** A successful `disable_flag` keeps `used_flags` free of repeats, and
      disabling any of the same flags again raises. */
  lemma DisableFlagDistinct(st: ToolState, fs: seq<string>, makeFlag: FlagConstructor)
    requires NoDuplicates(st.usedFlags)
    requires st.Apply(DisableFlag(fs), makeFlag).outcome.Pass?
    ensures NoDuplicates(st.Apply(DisableFlag(fs), makeFlag).state.usedFlags)
    ensures fs != [] ==> st.Apply(DisableFlag(fs), makeFlag).state.Apply(DisableFlag(fs), makeFlag).outcome.Fail?
  {
    DisableFlagRules(st, fs, makeFlag);
    var u := Uniq(fs);
    var used := st.usedFlags + u;
    assert forall x :: x in u ==> x !in st.usedFlags;
    forall i, j | 0 <= i < j < |used| ensures used[i] != used[j] {
      if j < |st.usedFlags| {
      } else if i >= |st.usedFlags| {
        assert used[i] == u[i - |st.usedFlags|] && used[j] == u[j - |st.usedFlags|];
      } else {
        assert used[j] in u;
      }
    }
    if fs != [] {
      var s := st.Apply(DisableFlag(fs), makeFlag).state;
      DisableFlagRules(s, fs, makeFlag);
      assert fs[0] in fs && fs[0] in s.usedFlags;
    }
  }

  // ------------------------------------------------------------- flags and args

  /** `add_flag` on an open tool: an unknown acceptor raises, a flag the flag
      class rejects raises, and either way nothing changes; otherwise the
      default is recorded under the key whether or not the flag is active, and
      the flag is appended only when it is active. */
  lemma AddFlagBookkeeping(st: ToolState, key: Key, fs: seq<string>, accept: AcceptSpec, dv: Value,
                           handler: Option<nat>, report: bool, makeFlag: FlagConstructor)
    requires !st.finished
    ensures var s := st.Apply(AddFlag(key, fs, accept, dv, handler, report), makeFlag);
      && (st.ResolveAcceptor(accept).Err? ==> s == Step(Fail(st.ResolveAcceptor(accept).error), st))
      && (s.outcome.Fail? ==> s.state == st)
      && (s.outcome.Pass? ==>
            && st.ResolveAcceptor(accept).Ok?
            && s.state.defaultData == st.defaultData[key := dv]
            && s.state.required == st.required && s.state.optional == st.optional
            && s.state.remaining == st.remaining && s.state.acceptors == st.acceptors
            && s.state.script == st.script && s.state.desc == st.desc
            && var b := makeFlag(FlagRequest(key, fs, st.ResolveAcceptor(accept).value, dv, handler, report),
                                 st.usedFlags);
               && b.Built?
               && s.state.usedFlags == b.usedFlags
               && (b.active ==>
                     s.state.flags == st.flags + [Flag(key, b.switches, st.ResolveAcceptor(accept).value, dv,
                                                       HandlerOf(handler), true)])
               && (!b.active ==> s.state.flags == st.flags))
  {
  }

  /** The three kinds of positional argument keep their books differently:
      a required arg leaves the defaults alone, an optional arg and the
      remaining-args definition record their default; the remaining-args
      definition replaces any earlier one. */
  lemma PositionalBookkeeping(st: ToolState, key: Key, dv: Value, accept: AcceptSpec, name: string,
                              makeFlag: FlagConstructor)
    requires !st.finished && st.ResolveAcceptor(accept).Ok?
    ensures var acc := st.ResolveAcceptor(accept).value;
      && st.Apply(AddRequiredArg(key, accept, name), makeFlag)
         == Step(Pass, st.(required := st.required + [Arg(key, Required, acc, Nil, name)]))
      && st.Apply(AddOptionalArg(key, dv, accept, name), makeFlag)
         == Step(Pass, st.(optional := st.optional + [Arg(key, Optional, acc, dv, name)],
                           defaultData := st.defaultData[key := dv]))
      && st.Apply(SetRemainingArgs(key, dv, accept, name), makeFlag)
         == Step(Pass, st.(remaining := Some(Arg(key, Remaining, acc, dv, name)),
                           defaultData := st.defaultData[key := dv]))
  {
  }

  /** The positional definitions keep declaration order: a new required arg
      lands after the existing required ones and before every optional one, a
      new optional arg after the existing optional ones and before the
      remaining-args definition. */
  lemma ArgDefinitionsOrder(st: ToolState, key: Key, dv: Value, accept: AcceptSpec, name: string,
                            makeFlag: FlagConstructor)
    requires !st.finished && st.ResolveAcceptor(accept).Ok?
    ensures var acc := st.ResolveAcceptor(accept).value;
      && st.Apply(AddRequiredArg(key, accept, name), makeFlag).state.ArgDefinitions()
         == st.required + [Arg(key, Required, acc, Nil, name)] + st.optional
            + (if st.remaining.Some? then [st.remaining.value] else [])
      && st.Apply(AddOptionalArg(key, dv, accept, name), makeFlag).state.ArgDefinitions()
         == st.required + st.optional + [Arg(key, Optional, acc, dv, name)]
            + (if st.remaining.Some? then [st.remaining.value] else [])
  {
  }

  /** `add_required_arg`, `add_optional_arg` and `set_remaining_args` on an
      open tool with an acceptor name missing from the registry raise
      "unknown acceptor" naming it and change nothing. */
  lemma PositionalUnknownAcceptor(st: ToolState, key: Key, dv: Value, accept: AcceptSpec, name: string,
                                  makeFlag: FlagConstructor)
    requires !st.finished && st.ResolveAcceptor(accept).Err?
    ensures accept.ByName? && accept.name !in st.acceptors
    ensures var e := UnknownAcceptor(accept.name);
      && st.Apply(AddRequiredArg(key, accept, name), makeFlag) == Step(Fail(e), st)
      && st.Apply(AddOptionalArg(key, dv, accept, name), makeFlag) == Step(Fail(e), st)
      && st.Apply(SetRemainingArgs(key, dv, accept, name), makeFlag) == Step(Fail(e), st)
  {
  }

  // ------------------------------------------------------------------ acceptors

  /** On a new tool every built-in resolves to itself and no custom name
      resolves. */
  lemma InitialAcceptorResolution(fullName: seq<string>, b: Builtin, name: string)
    ensures Initial(fullName).ResolveAcceptor(ByName(BuiltinName(b))) == Ok(Some(BuiltinAccept(b)))
    ensures Initial(fullName).ResolveAcceptor(ByName(CustomName(name))) == Err(UnknownAcceptor(CustomName(name)))
  {
    var acceptors := Initial(fullName).acceptors;
    assert BuiltinName(b) in acceptors;
    assert CustomName(name) !in acceptors;
  }

  /** On a reachable tool a name resolves exactly when it is registered,
      every built-in resolves, and what a name resolves to is filed under
      that name: a built-in to itself, a custom acceptor to one named so. */
  lemma AcceptorResolutionOnWellFormed(st: ToolState, n: AcceptorName)
    requires WellFormed(st)
    ensures st.ResolveAcceptor(ByName(n)).Ok? <==> n in st.acceptors
    ensures n.BuiltinName? ==> st.ResolveAcceptor(ByName(n)).Ok?
    ensures st.ResolveAcceptor(ByName(n)).Ok? ==>
      && st.ResolveAcceptor(ByName(n)).value.Some?
      && FiledUnderOwnName(n, st.ResolveAcceptor(ByName(n)).value.value)
  {
    if n.BuiltinName? {
      assert BuiltinName(n.builtin) in st.acceptors;
    }
  }

  /** After `add_acceptor` its name resolves to it; the call is not guarded,
      so this holds on a finished tool too. */
  lemma AddedAcceptorResolves(st: ToolState, a: Acceptor, makeFlag: FlagConstructor)
    ensures st.Apply(AddAcceptor(a), makeFlag).outcome.Pass?
    ensures st.Apply(AddAcceptor(a), makeFlag).state.ResolveAcceptor(ByName(a.name)) == Ok(Some(CustomAccept(a)))
  {
    var s := st.Apply(AddAcceptor(a), makeFlag);
    assert s.state == st.(acceptors := st.acceptors[a.name := CustomAccept(a)]);
  }
}
