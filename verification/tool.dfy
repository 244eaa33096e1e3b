/** `Toys::Definition::Tool`: a tool definition whose fields the definition
    calls update in place. Every mutator is proved to do to `State()` what
    `ToolState.Apply` says, and `FinishDefinition` what `Finish` says; the
    properties of those are proved in `ToolModel`. */
module Definition {
  import opened Base
  import opened Composition
  import opened ToolModel

  class Tool {
    const fullName: seq<string>
    const priority: int
    const middlewareStack: seq<Middleware>
    /** `Definition::Flag.new`. */
    const flagClass: FlagConstructor

    var definitionPath: Option<string>
    var definitionFinished: bool
    var desc: seq<string>
    var longDesc: seq<seq<string>>
    var defaultData: map<Key, Value>
    var acceptors: map<AcceptorName, Accept>
    var usedFlags: seq<string>
    var flagDefinitions: seq<Flag>
    var requiredArgDefinitions: seq<Arg>
    var optionalArgDefinitions: seq<Arg>
    var remainingArgsDefinition: Option<Arg>
    var script: Option<Script>

    /** The tool as a value. */
    function State(): ToolState
      reads this
    {
      ToolState(fullName, definitionPath, definitionFinished, desc, longDesc, defaultData,
                acceptors, usedFlags, flagDefinitions, requiredArgDefinitions,
                optionalArgDefinitions, remainingArgsDefinition, script)
    }

    constructor (fullName: seq<string>, priority: int, middlewareStack: seq<Middleware>,
                 flagClass: FlagConstructor)
      ensures State() == Initial(fullName)
      ensures this.priority == priority && this.middlewareStack == middlewareStack
      ensures this.flagClass == flagClass
    {
      this.fullName := fullName;
      this.priority := priority;
      this.middlewareStack := middlewareStack;
      this.flagClass := flagClass;
      definitionPath := None;
      definitionFinished := false;
      desc := [];
      longDesc := [];
      defaultData := map[];
      acceptors := InitialAcceptors();
      usedFlags := [];
      flagDefinitions := [];
      requiredArgDefinitions := [];
      optionalArgDefinitions := [];
      remainingArgsDefinition := None;
      script := None;
    }

    function DisplayName(): string
    {
      Join(fullName, " ")
    }

    predicate IncludesScript()
      reads this
    {
      State().IncludesScript()
    }

    predicate IncludesArguments()
      reads this
    {
      State().IncludesArguments()
    }

    predicate DefinitionFinished()
      reads this
    {
      definitionFinished
    }

    function ArgDefinitions(): seq<Arg>
      reads this
    {
      State().ArgDefinitions()
    }

    method LockDefinitionPath(path: string) returns (r: Outcome<DefinitionError>)
      modifies this
      ensures Step(r, State()) == old(State()).Apply(DefOp.LockDefinitionPath(path), flagClass)
    {
      if definitionPath.Some? && definitionPath.value != path {
        return Fail(Redefinition(DisplayName(), path, definitionPath.value));
      }
      definitionPath := Some(path);
      r := Pass;
    }

    method SetDesc(d: seq<string>) returns (r: Outcome<DefinitionError>)
      modifies this
      ensures Step(r, State()) == old(State()).Apply(DefOp.SetDesc(d), flagClass)
    {
      r := CheckDefinitionState();
      if r.Fail? { return; }
      desc := d;
    }

    method SetLongDesc(ds: seq<seq<string>>) returns (r: Outcome<DefinitionError>)
      modifies this
      ensures Step(r, State()) == old(State()).Apply(DefOp.SetLongDesc(ds), flagClass)
    {
      r := CheckDefinitionState();
      if r.Fail? { return; }
      longDesc := ds;
    }

    method AddAcceptor(acceptor: Acceptor) returns (r: Outcome<DefinitionError>)
      modifies this
      ensures Step(r, State()) == old(State()).Apply(DefOp.AddAcceptor(acceptor), flagClass)
    {
      acceptors := acceptors[acceptor.name := CustomAccept(acceptor)];
      r := Pass;
    }

    method AddFlag(key: Key, flags: seq<string> := [], accept: AcceptSpec := NoAcceptor,
                   defaultValue: Value := Nil, handler: Option<nat> := None, reportCollisions: bool := true)
      returns (r: Outcome<DefinitionError>)
      modifies this
      ensures Step(r, State()) ==
        old(State()).Apply(DefOp.AddFlag(key, flags, accept, defaultValue, handler, reportCollisions), flagClass)
    {
      r := CheckDefinitionState();
      if r.Fail? { return; }
      var resolved := ResolveAcceptor(accept);
      if resolved.Err? { return Fail(resolved.error); }
      var acc := resolved.value;
      var built := flagClass(FlagRequest(key, flags, acc, defaultValue, handler, reportCollisions), usedFlags);
      if built.Rejected? { return Fail(FlagRejected(built.reason)); }
      var flag := Flag(key, built.switches, acc, defaultValue, HandlerOf(handler), built.active);
      usedFlags := built.usedFlags;
      if flag.active {
        flagDefinitions := flagDefinitions + [flag];
      }
      defaultData := defaultData[key := defaultValue];
    }

    method DisableFlag(flags: seq<string>) returns (r: Outcome<DefinitionError>)
      modifies this
      ensures Step(r, State()) == old(State()).Apply(DefOp.DisableFlag(flags), flagClass)
    {
      var unique := Uniq(flags);
      var intersection := Intersect(usedFlags, unique);
      if intersection != [] {
        return Fail(FlagsAlreadyUsed(intersection));
      }
      usedFlags := usedFlags + unique;
      r := Pass;
    }

    method AddRequiredArg(key: Key, accept: AcceptSpec := NoAcceptor, displayName: string)
      returns (r: Outcome<DefinitionError>)
      modifies this
      ensures Step(r, State()) == old(State()).Apply(DefOp.AddRequiredArg(key, accept, displayName), flagClass)
    {
      r := CheckDefinitionState();
      if r.Fail? { return; }
      var resolved := ResolveAcceptor(accept);
      if resolved.Err? { return Fail(resolved.error); }
      requiredArgDefinitions := requiredArgDefinitions + [Arg(key, Required, resolved.value, Nil, displayName)];
    }

    method AddOptionalArg(key: Key, defaultValue: Value := Nil, accept: AcceptSpec := NoAcceptor,
                          displayName: string)
      returns (r: Outcome<DefinitionError>)
      modifies this
      ensures Step(r, State()) ==
        old(State()).Apply(DefOp.AddOptionalArg(key, defaultValue, accept, displayName), flagClass)
    {
      r := CheckDefinitionState();
      if r.Fail? { return; }
      var resolved := ResolveAcceptor(accept);
      if resolved.Err? { return Fail(resolved.error); }
      optionalArgDefinitions := optionalArgDefinitions
        + [Arg(key, Optional, resolved.value, defaultValue, displayName)];
      defaultData := defaultData[key := defaultValue];
    }

    method SetRemainingArgs(key: Key, defaultValue: Value := List([]), accept: AcceptSpec := NoAcceptor,
                            displayName: string)
      returns (r: Outcome<DefinitionError>)
      modifies this
      ensures Step(r, State()) ==
        old(State()).Apply(DefOp.SetRemainingArgs(key, defaultValue, accept, displayName), flagClass)
    {
      r := CheckDefinitionState();
      if r.Fail? { return; }
      var resolved := ResolveAcceptor(accept);
      if resolved.Err? { return Fail(resolved.error); }
      remainingArgsDefinition := Some(Arg(key, Remaining, resolved.value, defaultValue, displayName));
      defaultData := defaultData[key := defaultValue];
    }

    method SetScript(s: Option<Script>) returns (r: Outcome<DefinitionError>)
      modifies this
      ensures Step(r, State()) == old(State()).Apply(DefOp.SetScript(s), flagClass)
    {
      r := CheckDefinitionState();
      if r.Fail? { return; }
      script := s;
    }

    /** One definition call, as a middleware's configuration makes it. */
    method Perform(op: DefOp) returns (r: Outcome<DefinitionError>)
      modifies this
      ensures Step(r, State()) == old(State()).Apply(op, flagClass)
    {
      match op
      case LockDefinitionPath(path) => r := LockDefinitionPath(path);
      case SetDesc(d) => r := SetDesc(d);
      case SetLongDesc(ds) => r := SetLongDesc(ds);
      case AddAcceptor(a) => r := AddAcceptor(a);
      case AddFlag(key, fs, accept, dv, handler, report) => r := AddFlag(key, fs, accept, dv, handler, report);
      case DisableFlag(fs) => r := DisableFlag(fs);
      case AddRequiredArg(key, accept, name) => r := AddRequiredArg(key, accept, name);
      case AddOptionalArg(key, dv, accept, name) => r := AddOptionalArg(key, dv, accept, name);
      case SetRemainingArgs(key, dv, accept, name) => r := SetRemainingArgs(key, dv, accept, name);
      case SetScript(s) => r := SetScript(s);
    }

    /** The calls one middleware makes on one side of `next`, stopping at the
        first that raises. */
    method PerformAll(ops: seq<DefOp>) returns (r: Outcome<DefinitionError>)
      modifies this
      ensures Step(r, State()) == old(State()).ApplyAll(ops, flagClass)
    {
      var i := 0;
      while i < |ops|
        invariant 0 <= i <= |ops|
        invariant old(State()).ApplyAll(ops, flagClass) == State().ApplyAll(ops[i..], flagClass)
      {
        assert ops[i..][0] == ops[i] && ops[i..][1..] == ops[i + 1..];
        r := Perform(ops[i]);
        if r.Fail? { return; }
        i := i + 1;
      }
      r := Pass;
    }

    /** Calling the composed configuration proc. */
    method CallConfig(c: Chain<Middleware>) returns (r: Outcome<DefinitionError>)
      modifies this
      ensures Step(r, State()) == RunConfig(old(State()), c, flagClass)
      decreases c
    {
      match c
      case Terminal =>
        r := Pass;
      case Layer(m, inner) =>
        r := PerformAll(m.config.before);
        if r.Fail? { return; }
        if m.config.proceed {
          r := CallConfig(inner);
          if r.Fail? { return; }
        }
        r := PerformAll(m.config.after);
    }

    /** `finish_definition`: on the first call, compose the middleware stack
        from a no-op, run it, and lock the tool. */
    method FinishDefinition() returns (r: Outcome<DefinitionError>)
      modifies this
      ensures Step(r, State()) == Finish(old(State()), middlewareStack, flagClass)
      ensures r.Pass? ==> DefinitionFinished()
    {
      if definitionFinished {
        return Pass;
      }
      var chain := WrapAll(middlewareStack);
      r := CallConfig(chain);
      if r.Fail? {
        return Fail(MiddlewareError(fullName, r.error));
      }
      definitionFinished := true;
    }

    method CheckDefinitionState() returns (r: Outcome<DefinitionError>)
      ensures r.Pass? <==> !DefinitionFinished()
      ensures r.Fail? ==> r.error == DefinitionError.DefinitionFinished(DisplayName())
    {
      if definitionFinished {
        return Fail(DefinitionError.DefinitionFinished(DisplayName()));
      }
      r := Pass;
    }

    method ResolveAcceptor(accept: AcceptSpec) returns (r: Result<Option<Accept>>)
      ensures r == State().ResolveAcceptor(accept)
    {
      match accept
      case NoAcceptor => r := Ok(None);
      case GivenAcceptor(a) => r := Ok(Some(CustomAccept(a)));
      case ByName(n) =>
        if n !in acceptors {
          return Err(UnknownAcceptor(n));
        }
        r := Ok(Some(acceptors[n]));
    }
  }
}
