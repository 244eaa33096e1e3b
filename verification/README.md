# Toys tool definitions and the executor, in Dafny

This project models the core of the Toys command-line framework:

- **`Toys::Definition::Tool`** is the definition of one tool. Definition calls add flags, positional args, defaults, acceptors and a script. Every call except `lock_definition_path`, `add_acceptor` and `disable_flag` is refused once the definition is finished. `finish_definition` runs the middleware configuration chain once and then locks the tool.
- **`Toys::Executor`** runs a tool. It builds the data hash from the defaults and five reserved keys, and folds the flag occurrences through their handlers. It binds the positional tokens to the required, then optional, then remaining args, and records a usage error when they do not fit. It then runs the script inside the middleware chain, with the logger level narrowed, and returns an exit code.

The project has six files:

- `base.dfy` (module `Base`): data keys and values, and the Ruby collection operations the definition code uses (`uniq`, `&`, `join`, `Hash#[]`).
- `composition.dfy` (module `Composition`): the nested procs both loops over `middleware_stack.reverse` build. The first stack entry is the outermost.
- `tool_model.dfy` (module `ToolModel`): the tool as a value, `ToolState`. `Apply` is the meaning of every definition call, and `Finish` the meaning of `finish_definition`. The lemmas state the lock discipline, the collision rules of `disable_flag`, the `default_data` bookkeeping, acceptor resolution and argument order.
- `tool.dfy` (module `Definition`): `class Tool`, with the fields the Ruby class updates in place. Every mutator is proved to do to `State()` what `Apply` says.
- `executor.dfy` (module `Execution`): the stages of `execute` as functions. `class Executor`'s methods, with their loops, are proved against those functions.
- `execution_laws.dfy` (module `ExecutionLaws`): what the stages promise about the final data, the log level, the order in which middlewares run, and the exit code.

Code the model cannot see becomes a parameter:

- `Definition::Flag.new` is the `FlagConstructor` function held by a `Tool`. It is given the request and the current `used_flags`, and returns the switches, whether the flag is active, and the new `used_flags`, or raises.
- `OptionParser#parse` (loaded with the tool's active flags), `Arg#process_value` and the custom handler procs are the three function values in `Collaborators`.
- A middleware is data:
  - its `config` is a list of definition calls before `next`, whether it calls `next`, and a list after;
  - its `execute` is the same shape, over actions (log a line, `exit(code)`, raise, exit if a usage error is pending).
- The script is such a list of actions.
- `throw :result` is the `Thrown` signal, which `catch(:result)` turns into the exit code.
- A usage error is the value `UsageError(reason, path)` stored under the usage-error key.

Two behaviours of the code worth noting:

- Custom acceptors are not registered with OptionParser. The block given to `custom_acceptors` at toys-core/lib/toys/executor.rb:91-93 is never yielded to.
- "Tool not found" names the full name followed by *all* the original args (executor.rb:122), not only the leftovers.

## Model

| member | source | states |
|---|---|---|
| Base.Join | toys-core/lib/toys/definition/tool.rb:193-195 | joining words with a separator; what the display name built from it looks like is `JoinSnoc` and `ToolModel.DisplayNameEndsWithSimpleName` |
| Base.JoinSnoc | toys-core/lib/toys/definition/tool.rb:194 | joining one more word puts it after the joined words and the separator, and alone when there were none |
| Base.Uniq | toys-core/lib/toys/definition/tool.rb:381 | `uniq` keeps exactly the elements of its input, each once, and is no longer than the input |
| Base.UniqOrder | toys-core/lib/toys/definition/tool.rb:381 | `uniq` keeps the first occurrences in their original order |
| Base.UniqOfDistinct | toys-core/lib/toys/definition/tool.rb:381 | a list without repeats is its own `uniq` |
| Base.Intersect | toys-core/lib/toys/definition/tool.rb:382 | `used_flags & flags` holds exactly the elements in both, without repeats, and is empty exactly when the two share nothing |
| Base.IntersectOrder | toys-core/lib/toys/definition/tool.rb:382 | `used_flags & flags` lists its elements in the order they have in `used_flags` |
| Composition.NestOrder | toys-core/lib/toys/definition/tool.rb:507-511 | the composed chain's layers, outside in, are the middleware stack in order; the first entry is the outermost |
| Composition.WrapAll | toys-core/lib/toys/executor.rb:144-146 | the loop over the reversed stack, wrapping the continuation once per middleware, builds the chain whose layers are the stack in order (the same loop builds `config_proc` at tool.rb:507-510) |
| ToolModel.BuiltinsListed | toys-core/lib/toys/definition/tool.rb:49-63 | the list of built-in acceptors contains all 13 of them |
| ToolModel.InitialAcceptors | toys-core/lib/toys/definition/tool.rb:83-84 | a new tool's acceptor registry maps every built-in to itself and holds nothing else |
| ToolModel.ToolState.SimpleName | toys-core/lib/toys/definition/tool.rb:184-186 | the last word of the full name, missing for the root tool; with the display name and `root?` it is related by `DisplayNameEndsWithSimpleName` |
| ToolModel.ToolState.DisplayName | toys-core/lib/toys/definition/tool.rb:193-195 | the full name spelled with spaces; stated by `DisplayNameEndsWithSimpleName` |
| ToolModel.ToolState.IsRoot | toys-core/lib/toys/definition/tool.rb:201-203 | the root tool is the one with an empty full name; stated by `DisplayNameEndsWithSimpleName` |
| ToolModel.DisplayNameEndsWithSimpleName | toys-core/lib/toys/definition/tool.rb:184-203 | the root tool, and only it, has an empty display name and no simple name; any other tool's display name is its simple name, after the parent's display name and a space when it has a parent |
| ToolModel.ToolState.IncludesScript | toys-core/lib/toys/definition/tool.rb:209-211 | whether a script is set; what sets it is stated by `DefinitionCallsInclude` |
| ToolModel.ToolState.IncludesDescription | toys-core/lib/toys/definition/tool.rb:217-219 | whether a description or long description is set; stated by `DefinitionCallsInclude` |
| ToolModel.ToolState.IncludesArguments | toys-core/lib/toys/definition/tool.rb:226-230 | whether any default, flag or positional arg is defined; stated by `IncludesArgumentsByDefaults` and `DefinitionCallsInclude` |
| ToolModel.ToolState.IncludesDefinition | toys-core/lib/toys/definition/tool.rb:236-238 | arguments or a script; stated by `DefinitionCallsInclude` |
| ToolModel.DefinitionCallsInclude | toys-core/lib/toys/definition/tool.rb:209-238 | on an open tool a non-empty `desc=` or `long_desc=` makes the tool include a description, `script=` with a script makes it include a script and a definition and `script=` with nil removes it, and any flag or positional call that succeeds makes it include arguments and a definition |
| ToolModel.ToolState.ArgDefinitions | toys-core/lib/toys/definition/tool.rb:252-256 | the arg definitions are the required ones, then the optional ones, then the remaining-args definition if set |
| ToolModel.ToolState.CheckDefinitionState | toys-core/lib/toys/definition/tool.rb:524-529 | the check passes exactly when the definition is not finished |
| ToolModel.ToolState.ResolveAcceptor | toys-core/lib/toys/definition/tool.rb:531-537 | the lookup itself; what it resolves to is stated by `AcceptorResolutionOnWellFormed`, `InitialAcceptorResolution`, `AddedAcceptorResolves` and `PositionalUnknownAcceptor` |
| ToolModel.AcceptorResolutionOnWellFormed | toys-core/lib/toys/definition/tool.rb:531-537 | on a reachable tool a name resolves exactly when it is registered, every built-in resolves, and what a name resolves to is filed under that name (a built-in to itself, a custom acceptor to one with that name) |
| ToolModel.ToolState.Apply | toys-core/lib/toys/definition/tool.rb:280-496 | the effect of one definition call; stated call by call by `LockDefinitionPathRules`, `DisableFlagRules`, `AddFlagBookkeeping`, `PositionalBookkeeping`, `PositionalUnknownAcceptor`, `DefinitionCallsInclude`, `FinishedRejectsGuarded`, `UnguardedIgnoreLock`, `ApplyKeepsLockAndName` and `ApplyWellFormed`; each mutator of `Definition.Tool` is proved to do what it says |
| ToolModel.ToolState.ApplyAll | toys-core/lib/toys/definition/tool.rb:520-522 | a middleware's calls in order, stopping at the first that raises; stated by `ApplyAllAppend`, `FinishedToolFrozen`, `DefinitionPathSticks` and `ApplyAllWellFormed` |
| ToolModel.Initial | toys-core/lib/toys/definition/tool.rb:70-92 | a new tool; stated by `InitialWellFormed` and `InitialAcceptorResolution`, and the constructor of `Definition.Tool` builds it |
| ToolModel.RunConfig | toys-core/lib/toys/definition/tool.rb:507-511 | calling the composed configuration proc; stated by `ConfigOrder`, `RunConfigWellFormed` and `RunConfigKeepsLock` |
| ToolModel.Finish | toys-core/lib/toys/definition/tool.rb:504-516 | `finish_definition`; stated by `FinishLocksOnce` and `FinishWellFormed` |
| ToolModel.InitialWellFormed | toys-core/lib/toys/definition/tool.rb:70-92 | a new tool is well formed (every flag active, every flag and non-required arg key has a default, args of the right kind, every built-in acceptor registered), has no definition and is not finished |
| ToolModel.ApplyWellFormed | toys-core/lib/toys/definition/tool.rb:358-496 | every definition call keeps the tool well formed, whether it succeeds or raises |
| ToolModel.ApplyAllWellFormed | toys-core/lib/toys/definition/tool.rb:520-522 | a middleware's run of definition calls keeps the tool well formed |
| ToolModel.RunConfigWellFormed | toys-core/lib/toys/definition/tool.rb:520-522 | running a composed configuration chain keeps the tool well formed |
| ToolModel.FinishWellFormed | toys-core/lib/toys/definition/tool.rb:504-516 | `finish_definition` keeps the tool well formed |
| ToolModel.IncludesArgumentsByDefaults | toys-core/lib/toys/definition/tool.rb:226-230 | on a well-formed tool, it has arguments exactly when it has a default or a required arg (flags, optional and remaining args always leave a default) |
| ToolModel.FinishedRejectsGuarded | toys-core/lib/toys/definition/tool.rb:524-529 | once finished, every guarded call (`desc=`, `long_desc=`, `add_flag`, the three positional calls, `script=`) raises "already finished" with the tool's display name and changes nothing |
| ToolModel.UnguardedIgnoreLock | toys-core/lib/toys/definition/tool.rb:323-326 | `lock_definition_path`, `add_acceptor` and `disable_flag` behave the same whether or not the tool is finished |
| ToolModel.ApplyKeepsLockAndName | toys-core/lib/toys/definition/tool.rb:280-496 | no definition call changes the finished flag or the full name |
| ToolModel.ApplyAllKeepsLockAndName | toys-core/lib/toys/definition/tool.rb:280-496 | no run of definition calls changes the finished flag or the full name |
| ToolModel.FinishedToolFrozen | toys-core/lib/toys/definition/tool.rb:524-529 | on a finished tool any run of calls changes at most the path, the acceptors and the used flags, and raises if it contains a guarded call |
| ToolModel.RunConfigKeepsLock | toys-core/lib/toys/definition/tool.rb:520-522 | the configuration chain does not change the finished flag or the name |
| ToolModel.FinishLocksOnce | toys-core/lib/toys/definition/tool.rb:504-516 | on success the tool is finished; when a middleware raises, the error is wrapped with the tool's full name and the tool stays open; on a finished tool it does nothing, so a second call runs no middleware |
| ToolModel.ConfigOrder | toys-core/lib/toys/definition/tool.rb:507-511 | with every middleware calling `next`, the chain makes the first middleware's before-calls first and its after-calls last, nested outside in |
| ToolModel.ApplyAllAppend | toys-core/lib/toys/definition/tool.rb:520-522 | two runs of calls back to back are one run of their concatenation, stopping at the first that raises |
| ToolModel.LockDefinitionPathRules | toys-core/lib/toys/definition/tool.rb:280-287 | the first path is recorded; the same path again succeeds and changes nothing; a different path raises "Cannot redefine" and keeps the recorded one |
| ToolModel.DefinitionPathSticks | toys-core/lib/toys/definition/tool.rb:280-287 | once recorded, the path survives any run of definition calls |
| ToolModel.DisableFlagRules | toys-core/lib/toys/definition/tool.rb:380-388 | `disable_flag` raises exactly when one of its flags is already used, naming exactly the clashing ones and changing nothing; otherwise it appends its de-duplicated flags to `used_flags` and changes nothing else |
| ToolModel.DisableFlagDistinct | toys-core/lib/toys/definition/tool.rb:380-388 | a successful `disable_flag` keeps `used_flags` free of repeats, and disabling one of the same flags again raises |
| ToolModel.AddFlagBookkeeping | toys-core/lib/toys/definition/tool.rb:358-371 | an unknown acceptor or a rejected flag raises and changes nothing; otherwise the default is recorded under the key whether or not the flag is active, the flag is appended only when active, `used_flags` becomes the flag class's result, and the positional definitions are untouched |
| ToolModel.PositionalBookkeeping | toys-core/lib/toys/definition/tool.rb:410-485 | a required arg is appended and leaves the defaults alone; an optional arg is appended and records its default; the remaining-args definition replaces any earlier one and records its default |
| ToolModel.PositionalUnknownAcceptor | toys-core/lib/toys/definition/tool.rb:410-485 | on an open tool, `add_required_arg`, `add_optional_arg` and `set_remaining_args` with an acceptor name missing from the registry raise "Unknown acceptor" naming it and change nothing |
| ToolModel.ArgDefinitionsOrder | toys-core/lib/toys/definition/tool.rb:252-256 | a new required arg lands after the required ones and before every optional one; a new optional arg after the optional ones and before the remaining-args definition |
| ToolModel.InitialAcceptorResolution | toys-core/lib/toys/definition/tool.rb:84 | on a new tool every built-in name resolves to itself and every custom name raises "Unknown acceptor" |
| ToolModel.AddedAcceptorResolves | toys-core/lib/toys/definition/tool.rb:323-326 | `add_acceptor` always succeeds, even on a finished tool, and afterwards its name resolves to it |
| Definition.Tool.constructor | toys-core/lib/toys/definition/tool.rb:70-92 | a new tool is the initial state: no path, not finished, no desc, no defaults, the 13 built-in acceptors, no used flags, no flags or args, no script |
| Definition.Tool.DisplayName | toys-core/lib/toys/definition/tool.rb:193-195 | the same display name as the state's (see `ToolModel.DisplayNameEndsWithSimpleName`) |
| Definition.Tool.IncludesScript | toys-core/lib/toys/definition/tool.rb:209-211 | the state's `IncludesScript`; the executor's remaining-args stage reads it |
| Definition.Tool.IncludesArguments | toys-core/lib/toys/definition/tool.rb:226-230 | the state's `IncludesArguments` (see `ToolModel.IncludesArgumentsByDefaults`) |
| Definition.Tool.DefinitionFinished | toys-core/lib/toys/definition/tool.rb:244-246 | the lock; `CheckDefinitionState` passes exactly when it is off and `FinishDefinition` sets it whenever it succeeds |
| Definition.Tool.ArgDefinitions | toys-core/lib/toys/definition/tool.rb:252-256 | the state's `ArgDefinitions` (see `ToolModel.ArgDefinitionsOrder`) |
| Definition.Tool.LockDefinitionPath | toys-core/lib/toys/definition/tool.rb:280-287 | updates the fields as `lock_definition_path` does (see `LockDefinitionPathRules`) |
| Definition.Tool.SetDesc | toys-core/lib/toys/definition/tool.rb:298-301 | guarded by the lock; sets the description |
| Definition.Tool.SetLongDesc | toys-core/lib/toys/definition/tool.rb:312-315 | guarded by the lock; sets the long description |
| Definition.Tool.AddAcceptor | toys-core/lib/toys/definition/tool.rb:323-326 | not guarded; files the acceptor under its name, replacing any entry |
| Definition.Tool.AddFlag | toys-core/lib/toys/definition/tool.rb:358-371 | guarded; resolves the acceptor, builds the flag from the current used flags, appends it when active, records the default |
| Definition.Tool.DisableFlag | toys-core/lib/toys/definition/tool.rb:380-388 | not guarded; the collision check and append of `DisableFlagRules` |
| Definition.Tool.AddRequiredArg | toys-core/lib/toys/definition/tool.rb:410-416 | guarded; resolves the acceptor and appends a required arg |
| Definition.Tool.AddOptionalArg | toys-core/lib/toys/definition/tool.rb:442-451 | guarded; resolves the acceptor, appends an optional arg, records its default |
| Definition.Tool.SetRemainingArgs | toys-core/lib/toys/definition/tool.rb:476-485 | guarded; resolves the acceptor, replaces the remaining-args definition, records its default |
| Definition.Tool.SetScript | toys-core/lib/toys/definition/tool.rb:493-496 | guarded; sets the script |
| Definition.Tool.Perform | toys-core/lib/toys/definition/tool.rb:521 | one definition call a middleware's `config` makes, with the effect `Apply` gives it |
| Definition.Tool.PerformAll | toys-core/lib/toys/definition/tool.rb:521 | a middleware's calls on one side of `next`, in order, stopping at the first that raises |
| Definition.Tool.CallConfig | toys-core/lib/toys/definition/tool.rb:520-522 | calling the composed configuration proc: each layer's before-calls, the inner chain if it calls `next`, then its after-calls |
| Definition.Tool.FinishDefinition | toys-core/lib/toys/definition/tool.rb:504-516 | does what `Finish` says (see `FinishLocksOnce`), and the tool is finished whenever it succeeds |
| Definition.Tool.CheckDefinitionState | toys-core/lib/toys/definition/tool.rb:524-529 | passes exactly when the tool is not finished; otherwise raises "already finished" with the display name |
| Definition.Tool.ResolveAcceptor | toys-core/lib/toys/definition/tool.rb:531-537 | resolves against the tool's current registry as `ResolveAcceptor` on the state says |
| Execution.InitialData | toys-core/lib/toys/executor.rb:59-67 | the initial data has the default keys plus the five reserved ones; non-reserved defaults keep their values; the reserved keys hold the definition, the full name, the base verbosity, the args and nil |
| Execution.CallHandler | toys-core/lib/toys/executor.rb:88 | calling a flag's handler with the new and the previous value; with the default handler the last occurrence wins (`LastOccurrenceWins`) and handlers apply in occurrence order (`FoldFlagsPerKey`, `HandlerAppliedInOrder`) |
| Execution.Fire | toys-core/lib/toys/executor.rb:87-89 | one fired flag block; stated through `FoldFlagsPerKey` |
| Execution.FoldFlags | toys-core/lib/toys/executor.rb:86-90 | the fired blocks in order; stated by `FoldFlagsPerKey`, `LastOccurrenceWins` and `FoldFlagsAddsKey`, and computed by `Executor.FireFlags` |
| Execution.FoldKeySnoc | toys-core/lib/toys/executor.rb:86-90 | one more occurrence applies its handler last, to the value the earlier ones left, and only to its own key |
| Execution.LastOccurrenceWins | toys-core/lib/toys/definition/tool.rb:343-347 | with the default handler (`-> (val, _prev) { val }`), a key whose last occurrence is of a flag for it ends with that occurrence's value, whatever came before |
| Execution.FoldFlagsAddsKey | toys-core/lib/toys/executor.rb:88 | every key that has an occurrence is present after the fold |
| Execution.FoldFlagsPerKey | toys-core/lib/toys/executor.rb:86-90 | each key ends with its own occurrences' handlers folded left, in occurrence order, over its starting value; keys without occurrences are untouched; no key is dropped |
| Execution.HandlerAppliedInOrder | toys-core/lib/toys/executor.rb:86-90 | with a summing handler, occurrences 3 then 4 over a default of 0 give handler(4, handler(3, 0)) = 7 |
| Execution.BindRequired | toys-core/lib/toys/executor.rb:97-106 | `parse_required_args`; stated by `ExecutionLaws.RequiredArgsBound` and `ExecutionLaws.MissingRequiredArg`, and computed by `Executor.ParseRequiredArgs` |
| Execution.BindOptional | toys-core/lib/toys/executor.rb:108-114 | `parse_optional_args`; stated by `ExecutionLaws.OptionalArgsBound`, and computed by `Executor.ParseOptionalArgs` |
| Execution.BindRemaining | toys-core/lib/toys/executor.rb:116-127 | `parse_remaining_args`; stated by `ExecutionLaws.LeftoverArgs`, and computed by `Executor.ParseRemainingArgs` |
| Execution.ParsedData | toys-core/lib/toys/executor.rb:69-77 | `parse_args`; stated by `ParseErrorRecorded`, `RequiredArgsBound`, `OptionalArgsBound`, `LeftoverArgs`, `FlagValuesSurvive`, `StagesLeaveKey` and `ZeroArgsRoundTrip` in `ExecutionLaws`, and computed by `Executor.ParseArgs` |
| Execution.AssignAt | toys-core/lib/toys/executor.rb:103 | binding args with distinct keys to tokens gives the i-th arg the i-th token processed |
| Execution.AssignElsewhere | toys-core/lib/toys/executor.rb:103 | binding args leaves every key none of them names as it was |
| Execution.RunActions | toys-core/lib/toys/executor.rb:136-143 | running a script or one side of a middleware's `execute`; stated by `ExecutionLaws.RunEmits` and `ExecutionLaws.UsageErrorStopsRun` |
| Execution.Body | toys-core/lib/toys/executor.rb:136-143 | the innermost proc: the script, or the fatal "No implementation" line and `exit(-1)` without one; stated by `ExecutionLaws.NoScriptExitsMinusOne` and `ExecutionLaws.ScriptExitsZero` |
| Execution.RunChain | toys-core/lib/toys/executor.rb:144-155 | calling the composed execution proc; stated by `ExecutionLaws.LayerOfEmits` and `ExecutionLaws.ChainOrder` |
| Execution.CatchResult | toys-core/lib/toys/executor.rb:147-150 | `catch(:result)`; which exit code a run ends with is stated by `ExecutionLaws.ScriptExitsZero`, `ExecutionLaws.NoScriptExitsMinusOne` and `ExecutionLaws.UsageErrorStopsRun` |
| Execution.Executed | toys-core/lib/toys/executor.rb:43-55 | `execute` as a value; stated by `EventsAtNarrowedLevel`, `NoScriptExitsMinusOne`, `ScriptExitsZero`, `UsageErrorStopsRun` and `VerboseAliceScenario` in `ExecutionLaws`, and computed by `Executor.Execute` |
| Execution.Executor.constructor | toys-core/lib/toys/executor.rb:38-41 | keeps the CLI, the tool and the collaborators it is given |
| Execution.Executor.Execute | toys-core/lib/toys/executor.rb:43-55 | creates and parses the data, sets the logger level to base minus the parsed verbosity for the run, restores the previous level afterwards, and returns what `Executed` says |
| Execution.Executor.CreateData | toys-core/lib/toys/executor.rb:59-67 | returns the initial data (see `InitialData`) without changing the tool |
| Execution.Executor.ParseArgs | toys-core/lib/toys/executor.rb:69-77 | flags, then required, optional and remaining args; a parse error stops the stages and is recorded under the usage-error key |
| Execution.Executor.FireFlags | toys-core/lib/toys/executor.rb:86-90 | the loop over the fired flag blocks computes the left fold of `FoldFlagsPerKey` |
| Execution.Executor.ParseRequiredArgs | toys-core/lib/toys/executor.rb:97-106 | the token-consuming loop binds one token per required arg and stops with "No value given for required argument" naming the first arg left without one |
| Execution.Executor.ParseOptionalArgs | toys-core/lib/toys/executor.rb:108-114 | the loop binds one token per optional arg while tokens last, and leaves the rest |
| Execution.Executor.ParseRemainingArgs | toys-core/lib/toys/executor.rb:116-127 | no leftovers changes nothing; leftovers go to the remaining-args key, processed in order, or are "Extra arguments provided" or "Tool not found" |
| Execution.Executor.PerformExecution | toys-core/lib/toys/executor.rb:135-155 | wraps the body in the middlewares, first entry outermost, runs it at the logger's level and catches `:result` |
| ExecutionLaws.ParseErrorRecorded | toys-core/lib/toys/executor.rb:69-77 | a parse error is stored under the usage-error key, and every other key keeps what the flag blocks fired before the error left |
| ExecutionLaws.RequiredArgsBound | toys-core/lib/toys/executor.rb:97-106 | the i-th required arg ends bound to the i-th token processed, whether or not enough tokens are there |
| ExecutionLaws.MissingRequiredArg | toys-core/lib/toys/executor.rb:97-106 | with fewer tokens than required args, the usage error names the first unfilled arg and the optional and remaining keys are not bound |
| ExecutionLaws.OptionalArgsBound | toys-core/lib/toys/executor.rb:108-114 | the j-th optional arg takes the token after the required ones and the j before it, if there is one, and otherwise keeps its value |
| ExecutionLaws.LeftoverArgs | toys-core/lib/toys/executor.rb:116-127 | no leftovers: no error and the remaining key keeps its value; leftovers with a remaining definition: its key holds every leftover processed, in order; without one: "Extra arguments provided" over the leftovers if there is a script, otherwise "Tool not found" over the full name and the args |
| ExecutionLaws.StagesLeaveKey | toys-core/lib/toys/executor.rb:97-127 | the positional stages change only the positional keys and the usage-error key |
| ExecutionLaws.RemainingArgsDefaultEmpty | toys-core/lib/toys/definition/tool.rb:476-485 | `set_remaining_args` with its default `[]` succeeds on an open tool, and when no tokens are left over and no flag sets the key, the tool runs with an empty list under it |
| ExecutionLaws.FlagValuesSurvive | toys-core/lib/toys/executor.rb:86-90 | a key no positional arg names ends with its flag occurrences' handlers folded over its starting value |
| ExecutionLaws.ZeroArgsRoundTrip | toys-core/lib/toys/executor.rb:59-77 | with no args and nothing fired, the data a tool without required args runs with is exactly its defaults plus the reserved keys; with a required arg, the error names the first one |
| ExecutionLaws.EventsAtNarrowedLevel | toys-core/lib/toys/executor.rb:48-54 | everything logged during the run is logged at the base level minus the parsed verbosity |
| ExecutionLaws.LayerOfEmits | toys-core/lib/toys/executor.rb:153-155 | a layer that logs, calls `next` and logs again runs its before-part, the inner chain, and, only if the inner chain ends normally, its after-part |
| ExecutionLaws.ChainOrder | toys-core/lib/toys/executor.rb:144-155 | the middlewares' before-parts run first entry first, their after-parts first entry last, and a throw or exception unwinds past every after-part |
| ExecutionLaws.NoScriptExitsMinusOne | toys-core/lib/toys/executor.rb:137-142 | a tool without a script logs the fatal "No implementation for tool" line with its display name and exits -1, after the before-parts and without the after-parts |
| ExecutionLaws.ScriptExitsZero | toys-core/lib/toys/executor.rb:147-150 | a script that ends normally gives exit code 0, inside every middleware's before- and after-parts |
| ExecutionLaws.UsageErrorStopsRun | toys-core/lib/toys/executor.rb:147-150 | a first middleware that exits on a pending usage error ends the run with its code and nothing else runs; without a usage error the run is as without it |
| ExecutionLaws.GreetDefinition | toys-core/lib/toys/definition/tool.rb:358-496 | defining `greet` (`add_flag :verbose, ["-v", "--verbose"]`, `add_required_arg :name`, a script), with every other keyword argument at its default, succeeds and gives the flag a nil default, the default handler and no acceptor |
| ExecutionLaws.GreetParsed | toys-core/lib/toys/executor.rb:69-114 | for a tool shaped like `greet`, `-v alice` gives `:verbose` true, `:name` "alice", no usage error and verbosity 0; no args gives "No value given for required argument NAME" |
| ExecutionLaws.GreetRuns | toys-core/lib/toys/executor.rb:135-151 | running `greet`'s logging script with verbosity 0 exits with 0, the line logged at the base level inside the middlewares |
| ExecutionLaws.VerboseAliceScenario | toys-core/lib/toys/executor.rb:43-155 | on the tool the definition calls build, `greet -v alice` has the flag set, `name` bound to "alice", no usage error, and exits with 0 after the middlewares' before-parts, the script's line and their after-parts; given no args, the error is "No value given for required argument NAME" |
| ExecutionLaws.ToolNotFoundScenario | toys-core/lib/toys/executor.rb:116-124 | the group `group` without a script or args, given `build --fast` as plain tokens, records "Tool not found" over `group build --fast` |

## Left out

- The data hash is mutated in place by the Ruby stages. Here it is a map value handed from stage to stage. The same hash is also handed to the tool object (executor.rb:46), and the middlewares and the script run against it; the model's actions only read the data, so writes through that shared hash, and what a later reader would see of them, are not modelled.
- OptionParser's switch syntax, its value conversion, the removal of its hidden default switches (executor.rb:80-85) and the text of its error messages are not modelled. `parse` is a parameter that reports the flag blocks it fired, in order, and either the non-option tokens or a parse error.
- `Definition::Flag` and `Definition::Arg` are not part of this model. The switch-collision logic and the `active?` result of `Flag.new` come from the `FlagConstructor` parameter. `Arg#process_value` and the default display name come from parameters and fields.
- Definition.Tool.AddFlag: assumes that `Flag.new`, when it raises, leaves `used_flags` as it was; the Ruby object is shared and could be changed before the raise.
- ExecutionLaws.ToolNotFoundScenario: takes OptionParser's answer as a hypothesis. A real OptionParser given `--fast` for a tool without flags reports an invalid option instead.
- `Arg#process_value` is modelled as always returning a value. A raising acceptor is not modelled.
- A custom flag handler is modelled as always returning a value. A handler that raises `OptionParser::ParseError` would be recorded as a usage error by the rescue at executor.rb:75-76, and any other exception would leave `execute`; neither is modelled.
- `display_name:` of the positional calls defaults to nil, and the name shown is then computed inside `Arg.new`, which is not part of this model; the model's positional calls take the display name explicitly. Every other keyword default (`flags = []`, `accept: nil`, `default: nil`, `handler: nil`, `report_collisions: true`, `default: []` for the remaining args, `verbosity: 0`) is a default parameter of the model's definition calls and of `Executor.Execute`.
- The descriptions of flags and args (`desc:`/`long_desc:` on `add_flag` and the positional calls) are not modelled. Neither is `WrappableString` normalisation of `desc=` and `long_desc=`: words are kept as given.
- `tool_class.new(cli, data)` and `instance_eval` of the script are not modelled. The script is a list of actions run against the data.
- Middlewares are limited to fixed lists of actions or definition calls around an optional `next`. They cannot compute what they do from the data or the tool.
- `tool_class` (tool.rb:70-73, 111), the loader that `finish_definition` passes to every middleware's `config` (tool.rb:504, 520-521) and `Middleware.resolve_stack` are not modelled. The middleware stack arrives already resolved and is stored as given, and so is `priority`.
- `ContextualError` is modelled as the `MiddlewareError` value tagged with the tool's full name.
- Logger severities are not modelled. A logged line keeps its text and the logger level in force when it is logged; the fatal "No implementation" line is one such line. `String#inspect` escaping of the display name is not modelled: the name is only put in quotes.
- Ruby hash key order is not modelled; maps are unordered.
- `custom_acceptors` (tool.rb:262-271) and its use at executor.rb:91-93 are not modelled: the block is never yielded to, so nothing is registered.
- `lib/toys/context.rb` and the help-text tests are not part of this model.
