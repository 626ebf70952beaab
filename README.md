# Hybrid commands in discord.py, modelled in Dafny

A hybrid command in `discord.ext.commands` works two ways. It is a text command, and it is also an application (slash) command. The adapter in `discord/ext/commands/hybrid.py` connects the two systems. This project models the decision logic of that adapter:

- **Registration in a hybrid group** (`groups.dfy`, module `Groups`). A `HybridGroup` keeps two registries: the text side's `all_commands` map, keyed by name and by alias, and the children of its application-command group, keyed by name. `AddCommand` and `RemoveCommand` update both maps in place. They include the type guard, the nesting guard, duplicate-name and alias-conflict detection, and the rollback. The pure function `Register` says what state `add_command` leaves behind and what it raises. The lemmas beside it prove what that state means.
- **Construction guards and decorators.** `HybridGroup.__init__` refuses a parent that is not a hybrid group. `hybrid_command` and `hybrid_group` refuse a callback that is already a command, and then one that is not a coroutine, with a TypeError. The `command` and `group` shortcuts default `parent` to the group they are called on.
- **Binding mirroring.** Setting a `HybridCommand`'s cog also sets its application command's binding.
- **The permission chain** (`checks.dfy`, module `Checks`). `_check_can_run` is written as the same early-return chain. It records a trace of the checks it runs. It is proved against `Schedule`, the fixed-order list of checks that apply to a command, and `ShortCircuit`, which says the chain stops at the first check that does not pass.
- **Error classification** (`invoke.dfy`, module `Invoke`). `_invoke_with_namespace` sorts an exception: it is either re-raised, or turned into a `CommandError` and dispatched once.
- **Converters** (`converters.dfy`, module `Converters`). This covers `is_converter`, the `transform` of the transformer that `make_converter_transformer` builds, and `replace_parameters`, the signature rewrite.

`errors.dfy` (module `Errors`) holds the shared values. These are the exception hierarchy, with `__cause__` as a field, converter kinds, and `Completion` and `Outcome`, which say whether a host call returned or raised.

Host calls become parameters that give how the call finished. These are `bot.get_context`, `prepare`, `_do_call`, `Converter.convert`, each individual check, and the application-command group's own `add_command`.

## Model

| member | source | states |
|---|---|---|
| Converters.IsConverter | discord/ext/commands/hybrid.py:84-85 | A converter is a Converter subclass or an instance of one. Any other class or object is not. |
| Converters.NeedsTransformer | discord/ext/commands/hybrid.py:110 | The rewrite applies exactly to a converter that does not carry the transformer marker. A marked object, and anything that is not a converter, is left alone. |
| Converters.Transform | discord/ext/commands/hybrid.py:88-101 | A Converter subclass calls its bound `convert` or a fresh instance's. A Converter instance calls its own `convert`. Anything else returns None. A successful conversion is returned as it is. A CommandError propagates unchanged. Any other `Exception` becomes a ConversionError that carries the converter and the original. Whatever leaves the transform is a CommandError equal to, or caused by, the original. |
| Converters.Rewritten | discord/ext/commands/hybrid.py:109-111 | Rewriting one signature parameter keeps its name and default. The annotation changes only to a transformer for a text parameter of the same name whose converter is a converter without the transformer marker. |
| Converters.RewrittenByParameter | discord/ext/commands/hybrid.py:84-111 | For the text parameter of a given name, the signature parameter gets exactly that parameter's transformer when the converter needs one, and is unchanged otherwise. |
| Converters.ReplaceParameters | discord/ext/commands/hybrid.py:106-113 | The rewrite succeeds exactly when every parameter that needs a transformer is named in the signature. On success the list keeps the signature's length and order. Each entry is that parameter rewritten by all text parameters. Otherwise it raises KeyError for the first parameter that is missing. |
| Invoke.Classify | discord/ext/commands/hybrid.py:206-218 | A signature mismatch, and anything outside both hierarchies, is re-raised. A TransformerError caused by a CommandError gives that cause. Any other TransformerError or AppCommandError gives a HybridCommandError caused by it. A CommandError passes through. What is dispatched is always a CommandError, and it is related to the original. |
| Invoke.InvokeWithNamespace | discord/ext/commands/hybrid.py:192-220 | A failed get_context propagates. The callback is called only after a successful prepare. Success returns the callback's result without dispatching. A re-raised error is never dispatched. Any other error is dispatched exactly once, as the last step, and None is returned. |
| Invoke.ConverterFailureIsDispatched | discord/ext/commands/hybrid.py:201-220 | A converter that raises while prepare runs ends in one dispatch. What is dispatched is the converter's own CommandError, or a ConversionError that carries the converter and what it raised. |
| Checks.ParentRuns | discord/ext/commands/hybrid.py:158 | The parent check applies iff there is a parent and there is no binding or the binding is a different object, compared by id. |
| Checks.Schedule | discord/ext/commands/hybrid.py:152-188 | The list of checks that apply to a command, in the order the chain runs them. The bot's call-once check and global check always come first. |
| Checks.ScheduleLength | discord/ext/commands/hybrid.py:152-188 | The schedule has the two bot checks, one entry for each conditional check that applies, and one entry per check in either list. |
| Checks.RunAll | discord/ext/commands/hybrid.py:184-188 | One check list runs in list order, stops at its first check that does not pass, and gives that verdict. It passes only if every check passed. |
| Checks.RunCheckLists | discord/ext/commands/hybrid.py:184-190 | Once all earlier checks have passed, the application command's checks run, then the wrapped command's checks. An empty list is skipped. The result short-circuits over the whole schedule. |
| Checks.RunList | discord/ext/commands/hybrid.py:184-188 | One check list, once every earlier check has passed. An empty list is skipped. A check that does not pass ends the chain with its verdict. If every check passes, the chain has passed every check up to the end of the list. |
| Checks.CheckCanRun | discord/ext/commands/hybrid.py:139-190 | The trace is a prefix of the schedule. Either every scheduled check ran and passed and the result is a pass, or the last check traced is the first that did not pass and its verdict is the result. |
| Checks.ScheduleInOrder | discord/ext/commands/hybrid.py:139-188 | The order is fixed: the global check once, the global check, the parent interaction check, the binding interaction check, the cog check, the application command's checks, the wrapped command's checks. |
| Checks.ScheduleMembers | discord/ext/commands/hybrid.py:158-187 | The two global checks always run. The parent check runs iff there is a parent that is not the binding. The binding check runs iff there is a binding with an `interaction_check`. The cog check runs iff there is a binding whose `cog_check` is not the inherited one. Every check of both lists is scheduled, and nothing else. |
| Checks.FirstFailureDecides | discord/ext/commands/hybrid.py:152-188 | When check k is the first that does not pass, the only short-circuit result is its verdict after exactly k+1 checks. |
| Checks.AllPassDecides | discord/ext/commands/hybrid.py:190 | When every scheduled check passes, the chain returns a pass having run them all. |
| Checks.ParentRejectionStopsChain | discord/ext/commands/hybrid.py:152-165 | The bot checks pass and the parent's interaction check fails. The chain then returns a failure after exactly those three checks, and no later check runs. |
| Checks.GlobalOnceRejectionStopsChain | discord/ext/commands/hybrid.py:152-153 | A call-once global check that does not pass decides the result, and nothing else runs. |
| Checks.GlobalRejectionStopsChain | discord/ext/commands/hybrid.py:155-156 | After the call-once check passes, a global check that does not pass decides the result, and nothing later runs. |
| Checks.BindingRejectionStopsChain | discord/ext/commands/hybrid.py:167-176 | After the bot checks and any parent check pass, a binding interaction check that does not pass decides the result. Neither the cog check nor any list check runs. |
| Checks.CogRejectionStopsChain | discord/ext/commands/hybrid.py:178-182 | After every earlier check passes, an overridden cog check that does not pass decides the result. A binding with no `cog_check` raises AttributeError there. No list check runs. |
| Checks.AppCheckRejectionStopsChain | discord/ext/commands/hybrid.py:184-185 | After every earlier check passes, the first of the application command's checks that does not pass decides the result, and the trace ends at that check. |
| Checks.CommandCheckRejectionStopsChain | discord/ext/commands/hybrid.py:187-188 | After every earlier check passes, the first of the wrapped command's checks that does not pass decides the result, and the trace ends at that check. |
| Groups.HybridAppCommand.constructor | discord/ext/commands/hybrid.py:131-132 | The application command takes the wrapped command's name and starts bound to the binding it is given. It belongs to no application-command group yet. |
| Groups.HybridCommand.constructor | discord/ext/commands/hybrid.py:239-246 | A new hybrid command owns a fresh application command with its name. Its cog is unset, so the binding is unset too. |
| Groups.HybridCommand.SetCog | discord/ext/commands/hybrid.py:252-255 | The cog and the application command's binding both become the new value, so they stay mirrored. |
| Groups.Register | discord/ext/commands/hybrid.py:325-342 | The effect of `add_command` on both registries. The parent is set iff the guards and the application-side add let the child through. Otherwise an error is raised and nothing changes. Past the guards, the application side holds the child, unless the rollback removed it. A child that raises nothing is registered under its name. |
| Groups.FirstConflict | discord/ext/commands/hybrid.py:338-341 | The first alias position the loop finds taken: by an earlier registration, by the command's own name, or by an earlier alias of the same command. |
| Groups.NoConflictIff | discord/ext/commands/hybrid.py:337-342 | The alias loop runs to the end iff no alias is registered, none equals the name, and no two aliases are the same. |
| Groups.RegisterSucceedsIff | discord/ext/commands/hybrid.py:325-342 | `add_command` raises nothing iff all of these hold: the child is hybrid, it is not a group under a nested group, the application-command group accepts it, and its name and aliases are free. |
| Groups.RegisterSuccessState | discord/ext/commands/hybrid.py:331-342 | On success, the keys become the old keys plus the name and every alias, each mapped to the child. Existing entries are untouched. The application command is added under the name, and the parent is set. |
| Groups.RegisterKeepsExisting | discord/ext/commands/hybrid.py:334-342 | Whatever the outcome, no entry already in `all_commands` is dropped or overwritten. |
| Groups.AliasConflictRollsBack | discord/ext/commands/hybrid.py:331-347 | An alias conflict is raised for one of the child's aliases, and only when the aliases are not free. The parent has already been set. The rollback through `remove_command` leaves neither the name in `all_commands` nor the name in the application-command group. |
| Groups.DuplicateNameAfterAppAdd | discord/ext/commands/hybrid.py:331-335 | A taken name raises CommandRegistrationError and leaves `all_commands` unchanged. By then the application-command group already holds the child and the parent is set. |
| Groups.RefusedBeforeAnyChange | discord/ext/commands/hybrid.py:325-331 | A non-hybrid child (TypeError), a group added to a nested group (ValueError), or a failing application-side add each raise before either registry or the parent changes. |
| Groups.HybridGroup.Create | discord/ext/commands/hybrid.py:287-304 | A parent that is not a hybrid group raises TypeError with the source's message. Otherwise the new group has that parent, its application-command group's parent is that parent's, and both registries are empty. |
| Groups.HybridGroup.RemoveCommand | discord/ext/commands/hybrid.py:344-347 | Returns the entry for the name, if any, and removes the name from both registries. |
| Groups.HybridGroup.AddCommand | discord/ext/commands/hybrid.py:306-342 | The new registries, the error raised, and the child's parent are exactly those `Register` gives for the old state. Once the application-command group takes the child, the child's application command points at this group's. The group's own parents are unchanged. The child's cog and binding are unchanged, and so are a child group's registries when the child is not this group. |
| Groups.HybridGroup.EnterAliases | discord/ext/commands/hybrid.py:337-342 | Enters the aliases in order. At the first conflict it removes the name from both registries and raises with `alias_conflict`. With no conflict, every alias maps to the child. |
| Groups.HybridGroup.Command | discord/ext/commands/hybrid.py:349-370 | A callback that is already a command, or is not a coroutine, raises TypeError and changes nothing. Otherwise a fresh command with no cog, whose unset binding mirrors that, is registered as `Register` says. Its parent is this group, unless an explicit parent was given and the registration was refused before parenting. Its application command belongs to this group's exactly when the application-command group took it. |
| Groups.HybridGroup.Group | discord/ext/commands/hybrid.py:372-393 | The parent defaults to this group. "Already a command" is refused first, then a non-hybrid parent. Otherwise the fresh group is registered as `Register` says. If the application-command group takes it, both its parents become this group. If not, both stay the chosen parent. |
| Groups.DefaultParent | discord/ext/commands/hybrid.py:365 | Without an explicit `parent=`, the parent is this group. An explicit one, including `parent=None`, is kept. |
| Groups.Refusal | discord/ext/commands/hybrid.py:429-437 | A callback a decorator cannot take raises TypeError. The message says it is already a command exactly when it is one. |
| Groups.HybridCommandDecorator | discord/ext/commands/hybrid.py:429-438 | Raises a TypeError iff the callback is already a command or is not a coroutine. The "already a command" refusal comes first. Otherwise it builds a fresh hybrid command that mirrors its binding. |
| Groups.HybridGroupDecorator | discord/ext/commands/hybrid.py:453-456 | The "already a command" TypeError and the not-a-coroutine TypeError both come before the group's own parent check. Otherwise it behaves as `HybridGroup.Create`. |

## Left out

- `async`/`await`, `maybe_coroutine` and `async_all` are flattened into sequential code. Each check is a given verdict (pass, falsy, or raises), and concurrency belongs to the event loop.
- Signature introspection (`inspect.signature`, `__signature__` patching, hybrid.py:118-129) and the `type(...)` class synthesis (hybrid.py:103) are left out. The synthesised transformer is represented by the `ConverterTransformer` annotation.
- `bot.get_context`, `wrapped.prepare`, `_do_call`, `_transform_arguments`, `Converter.convert` and `dispatch_error` are opaque. Each is represented by how it finished. An exception raised by `dispatch_error` itself is not modelled.
- `Groups.HybridGroup.RemoveCommand`: the base `Group.remove_command` lives in `core.py`, which is not part of this model. It is assumed to remove the entry for the name and return it. Its handling of the removed command's aliases is not modelled. So after an alias conflict, `Register` keeps the aliases entered before the conflict.
- `app_commands.Group.add_command` and `remove_command` are also not part of this model. The add is a given `Completion`: it either raises before changing anything, or enters the child under its name. When it finishes normally it also points the child's application command at this group's. Its 25-child limit and its duplicate errors are not modelled. Its `remove_command` is taken to drop the child of that name and leave the child's own parent link alone. `Groups.AliasConflictRollsBack` assumes it raises only application-command errors.
- `Groups.Register`, `Groups.HybridGroup.AddCommand`: this is the case-sensitive default. With `case_insensitive=True` the base `GroupMixin` in `core.py`, which is not part of this model, makes `all_commands` fold the case of its keys. Then "Foo" and "foo" would conflict. That folding of names and aliases is not modelled: `Register`, `AliasTaken` and `FirstConflict` compare keys exactly.
- `Groups.RefusedBeforeAnyChange`: the ValueError carries the command's name, not its quoted `qualified_name`.
- `Groups.HybridGroup.Command`, `Groups.HybridGroup.Group`, `Groups.HybridCommandDecorator`, `Groups.HybridGroupDecorator`: the name defaulting to the callback's name (`MISSING`) and all other keyword arguments are handled by the base `Command` constructor, which is not part of this model. The name and aliases are given explicitly.
- `Groups.HybridCommandDecorator`, `Groups.HybridGroupDecorator`, `Groups.HybridGroup.Command`, `Groups.HybridGroup.Group`: the not-a-coroutine refusal belongs to the base `Command` constructor in `core.py`, which is not part of this model. Its message is taken to be "Callback must be a coroutine.". No other error raised while the command is built is modelled. That includes errors from building the application command (hybrid.py:119, hybrid.py:123 and hybrid.py:297), such as an unsupported signature.
- `Converters.Transform`, `Invoke.Classify`, `Checks.CheckCanRun`: only `Exception` subclasses are modelled. A `BaseException` that is not an `Exception`, such as `asyncio.CancelledError` or `KeyboardInterrupt`, escapes the transform's `except Exception` (hybrid.py:100) unwrapped. It also passes the `except` clauses of hybrid.py:206-218 and the check chain unchanged.
- `HybridCommand.can_run` and `_parse_arguments` (hybrid.py:257-268) only choose between the text path and the application path. `HybridAppCommand._copy_with` copies one field. Neither is modelled.
- Guild ids and description defaulting in `HybridGroup.__init__` are left out, because they carry no logic beyond defaults.
- Objects are compared by identity. A cog or group in the permission chain is a value that carries its object's id, and `is` compares those ids. Two values with the same id are taken to describe the same object.
