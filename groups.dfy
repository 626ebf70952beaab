/**
 * Hybrid commands and hybrid groups as objects: a hybrid command and the
 * application command it owns, which mirrors its binding; a hybrid group
 * and its two registries, the text side's `all_commands` (keyed by name and
 * alias) and the children of its application-command group (keyed by name).
 */
module Groups {
  import opened Errors
  import Checks

  /** The application-command side of a hybrid command (HybridAppCommand). */
  class HybridAppCommand {
    const name: string
    var binding: Option<Checks.Owner>
    /** The hybrid group whose application-command group holds this command, if any. */
    var parent: HybridGroup?

    /** A new application command belongs to no group yet. */
    constructor (name: string, binding: Option<Checks.Owner>)
      ensures this.name == name && this.binding == binding && parent == null
    {
      this.name := name;
      this.binding := binding;
      this.parent := null;
    }
  }

  /** A HybridCommand: a text command that owns its application command. */
  class HybridCommand {
    const name: string
    const aliases: seq<string>
    var parent: HybridGroup?
    var cog: Option<Checks.Owner>
    const appCommand: HybridAppCommand

    /** The application command is bound to the same cog as the wrapper. */
    ghost predicate Mirrored()
      reads this, appCommand
    {
      appCommand.binding == cog
    }

    /** A new command has no cog yet, so its application command has no binding. */
    constructor (name: string, aliases: seq<string>, parent: HybridGroup?)
      ensures this.name == name && this.aliases == aliases && this.parent == parent
      ensures cog == None && fresh(appCommand) && appCommand.name == name && Mirrored()
      ensures appCommand.parent == null
    {
      this.name := name;
      this.aliases := aliases;
      this.parent := parent;
      this.cog := None;
      this.appCommand := new HybridAppCommand(name, None);
    }

    /** The `cog` setter: the wrapper and its application command change together. */
    method SetCog(value: Option<Checks.Owner>)
      modifies this`cog, appCommand`binding
      ensures cog == value && appCommand.binding == value
      ensures Mirrored()
    {
      cog := value;
      appCommand.binding := value;
    }
  }

  /** What `add_command` may be given. */
  datatype Child =
    | HybridCmd(command: HybridCommand)
    | HybridGrp(group: HybridGroup)
    | OtherCommand(description: string)  // anything that is neither

  function ChildName(c: Child): string {
    match c
    case HybridCmd(x) => x.name
    case HybridGrp(g) => g.name
    case OtherCommand(d) => d
  }

  function ChildAliases(c: Child): seq<string> {
    match c
    case HybridCmd(x) => x.aliases
    case HybridGrp(g) => g.aliases
    case OtherCommand(_) => []
  }

  /** The objects whose `parent` the registration may set. */
  function ChildObjects(c: Child): set<object> {
    match c
    case HybridCmd(x) => {x, x.appCommand}
    case HybridGrp(g) => {g}
    case OtherCommand(_) => {}
  }

  /** An entry of the application-command group's children: a child's `app_command`. */
  datatype AppNode =
    | AppLeaf(command: HybridAppCommand)  // a hybrid command's HybridAppCommand
    | AppBranch(group: HybridGroup)       // the application-command group of a hybrid group

  function AppNodeOf(c: Child): AppNode
    requires !c.OtherCommand?
  {
    if c.HybridCmd? then AppLeaf(c.command.appCommand) else AppBranch(c.group)
  }

  const NotHybridMessage := "The command passed must be a subclass of HybridCommand or HybridGroup"
  const AlreadyCommandMessage := "Callback is already a command."
  /** The base command constructor's refusal of a function that is not a coroutine. */
  const NotCoroutineMessage := "Callback must be a coroutine."

  /** Every alias in `aliases` mapped to `c`. */
  function AliasMap(aliases: seq<string>, c: Child): (m: map<string, Child>)
    ensures m.Keys == set a | a in aliases
    ensures forall a :: a in m ==> m[a] == c
  {
    map a | a in aliases :: c
  }

  /**
   * When the alias loop reaches `aliases[k]`, that key is already taken: by
   * an earlier registration, by the command's own name, or by one of the
   * command's earlier aliases.
   */
  predicate AliasTaken(text: map<string, Child>, name: string, aliases: seq<string>, k: nat)
    requires k < |aliases|
  {
    aliases[k] in text || aliases[k] == name || aliases[k] in aliases[..k]
  }

  /** The first position from `from` on at which the alias loop finds a taken key. */
  function FirstConflict(text: map<string, Child>, name: string, aliases: seq<string>, from: nat): (r: Option<nat>)
    requires from <= |aliases|
    ensures r.Some? ==> from <= r.value < |aliases| && AliasTaken(text, name, aliases, r.value)
    ensures r.Some? ==> forall j :: from <= j < r.value ==> !AliasTaken(text, name, aliases, j)
    ensures r.None? ==> forall j :: from <= j < |aliases| ==> !AliasTaken(text, name, aliases, j)
    decreases |aliases| - from
  {
    if from == |aliases| then None
    else if AliasTaken(text, name, aliases, from) then Some(from)
    else FirstConflict(text, name, aliases, from + 1)
  }

  /** The state `add_command` leaves behind, and what it raises. */
  datatype Registration = Registration(
    error: Option<Exc>,
    text: map<string, Child>,
    app: map<string, AppNode>,
    parented: bool)  // whether the application-side add and `command.parent = self` ran

  /**
   * `add_command` on the two registries of a group whose own parent is set
   * (`nested`) or not; `appAdd` is how the application-command group's own
   * `add_command` finished.
   */
  function Register(text: map<string, Child>, app: map<string, AppNode>, nested: bool,
                    c: Child, appAdd: Completion): (r: Registration)
    // the parent is set exactly when the guards and the application-side add let the child through
    ensures r.parented <==> Admitted(nested, c, appAdd)
    ensures !r.parented ==> r.error.Some? && r.text == text && r.app == app
    // once past the guards, the application side holds the child unless the rollback removed it
    ensures r.parented ==> r.app == app[ChildName(c) := AppNodeOf(c)] || r.app == app - {ChildName(c)}
    // a child that raises nothing is registered under its name
    ensures r.error.None? ==> ChildName(c) in r.text && r.text[ChildName(c)] == c
  {
    if c.OtherCommand? then Registration(Some(TypeError(NotHybridMessage)), text, app, false)
    else if c.HybridGrp? && nested then Registration(Some(ValueError(ChildName(c))), text, app, false)
    else if appAdd.Threw? then Registration(Some(appAdd.error), text, app, false)
    else
      var n, aliases := ChildName(c), ChildAliases(c);
      var app' := app[n := AppNodeOf(c)];
      if n in text then Registration(Some(CommandRegistrationError(n, false)), text, app', true)
      else
        match FirstConflict(text, n, aliases, 0)
        case Some(k) =>
          Registration(Some(CommandRegistrationError(aliases[k], true)),
                       (text[n := c] + AliasMap(aliases[..k], c)) - {n}, app' - {n}, true)
        case None => Registration(None, text[n := c] + AliasMap(aliases, c), app', true)
  }

  /** While the alias loop is at `aliases[k]`, the key is in the registry exactly when it is taken. */
  lemma TakenInRegistry(text: map<string, Child>, name: string, c: Child, aliases: seq<string>, k: nat)
    requires k < |aliases|
    ensures aliases[k] in text[name := c] + AliasMap(aliases[..k], c) <==> AliasTaken(text, name, aliases, k)
  {
  }

  /** Entering `aliases[i]` extends the aliases entered so far by one. */
  lemma EnterNext(base: map<string, Child>, c: Child, aliases: seq<string>, i: nat)
    requires i < |aliases|
    ensures base + AliasMap(aliases[..i + 1], c) == (base + AliasMap(aliases[..i], c))[aliases[i] := c]
  {
    assert aliases[..i + 1] == aliases[..i] + [aliases[i]];
  }

  /** The first taken alias is where the loop stops. */
  lemma ConflictAt(text: map<string, Child>, name: string, aliases: seq<string>, k: nat)
    requires k < |aliases| && AliasTaken(text, name, aliases, k)
    requires forall j :: 0 <= j < k ==> !AliasTaken(text, name, aliases, j)
    ensures FirstConflict(text, name, aliases, 0) == Some(k)
  {
  }

  /** The type guards and the application-command group let the child through. */
  predicate Admitted(nested: bool, c: Child, appAdd: Completion) {
    !c.OtherCommand? && !(c.HybridGrp? && nested) && appAdd.Normal?
  }

  /**
   * The aliases can all be entered: none is registered already, none is the
   * command's own name, and no two are the same.
   */
  ghost predicate AliasesFree(text: map<string, Child>, name: string, aliases: seq<string>) {
    && (forall i :: 0 <= i < |aliases| ==> aliases[i] !in text && aliases[i] != name)
    && (forall i, j :: 0 <= i < j < |aliases| ==> aliases[i] != aliases[j])
  }

  /** The alias loop runs to the end exactly when the aliases are free. */
  lemma NoConflictIff(text: map<string, Child>, name: string, aliases: seq<string>)
    ensures FirstConflict(text, name, aliases, 0).None? <==> AliasesFree(text, name, aliases)
  {
    var r := FirstConflict(text, name, aliases, 0);
    if r.None? {
      forall i | 0 <= i < |aliases|
        ensures aliases[i] !in text && aliases[i] != name
      {
        assert !AliasTaken(text, name, aliases, i);
      }
      forall i, j | 0 <= i < j < |aliases|
        ensures aliases[i] != aliases[j]
      {
        assert !AliasTaken(text, name, aliases, j);
        assert aliases[..j][i] == aliases[i];
      }
    } else {
      var k := r.value;
      assert AliasTaken(text, name, aliases, k);
      if aliases[k] in aliases[..k] {
        var i :| 0 <= i < k && aliases[..k][i] == aliases[k];
        assert aliases[i] == aliases[k];
      }
    }
  }

  /**
   * `add_command` raises nothing exactly when the child is a hybrid command
   * or group (and not a group under a nested group), the application-command
   * group takes it, its name is free and its aliases are free.
   */
  lemma RegisterSucceedsIff(text: map<string, Child>, app: map<string, AppNode>, nested: bool,
                            c: Child, appAdd: Completion)
    ensures Register(text, app, nested, c, appAdd).error.None? <==>
              && Admitted(nested, c, appAdd)
              && ChildName(c) !in text
              && AliasesFree(text, ChildName(c), ChildAliases(c))
  {
    if Admitted(nested, c, appAdd) && ChildName(c) !in text {
      NoConflictIff(text, ChildName(c), ChildAliases(c));
    }
  }

  /**
   * A successful registration enters the name and every alias, each mapped
   * to the child, keeps every entry that was there, and adds the child's
   * application command under its name.
   */
  lemma RegisterSuccessState(text: map<string, Child>, app: map<string, AppNode>, nested: bool,
                             c: Child, appAdd: Completion)
    requires Register(text, app, nested, c, appAdd).error.None?
    ensures var r := Register(text, app, nested, c, appAdd);
            && r.text.Keys == text.Keys + {ChildName(c)} + (set a | a in ChildAliases(c))
            && r.text[ChildName(c)] == c
            && (forall a :: a in ChildAliases(c) ==> r.text[a] == c)
            && (forall key :: key in text ==> r.text[key] == text[key])
            && r.app == app[ChildName(c) := AppNodeOf(c)]
            && r.parented
  {
    RegisterSucceedsIff(text, app, nested, c, appAdd);
  }

  /**
   * Whatever `add_command` does, it never drops or overwrites an entry that
   * was already registered: conflicts are detected before any write.
   */
  lemma RegisterKeepsExisting(text: map<string, Child>, app: map<string, AppNode>, nested: bool,
                              c: Child, appAdd: Completion)
    ensures var r := Register(text, app, nested, c, appAdd);
            forall key :: key in text ==> key in r.text && r.text[key] == text[key]
  {
    if Admitted(nested, c, appAdd) && ChildName(c) !in text {
      var n, aliases := ChildName(c), ChildAliases(c);
      var conflict := FirstConflict(text, n, aliases, 0);
      if conflict.Some? {
        var k := conflict.value;
        var r := Register(text, app, nested, c, appAdd);
        assert r.text == (text[n := c] + AliasMap(aliases[..k], c)) - {n};
        forall key | key in text
          ensures key in r.text && r.text[key] == text[key]
        {
          assert key != n;
          forall j | 0 <= j < k
            ensures aliases[..k][j] != key
          {
            assert !AliasTaken(text, n, aliases, j);
          }
          assert key !in AliasMap(aliases[..k], c);
        }
      } else {
        NoConflictIff(text, n, aliases);
      }
    }
  }

  /**
   * An alias conflict is reported for an alias that is taken, after the
   * child has been given its parent, and the rollback leaves neither the
   * name nor the application command behind. The application-command
   * group's own `add_command` raises only application-command errors.
   */
  lemma AliasConflictRollsBack(text: map<string, Child>, app: map<string, AppNode>, nested: bool,
                               c: Child, appAdd: Completion, alias: string)
    requires appAdd.Threw? ==> IsAppCommandError(appAdd.error)
    requires Register(text, app, nested, c, appAdd).error == Some(CommandRegistrationError(alias, true))
    ensures var r := Register(text, app, nested, c, appAdd);
            && Admitted(nested, c, appAdd)
            && alias in ChildAliases(c)
            && !AliasesFree(text, ChildName(c), ChildAliases(c))
            && ChildName(c) !in r.text
            && r.app == app - {ChildName(c)}
            && r.parented
  {
    var n, aliases := ChildName(c), ChildAliases(c);
    NoConflictIff(text, n, aliases);
  }

  /**
   * A name that is already taken is refused without touching the text
   * registry, but only after the application-command group has taken the
   * child and the child's parent has been set.
   */
  lemma DuplicateNameAfterAppAdd(text: map<string, Child>, app: map<string, AppNode>, nested: bool,
                                 c: Child, appAdd: Completion)
    requires Admitted(nested, c, appAdd) && ChildName(c) in text
    ensures var r := Register(text, app, nested, c, appAdd);
            && r.error == Some(CommandRegistrationError(ChildName(c), false))
            && r.text == text
            && ChildName(c) in r.app && r.app[ChildName(c)] == AppNodeOf(c)
            && r.parented
  {
  }

  /** The guards before the application-command group's own `add_command` change nothing. */
  lemma RefusedBeforeAnyChange(text: map<string, Child>, app: map<string, AppNode>, nested: bool,
                               c: Child, appAdd: Completion)
    requires !Admitted(nested, c, appAdd)
    ensures var r := Register(text, app, nested, c, appAdd);
            && r.error.Some? && r.text == text && r.app == app && !r.parented
            && (c.OtherCommand? ==> r.error.value == TypeError(NotHybridMessage))
            && (c.HybridGrp? && nested ==> r.error.value == ValueError(ChildName(c)))
  {
  }

  /** A Python `parent=` argument for a new hybrid group. */
  datatype ParentArg = NoParent | HybridParent(group: HybridGroup) | OtherParent(className: string)

  /** The group a `parent=` argument names, if any. */
  function ParentGroup(p: ParentArg): HybridGroup? {
    if p.HybridParent? then p.group else null
  }

  /** `kwargs.setdefault('parent', g)`: an explicit `parent=` wins, even `parent=None`. */
  function DefaultParent(kw: Option<ParentArg>, g: HybridGroup): (p: ParentArg)
    ensures kw.None? ==> p == HybridParent(g) && ParentGroup(p) == g
    ensures kw.Some? ==> p == kw.value
  {
    if kw.Some? then kw.value else HybridParent(g)
  }

  /**
   * What a decorator is applied to: a coroutine function, a function that is
   * not a coroutine, or an object that is already a command.
   */
  datatype Callback = Function(name: string) | NotCoroutine(name: string) | AlreadyCommand

  /** The TypeError a decorator raises for a callback it cannot take. */
  function Refusal(func: Callback): (e: Exc)
    requires !func.Function?
    ensures e.TypeError?
    ensures func.AlreadyCommand? <==> e == TypeError(AlreadyCommandMessage)
  {
    if func.AlreadyCommand? then TypeError(AlreadyCommandMessage) else TypeError(NotCoroutineMessage)
  }

  /** A HybridGroup: a text group whose children are mirrored into an application-command group. */
  class HybridGroup {
    const name: string
    const aliases: seq<string>
    /** The text-side parent group. */
    var parent: HybridGroup?
    /** The parent of the application-command group, as the hybrid group that owns it. */
    var appParent: HybridGroup?
    /** `all_commands`: every name and alias of every child. */
    var allCommands: map<string, Child>
    /** The application-command group's children, by name. */
    var appChildren: map<string, AppNode>

    constructor Init(name: string, aliases: seq<string>, parent: HybridGroup?)
      ensures this.name == name && this.aliases == aliases
      ensures this.parent == parent && appParent == parent
      ensures allCommands == map[] && appChildren == map[]
    {
      this.name := name;
      this.aliases := aliases;
      this.parent := parent;
      this.appParent := parent;
      this.allCommands := map[];
      this.appChildren := map[];
    }

    /**
     * `HybridGroup.__init__`: a parent must itself be a hybrid group, and
     * the application-command group takes that group's application-command
     * group as its parent without being added to it.
     */
    static method Create(name: string, aliases: seq<string>, parent: ParentArg) returns (r: Result<HybridGroup>)
      ensures r.Err? <==> parent.OtherParent?
      ensures r.Err? ==> r.error == TypeError("HybridGroup parent must be HybridGroup not " + parent.className)
      ensures r.Ok? ==> && fresh(r.value)
                        && r.value.name == name && r.value.aliases == aliases
                        && r.value.parent == ParentGroup(parent)
                        && r.value.appParent == r.value.parent
                        && r.value.allCommands == map[] && r.value.appChildren == map[]
    {
      if parent.OtherParent? {
        return Err(TypeError("HybridGroup parent must be HybridGroup not " + parent.className));
      }
      var group := new HybridGroup.Init(name, aliases, ParentGroup(parent));
      return Ok(group);
    }

    /**
     * `remove_command`. The text side is the base group's removal, whose
     * source is not part of this model: it is taken to remove the entry for
     * `name` and return it, and nothing more. The application-command group
     * drops its child of that name.
     */
    method RemoveCommand(name: string) returns (cmd: Option<Child>)
      modifies this`allCommands, this`appChildren
      ensures cmd == if name in old(allCommands) then Some(old(allCommands)[name]) else None
      ensures allCommands == old(allCommands) - {name}
      ensures appChildren == old(appChildren) - {name}
    {
      cmd := if name in allCommands then Some(allCommands[name]) else None;
      allCommands := allCommands - {name};
      appChildren := appChildren - {name};
    }

    /**
     * `add_command`. The two type guards come first; then the child is added
     * to the application-command group, which points the child's application
     * command at this group's, and its parent is set; only then are
     * the name and each alias checked and entered; an alias conflict undoes
     * the name through `remove_command`. `appAdd` is how the
     * application-command group's own `add_command` finished.
     */
    method AddCommand(command: Child, appAdd: Completion) returns (err: Option<Exc>)
      modifies this, ChildObjects(command)
      ensures var reg := Register(old(allCommands), old(appChildren), old(parent) != null, command, appAdd);
              err == reg.error && allCommands == reg.text && appChildren == reg.app
      ensures var reg := Register(old(allCommands), old(appChildren), old(parent) != null, command, appAdd);
              && (command.HybridCmd? ==>
                    command.command.parent == if reg.parented then this else old(command.command.parent))
              && (command.HybridGrp? ==>
                    command.group.parent == if reg.parented then this else old(command.group.parent))
      // the application-command group's add points the child's application command at this group's
      ensures var reg := Register(old(allCommands), old(appChildren), old(parent) != null, command, appAdd);
              && (command.HybridCmd? ==>
                    command.command.appCommand.parent ==
                      if reg.parented then this else old(command.command.appCommand.parent))
              && (command.HybridGrp? ==>
                    command.group.appParent == if reg.parented then this else old(command.group.appParent))
      ensures command != HybridGrp(this) ==> parent == old(parent) && appParent == old(appParent)
      // the child's own state other than its two parent links is left alone
      ensures command.HybridCmd? ==>
                && command.command.cog == old(command.command.cog)
                && command.command.appCommand.binding == old(command.command.appCommand.binding)
      ensures command.HybridGrp? && command.group != this ==>
                && command.group.allCommands == old(command.group.allCommands)
                && command.group.appChildren == old(command.group.appChildren)
    {
      if command.OtherCommand? {
        return Some(TypeError(NotHybridMessage));
      }
      if command.HybridGrp? && parent != null {
        return Some(ValueError(command.group.name));
      }
      if appAdd.Threw? {
        return Some(appAdd.error);
      }
      var name, aliases := ChildName(command), ChildAliases(command);
      appChildren := appChildren[name := AppNodeOf(command)];
      if command.HybridCmd? {
        command.command.appCommand.parent := this;
        command.command.parent := this;
      } else {
        command.group.appParent := this;
        command.group.parent := this;
      }

      if name in allCommands {
        return Some(CommandRegistrationError(name, false));
      }
      allCommands := allCommands[name := command];
      err := EnterAliases(command, name, aliases, old(allCommands));
    }

    /**
     * The alias loop of `add_command`, run once the name is entered: each
     * alias is entered in turn, and the first one that is already taken
     * makes the group remove the name again and raise.
     */
    method EnterAliases(command: Child, name: string, aliases: seq<string>, ghost text: map<string, Child>)
      returns (err: Option<Exc>)
      requires name !in text && allCommands == text[name := command]
      modifies this`allCommands, this`appChildren
      ensures FirstConflict(text, name, aliases, 0).Some? ==>
                var k := FirstConflict(text, name, aliases, 0).value;
                && err == Some(CommandRegistrationError(aliases[k], true))
                && allCommands == (text[name := command] + AliasMap(aliases[..k], command)) - {name}
                && appChildren == old(appChildren) - {name}
      ensures FirstConflict(text, name, aliases, 0).None? ==>
                && err == None
                && allCommands == text[name := command] + AliasMap(aliases, command)
                && appChildren == old(appChildren)
    {
      var i := 0;
      while i < |aliases|
        invariant 0 <= i <= |aliases|
        invariant allCommands == text[name := command] + AliasMap(aliases[..i], command)
        invariant appChildren == old(appChildren)
        invariant forall j :: 0 <= j < i ==> !AliasTaken(text, name, aliases, j)
      {
        var alias := aliases[i];
        TakenInRegistry(text, name, command, aliases, i);
        if alias in allCommands {
          ConflictAt(text, name, aliases, i);
          var removed := RemoveCommand(name);
          return Some(CommandRegistrationError(alias, true));
        }
        EnterNext(text[name := command], command, aliases, i);
        allCommands := allCommands[alias := command];
        i := i + 1;
      }
      assert aliases[..i] == aliases;
      assert FirstConflict(text, name, aliases, 0).None?;
      return None;
    }

    /**
     * The `command` shortcut decorator: `hybrid_command` with `parent`
     * defaulting to this group, then `add_command`. `made` is the command
     * the decorator built, if it built one.
     */
    method Command(func: Callback, name: string, aliases: seq<string>, parentKw: Option<HybridGroup?>,
                   appAdd: Completion)
      returns (r: Result<HybridCommand>, ghost made: HybridCommand?)
      modifies this
      ensures !func.Function? ==>
                && r == Err(Refusal(func)) && made == null
                && allCommands == old(allCommands) && appChildren == old(appChildren)
      ensures func.Function? ==>
                && made != null && fresh(made) && made.name == name && made.aliases == aliases
                && made.cog == None && made.appCommand.name == name && made.Mirrored()
                && var reg := Register(old(allCommands), old(appChildren), old(parent) != null, HybridCmd(made), appAdd);
                   && allCommands == reg.text && appChildren == reg.app
                   && r == (if reg.error.Some? then Err(reg.error.value) else Ok(made))
                   && made.parent == (if reg.parented || parentKw.None? then this else parentKw.value)
                   && made.appCommand.parent == (if reg.parented then this else null)
      ensures parent == old(parent) && appParent == old(appParent)
    {
      var d := HybridCommandDecorator(func, name, aliases, if parentKw.Some? then parentKw.value else this);
      if d.Err? {
        return Err(d.error), null;
      }
      made := d.value;
      var err := AddCommand(HybridCmd(d.value), appAdd);
      r := if err.Some? then Err(err.value) else Ok(d.value);
    }

    /**
     * The `group` shortcut decorator: `hybrid_group` with `parent`
     * defaulting to this group, then `add_command`. `made` is the group the
     * decorator built, if it built one.
     */
    method Group(func: Callback, name: string, aliases: seq<string>, parentKw: Option<ParentArg>,
                 appAdd: Completion)
      returns (r: Result<HybridGroup>, ghost made: HybridGroup?)
      modifies this
      ensures var p := DefaultParent(parentKw, this);
              && (!func.Function? ==> r == Err(Refusal(func)))
              && (func.Function? && p.OtherParent? ==>
                    r == Err(TypeError("HybridGroup parent must be HybridGroup not " + p.className)))
              && (made == null <==> !func.Function? || p.OtherParent?)
              && (made == null ==> allCommands == old(allCommands) && appChildren == old(appChildren))
      ensures made != null ==>
                && fresh(made) && made.name == name && made.aliases == aliases
                && var reg := Register(old(allCommands), old(appChildren), old(parent) != null, HybridGrp(made), appAdd);
                   && allCommands == reg.text && appChildren == reg.app
                   && r == (if reg.error.Some? then Err(reg.error.value) else Ok(made))
                   && made.parent == (if reg.parented then this else ParentGroup(DefaultParent(parentKw, this)))
                   && made.appParent == (if reg.parented then this else ParentGroup(DefaultParent(parentKw, this)))
      ensures parent == old(parent) && appParent == old(appParent)
    {
      var p := DefaultParent(parentKw, this);
      var d := HybridGroupDecorator(func, name, aliases, p);
      if d.Err? {
        return Err(d.error), null;
      }
      made := d.value;
      var err := AddCommand(HybridGrp(d.value), appAdd);
      r := if err.Some? then Err(err.value) else Ok(d.value);
    }
  }

  /**
   * `hybrid_command`: the decorator refuses a callback that is already a
   * command, the base command constructor refuses one that is not a
   * coroutine, and otherwise a hybrid command is built with its
   * application command.
   */
  method HybridCommandDecorator(func: Callback, name: string, aliases: seq<string>, parent: HybridGroup?)
    returns (r: Result<HybridCommand>)
    ensures r.Err? <==> !func.Function?
    ensures r.Err? ==> r.error == Refusal(func)
    ensures r.Ok? ==> && fresh(r.value) && fresh(r.value.appCommand)
                      && r.value.name == name && r.value.aliases == aliases && r.value.parent == parent
                      && r.value.cog == None && r.value.appCommand.name == name && r.value.Mirrored()
                      && r.value.appCommand.parent == null
  {
    if func.AlreadyCommand? {
      return Err(TypeError(AlreadyCommandMessage));
    }
    if func.NotCoroutine? {
      return Err(TypeError(NotCoroutineMessage));
    }
    var command := new HybridCommand(name, aliases, parent);
    return Ok(command);
  }

  /**
   * `hybrid_group`: the decorator refuses a callback that is already a
   * command, and the base constructor refuses one that is not a coroutine,
   * both before the group's own parent check runs.
   */
  method HybridGroupDecorator(func: Callback, name: string, aliases: seq<string>, parent: ParentArg)
    returns (r: Result<HybridGroup>)
    ensures !func.Function? ==> r == Err(Refusal(func))
    ensures func.Function? ==> (r.Err? <==> parent.OtherParent?)
    ensures func.Function? && r.Err? ==>
              r.error == TypeError("HybridGroup parent must be HybridGroup not " + parent.className)
    ensures r.Ok? ==> && fresh(r.value)
                      && r.value.name == name && r.value.aliases == aliases
                      && r.value.parent == ParentGroup(parent)
                      && r.value.appParent == r.value.parent
                      && r.value.allCommands == map[] && r.value.appChildren == map[]
  {
    if func.AlreadyCommand? {
      return Err(TypeError(AlreadyCommandMessage));
    }
    if func.NotCoroutine? {
      return Err(TypeError(NotCoroutineMessage));
    }
    r := HybridGroup.Create(name, aliases, parent);
  }
}
