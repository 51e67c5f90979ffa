/**
 * The command registry, the parser-table compiler and the dispatch wrapper
 * of the CLI layer, with its init/run/deinit life cycle.
 *
 * The registry is process-wide state in the original (a fixed array of
 * CLI_MAX_COMMANDS slots and a fill counter); here it is a `Registry`
 * object. The argument parser (argtable3) and the console engine
 * (esp_console) are foreign: allocation of a parser node, the console's
 * registration result, the parser's verdict and the user callbacks are
 * parameters of the operations that use them. The ghost set `live` holds
 * the parser nodes that have been allocated and not freed, so that a leak
 * shows up as a node that stays live without being reachable.
 */
module CliApi {
  import opened CliTypes

  /** How an argtable3 node was constructed. */
  datatype NodeShape =
    | OptionNode(kind: ArgKind, minCount: nat, maxCount: nat,
                 shortOpt: Option<string>, longOpt: Option<string>,
                 placeholder: Option<string>, glossary: Option<string>)
    | EndNode(maxErrors: nat)

  /** A node of an argtable3 table: heap-allocated, referenced by pointer. */
  class ParserNode {
    const shape: NodeShape

    constructor (s: NodeShape)
      ensures shape == s
    {
      shape := s;
    }
  }

  /** arg_xxx0 / arg_xxx1: allocation by a foreign library, which may return NULL. */
  method NewNode(s: NodeShape, ok: bool) returns (n: ParserNode?)
    ensures ok ==> n != null && fresh(n) && n.shape == s
    ensures !ok ==> n == null
  {
    if ok {
      n := new ParserNode(s);
    } else {
      n := null;
    }
  }

  /**
   * The node built for one declared argument: one of six constructors chosen
   * by (kind, required). The `*1` constructors make the option mandatory
   * (1..1 occurrences), the `*0` ones optional (0..1). Flag constructors
   * take no placeholder.
   */
  function ShapeFor(a: ArgDescriptor): (s: NodeShape)
    requires KindOf(a.typeCode).Some?
    ensures s.OptionNode? && s.kind == KindOf(a.typeCode).value
    ensures s.minCount == (if a.required then 1 else 0) && s.maxCount == 1
    ensures s.shortOpt == a.shortOpt && s.longOpt == a.longOpt && s.glossary == a.description
    ensures s.placeholder == (if s.kind == FlagArg then None else a.placeholder)
  {
    match KindOf(a.typeCode).value
    case IntArg =>
      if a.required then OptionNode(IntArg, 1, 1, a.shortOpt, a.longOpt, a.placeholder, a.description)
      else OptionNode(IntArg, 0, 1, a.shortOpt, a.longOpt, a.placeholder, a.description)
    case StringArg =>
      if a.required then OptionNode(StringArg, 1, 1, a.shortOpt, a.longOpt, a.placeholder, a.description)
      else OptionNode(StringArg, 0, 1, a.shortOpt, a.longOpt, a.placeholder, a.description)
    case FlagArg =>
      if a.required then OptionNode(FlagArg, 1, 1, a.shortOpt, a.longOpt, None, a.description)
      else OptionNode(FlagArg, 0, 1, a.shortOpt, a.longOpt, None, a.description)
  }

  /** One registry slot (cli_registered_cmd_t); `argtable` has CLI_MAX_ARGS + 1 entries. */
  datatype Slot = Slot(cmdDef: Option<Command>, argtable: seq<ParserNode?>, argCount: nat)

  /** A zero-initialised slot, as the static array starts out. */
  const EmptySlot: Slot := Slot(None, seq(MaxArgs + 1, _ => null), 0)

  /** The non-null nodes of a table. */
  ghost function NodesOf(t: seq<ParserNode?>): set<ParserNode>
  {
    set n: ParserNode | n in t
  }

  lemma NodesOfSnoc(t: seq<ParserNode?>, i: nat)
    requires i < |t|
    ensures NodesOf(t[..i + 1]) == NodesOf(t[..i]) + (if t[i] == null then {} else {t[i]})
  {
    assert t[..i + 1] == t[..i] + [t[i]];
  }

  /** Outcomes of the foreign calls one registration makes. */
  datatype Foreign = Foreign(
    nodeAllocOk: nat -> bool,   // whether the constructor for argument i returns a node
    endAllocOk: bool,           // whether arg_end returns a node
    consoleResult: int)         // what esp_console_cmd_register returns

  /** The descriptor pointer, its name and its callback are all non-NULL. */
  predicate Describes(cmd: Option<Command>)
  {
    cmd.Some? && cmd.value.name.Some? && cmd.value.callback.Some?
  }

  /** Passes both checks made before any slot is touched. */
  predicate Admitted(cmd: Option<Command>, count: nat)
  {
    Describes(cmd) && count < MaxCommands
  }

  /** Arguments [from, to) all have a valid kind and their node allocations succeed. */
  predicate StepsOk(args: seq<ArgDescriptor>, allocOk: nat -> bool, from: nat, to: nat)
    requires to <= |args|
  {
    forall j :: from <= j < to ==> KindOf(args[j].typeCode).Some? && allocOk(j)
  }

  /** Where the node-building loop stops: it finishes, meets an invalid kind, or fails to allocate. */
  datatype BuildStatus = Built | BadKind(at: nat) | NoMem(at: nat)

  /** The status of the node-building loop started at argument `i` of `k`. */
  function BuildFrom(args: seq<ArgDescriptor>, allocOk: nat -> bool, i: nat, k: nat): (b: BuildStatus)
    requires i <= k <= |args|
    ensures b.Built? <==> StepsOk(args, allocOk, i, k)
    ensures b.BadKind? ==> i <= b.at < k && KindOf(args[b.at].typeCode).None? && StepsOk(args, allocOk, i, b.at)
    ensures b.NoMem? ==> i <= b.at < k && KindOf(args[b.at].typeCode).Some? && !allocOk(b.at)
                         && StepsOk(args, allocOk, i, b.at)
    decreases k - i
  {
    if i == k then Built
    else if KindOf(args[i].typeCode).None? then BadKind(i)
    else if !allocOk(i) then NoMem(i)
    else BuildFrom(args, allocOk, i + 1, k)
  }

  /** The status code of one registration, and whether it grows the registry by one entry. */
  datatype Outcome = Outcome(result: int, grows: bool)

  /** What cli_register_command returns, and whether it publishes a new entry. */
  function RegisterOutcome(cmd: Option<Command>, count: nat, env: Foreign): (o: Outcome)
    requires cmd.Some? ==> cmd.value.Fits()
    ensures o.grows ==> Admitted(cmd, count)
    ensures o.result == EspOk ==> o.grows
    ensures !Describes(cmd) ==> o.result == EspErrInvalidArg
    ensures Describes(cmd) && count >= MaxCommands ==> o.result == EspErrNoMem
    ensures Admitted(cmd, count) && cmd.value.argCount == 0 ==> o.grows && o.result == env.consoleResult
    ensures Describes(cmd) && cmd.value.argCount > 0 ==> (o.grows <==> o.result == EspOk)
    ensures o.result in {EspOk, EspErrInvalidArg, EspErrNoMem, env.consoleResult}
  {
    if !Describes(cmd) then Outcome(EspErrInvalidArg, false)
    else if count >= MaxCommands then Outcome(EspErrNoMem, false)
    else if cmd.value.argCount == 0 then Outcome(env.consoleResult, true)
    else match BuildFrom(cmd.value.args, env.nodeAllocOk, 0, cmd.value.argCount)
      case BadKind(_) => Outcome(EspErrInvalidArg, false)
      case NoMem(_) => Outcome(EspErrNoMem, false)
      case Built =>
        if env.consoleResult == EspOk then Outcome(EspOk, true) else Outcome(env.consoleResult, false)
  }

  /** A registration with arguments succeeds exactly when every kind is valid, every node is allocated and the console accepts it. */
  lemma RegisterOkIff(cmd: Command, count: nat, env: Foreign)
    requires cmd.Fits() && cmd.argCount > 0
    ensures RegisterOutcome(Some(cmd), count, env).result == EspOk
        <==> Admitted(Some(cmd), count) && StepsOk(cmd.args, env.nodeAllocOk, 0, cmd.argCount)
             && env.consoleResult == EspOk
  {
    if Admitted(Some(cmd), count) && !StepsOk(cmd.args, env.nodeAllocOk, 0, cmd.argCount) {
      var b := BuildFrom(cmd.args, env.nodeAllocOk, 0, cmd.argCount);
      assert !b.Built?;
    }
  }

  /** Result of a batch registration: status, final count, and how many commands it got through. */
  datatype BatchOutcome = BatchOutcome(result: int, count: nat, done: nat)

  /** The batch loop from command `i` on, with the registry holding `count` entries. */
  function BatchFrom(cs: seq<Command>, i: nat, n: nat, count: nat, envs: nat -> Foreign): (b: BatchOutcome)
    requires i <= n <= |cs|
    requires forall j :: i <= j < n ==> cs[j].Fits()
    ensures i <= b.done <= n && b.count >= count
    ensures b.result == EspOk <==> b.done == n
    ensures b.result == EspOk ==> b.count == count + (n - i)
    ensures b.result != EspOk ==>
      var o := RegisterOutcome(Some(cs[b.done]), count + (b.done - i), envs(b.done));
      b.result == o.result && b.count == count + (b.done - i) + (if o.grows then 1 else 0)
    decreases n - i
  {
    if i == n then BatchOutcome(EspOk, count, n)
    else
      var o := RegisterOutcome(Some(cs[i]), count, envs(i));
      if o.result != EspOk then BatchOutcome(o.result, count + (if o.grows then 1 else 0), i)
      else BatchFrom(cs, i + 1, n, count + 1, envs)
  }

  /** A successful registration moves the batch on to the next command, one entry further. */
  lemma BatchStep(cs: seq<Command>, i: nat, n: nat, count: nat, envs: nat -> Foreign)
    requires i < n <= |cs|
    requires forall j :: i <= j < n ==> cs[j].Fits()
    requires RegisterOutcome(Some(cs[i]), count, envs(i)).result == EspOk
    ensures BatchFrom(cs, i, n, count, envs) == BatchFrom(cs, i + 1, n, count + 1, envs)
  {
  }

  /** Entries [from, from + i) of `s` hold the commands cs[0 .. i), in order. */
  predicate Holds(s: seq<Slot>, from: nat, cs: seq<Command>, i: nat)
  {
    && from + i <= |s| && i <= |cs|
    && forall j :: 0 <= j < i ==> s[from + j].cmdDef == Some(cs[j])
  }

  lemma PrefixOfPrefix(s: seq<Slot>, s': seq<Slot>, a: nat, b: nat)
    requires a <= b <= |s| && b <= |s'| && s'[..b] == s[..b]
    ensures s'[..a] == s[..a]
  {
    assert s'[..a] == s'[..b][..a];
    assert s[..a] == s[..b][..a];
  }

  lemma HoldsKept(s: seq<Slot>, s': seq<Slot>, from: nat, cs: seq<Command>, i: nat)
    requires Holds(s, from, cs, i) && |s'| == |s| && s'[..from + i] == s[..from + i]
    ensures Holds(s', from, cs, i)
  {
    forall j | 0 <= j < i
      ensures s'[from + j].cmdDef == Some(cs[j])
    {
      assert s'[from + j] == s'[..from + i][from + j];
    }
  }

  lemma HoldsExtend(s: seq<Slot>, s': seq<Slot>, from: nat, cs: seq<Command>, i: nat)
    requires Holds(s, from, cs, i) && from + i < |s'| == |s| && i < |cs|
    requires s'[..from + i] == s[..from + i] && s'[from + i].cmdDef == Some(cs[i])
    ensures Holds(s', from, cs, i + 1)
  {
    HoldsKept(s, s', from, cs, i);
  }

  /** What cli_register_commands returns for the list `commands` (None is a NULL list) of length `n`. */
  function Batch(commands: Option<seq<Command>>, n: nat, count: nat, envs: nat -> Foreign): (b: BatchOutcome)
    requires commands.Some? ==> n <= |commands.value| && forall j :: 0 <= j < n ==> commands.value[j].Fits()
    ensures commands.None? || n == 0 ==> b == BatchOutcome(EspErrInvalidArg, count, 0)
    ensures b.result == EspOk <==> commands.Some? && n > 0 && b.done == n
    ensures b.result == EspOk ==> b.count == count + n
    ensures b.count >= count && b.done <= n
  {
    if commands.None? || n == 0 then BatchOutcome(EspErrInvalidArg, count, 0)
    else BatchFrom(commands.value, 0, n, count, envs)
  }

  /** The slot's command has the name (strcmp(...) == 0). */
  predicate Names(s: Slot, name: string)
  {
    s.cmdDef.Some? && s.cmdDef.value.name == Some(name)
  }

  /** Index of the first slot from `i` on whose command has the name. */
  function FirstMatchFrom(slots: seq<Slot>, name: string, i: nat): (r: Option<nat>)
    requires i <= |slots|
    ensures r.Some? ==> i <= r.value < |slots| && Names(slots[r.value], name)
                        && forall j :: i <= j < r.value ==> !Names(slots[j], name)
    ensures r.None? ==> forall j :: i <= j < |slots| ==> !Names(slots[j], name)
    decreases |slots| - i
  {
    if i == |slots| then None
    else if Names(slots[i], name) then Some(i)
    else FirstMatchFrom(slots, name, i + 1)
  }

  /** The entry a name resolves to: the first one with that name. */
  function FirstMatch(slots: seq<Slot>, name: string): (r: Option<nat>)
    ensures r.Some? ==> r.value < |slots| && Names(slots[r.value], name)
                        && forall j :: 0 <= j < r.value ==> !Names(slots[j], name)
    ensures r.None? ==> forall j :: 0 <= j < |slots| ==> !Names(slots[j], name)
  {
    FirstMatchFrom(slots, name, 0)
  }

  /**
   * Appending entries never changes what an already registered name resolves
   * to; a name that resolved to nothing resolves to its first new entry.
   */
  lemma FirstMatchAppend(slots: seq<Slot>, more: seq<Slot>, name: string)
    ensures FirstMatch(slots, name).Some? ==> FirstMatch(slots + more, name) == FirstMatch(slots, name)
    ensures FirstMatch(slots, name).None? && FirstMatch(more, name).Some? ==>
              FirstMatch(slots + more, name) == Some(|slots| + FirstMatch(more, name).value)
    ensures FirstMatch(slots, name).None? && FirstMatch(more, name).None? ==> FirstMatch(slots + more, name).None?
  {
    var all := slots + more;
    assert forall j :: 0 <= j < |slots| ==> all[j] == slots[j];
    assert forall j :: |slots| <= j < |all| ==> all[j] == more[j - |slots|];
    if FirstMatch(slots, name).None? && FirstMatch(more, name).Some? {
      var m := FirstMatch(more, name).value;
      assert Names(all[|slots| + m], name);
      assert forall j :: 0 <= j < |slots| + m ==> !Names(all[j], name);
    }
  }

  /** What the parser leaves in one node: occurrence count and first value (ival[0] / sval[0]). */
  datatype NodeState = NodeState(count: int, ival: int, sval: string)

  /** arg_parse's verdict: the error count and the state of the node at each table index. */
  datatype ParseResult = ParseResult(errors: int, states: nat -> NodeState)

  /** arg_parse, a foreign function of the table and the token vector. */
  type ParseOracle = (seq<ParserNode?>, seq<string>) -> ParseResult

  /** The user callbacks: what callback `id` returns when handed a context. */
  type CallbackOracle = (CallbackId, Context) -> int

  /**
   * The value the wrapper extracts for one argument of the given kind from
   * its node (None: a `type` that no case of the switch handles).
   */
  function Extract(kind: Option<ArgKind>, n: NodeState): (v: ArgValue)
    // a type no case handles leaves the zero-initialised value
    ensures kind.None? ==> v == NoValue
    ensures kind.Some? ==> v.count == n.count
    // only the field of the argument's own kind is ever set
    ensures kind != Some(IntArg) ==> v.intValue == 0
    ensures kind != Some(StringArg) ==> v.strValue.None?
    ensures kind != Some(FlagArg) ==> !v.flagValue
    // an argument that was given exposes its first value
    ensures n.count > 0 && kind == Some(IntArg) ==> v.intValue == n.ival
    ensures n.count > 0 && kind == Some(StringArg) ==> v.strValue == Some(n.sval)
    ensures n.count > 0 && kind == Some(FlagArg) ==> v.flagValue
    // an argument that was not given reads as 0, NULL, false
    ensures n.count <= 0 ==> v.intValue == 0 && v.strValue.None? && !v.flagValue
  {
    match kind
    case None => NoValue
    case Some(IntArg) => ArgValue(if n.count > 0 then n.ival else 0, None, false, n.count)
    case Some(StringArg) => ArgValue(0, if n.count > 0 then Some(n.sval) else None, false, n.count)
    case Some(FlagArg) => ArgValue(0, None, n.count > 0, n.count)
  }

  /** The values array of the context: one extracted value per declared argument, zero beyond. */
  function ExtractedArgs(c: Command, res: ParseResult): (vs: seq<ArgValue>)
    requires c.Fits()
    ensures |vs| == MaxArgs
    ensures forall i :: c.argCount <= i < MaxArgs ==> vs[i] == NoValue
  {
    seq(MaxArgs, i requires 0 <= i < MaxArgs =>
      if i < c.argCount then Extract(KindOf(c.args[i].typeCode), res.states(i)) else NoValue)
  }

  /** The fields of cli_config_t the model uses (the structure is not part of the header shown). */
  datatype CliConfig = CliConfig(prompt: Option<string>, banner: Option<string>, registerHelp: bool, storeHistory: bool)

  /** An entry the wrapper may look up: a checked descriptor and a table for each declared argument. */
  predicate Published(s: Slot)
  {
    && Describes(s.cmdDef)
    && s.cmdDef.value.Fits()
    && s.argCount == s.cmdDef.value.argCount
    && |s.argtable| == MaxArgs + 1
    && (forall j :: 0 <= j < s.argCount ==> KindOf(s.cmdDef.value.args[j].typeCode).Some?)
    && (s.argCount > 0 ==> forall j :: 0 <= j < s.argCount ==> s.argtable[j] != null)
  }

  /** Nodes [0, i) of `t` are the ones built for the arguments of `c`. */
  predicate BuiltPrefix(t: seq<ParserNode?>, c: Command, i: nat)
    requires c.Fits()
  {
    && |t| == MaxArgs + 1
    && i <= c.argCount
    && forall j :: 0 <= j < i ==>
         KindOf(c.args[j].typeCode).Some? && t[j] != null && t[j].shape == ShapeFor(c.args[j])
  }

  lemma BuiltPrefixExtend(t: seq<ParserNode?>, c: Command, i: nat, node: ParserNode)
    requires c.Fits() && BuiltPrefix(t, c, i) && i < c.argCount
    requires KindOf(c.args[i].typeCode).Some? && node.shape == ShapeFor(c.args[i])
    ensures BuiltPrefix(t[i := node], c, i + 1)
  {
  }

  /** How many leading entries of the table a registration attempt wrote nodes into. */
  function Reached(b: BuildStatus, k: nat): nat
  {
    match b
    case BadKind(i) => i
    case NoMem(i) => i
    case Built => k + 1
  }

  /**
   * The table after the building loop stopped with status `b`, from a slot
   * that held `t0`: the nodes for the arguments before the stopping point,
   * NULL where an allocation failed, the end node (NULL when arg_end failed,
   * which is not checked) after a complete build, and `t0` beyond.
   */
  predicate TableAfter(t: seq<ParserNode?>, t0: seq<ParserNode?>, def: Command, b: BuildStatus, endOk: bool)
    requires def.Fits() && |t0| == MaxArgs + 1
  {
    var k := def.argCount;
    && |t| == MaxArgs + 1
    && match b
       case BadKind(i) =>
         i < k && BuiltPrefix(t, def, i) && (forall j :: i <= j <= MaxArgs ==> t[j] == t0[j])
       case NoMem(i) =>
         i < k && BuiltPrefix(t, def, i) && t[i] == null && (forall j :: i < j <= MaxArgs ==> t[j] == t0[j])
       case Built =>
         && BuiltPrefix(t, def, k)
         && (if endOk then t[k] != null && t[k].shape == EndNode(k + 1) else t[k] == null)
         && (forall j :: k < j <= MaxArgs ==> t[j] == t0[j])
  }

  /**
   * The nodes of a registration attempt that are never freed: those built
   * before an invalid kind (a leak), and the whole table of a successful
   * registration.
   */
  ghost function Retained(t: seq<ParserNode?>, b: BuildStatus, k: nat, consoleOk: bool): set<ParserNode>
    requires Reached(b, k) <= |t|
  {
    match b
    case BadKind(i) => NodesOf(t[..i])
    case NoMem(_) => {}
    case Built => if consoleOk then NodesOf(t[..k + 1]) else {}
  }

  /**
   * An invalid kind after at least one built node leaks: the nodes built
   * before it stay allocated, yet the failed slot is never published, so
   * no entry refers to them.
   */
  lemma BadKindLeaks(t: seq<ParserNode?>, t0: seq<ParserNode?>, def: Command, b: BuildStatus,
                     endOk: bool, consoleOk: bool)
    requires def.Fits() && |t0| == MaxArgs + 1
    requires TableAfter(t, t0, def, b, endOk) && b.BadKind? && b.at > 0
    ensures t[0] != null && t[0] in Retained(t, b, def.argCount, consoleOk)
    ensures |Retained(t, b, def.argCount, consoleOk)| >= 1
  {
    assert t[0] in t[..b.at];
  }

  /** The failures that free what they built (allocation, console refusal) retain nothing. */
  lemma FailuresRetainNothing(t: seq<ParserNode?>, b: BuildStatus, k: nat, consoleOk: bool)
    requires Reached(b, k) <= |t|
    requires b.NoMem? || (b.Built? && !consoleOk)
    ensures Retained(t, b, k, consoleOk) == {}
  {
  }

  /**
   * The nodes a published entry's table refers to: its argument nodes and its
   * end node, the entries arg_freetable would walk.
   */
  ghost function TableNodes(s: Slot): set<ParserNode>
  {
    if 0 < s.argCount < |s.argtable| then NodesOf(s.argtable[..s.argCount + 1]) else {}
  }

  /**
   * The registry invariant on the slot array: every slot has room for
   * CLI_MAX_ARGS + 1 nodes, the first `count` entries are published, and
   * their tables refer only to nodes that were not freed.
   */
  ghost predicate Consistent(s: seq<Slot>, count: nat, live: set<ParserNode>)
  {
    && |s| == MaxCommands
    && count <= MaxCommands
    && (forall i :: 0 <= i < MaxCommands ==> |s[i].argtable| == MaxArgs + 1)
    && (forall i :: 0 <= i < count ==> Published(s[i]))
    && (forall i :: 0 <= i < count ==> TableNodes(s[i]) <= live)
  }

  /**
   * Writing the unpublished slot at `count`, while nodes are allocated and
   * nodes no published table refers to are freed, keeps the invariant.
   */
  lemma WriteSlotKeeps(s: seq<Slot>, count: nat, live: set<ParserNode>,
                        slot: Slot, added: set<ParserNode>, freed: set<ParserNode>)
    requires Consistent(s, count, live)
    requires count < MaxCommands && |slot.argtable| == MaxArgs + 1
    requires freed !! live
    ensures Consistent(s[count := slot], count, live + added - freed)
  {
    var s' := s[count := slot];
    forall i | 0 <= i < count
      ensures TableNodes(s'[i]) <= live + added - freed
    {
      assert s'[i] == s[i];
    }
  }

  /** Publishing a slot whose table is allocated keeps the invariant. */
  lemma PublishKeeps(s: seq<Slot>, count: nat, live: set<ParserNode>)
    requires Consistent(s, count, live)
    requires count < MaxCommands && Published(s[count]) && TableNodes(s[count]) <= live
    ensures Consistent(s, count + 1, live)
  {
  }

  class Registry {
    /** s_registered_cmds */
    const cmds: array<Slot>
    /** s_cmd_count */
    var count: nat
    /** s_initialized */
    var initialized: bool
    /** s_store_history */
    var storeHistory: bool
    /** Parser nodes allocated and not yet freed. */
    ghost var live: set<ParserNode>

    ghost predicate Valid()
      reads this, cmds
    {
      cmds.Length == MaxCommands && Consistent(cmds[..], count, live)
    }

    constructor ()
      ensures Valid() && fresh(cmds)
      ensures count == 0 && !initialized && !storeHistory && live == {}
      ensures forall i :: 0 <= i < MaxCommands ==> cmds[i] == EmptySlot
    {
      cmds := new Slot[MaxCommands](_ => EmptySlot);
      count, initialized, storeHistory := 0, false, false;
      live := {};
    }

    /**
     * cli_init. NVS initialisation and the filesystem mount are foreign;
     * their results are parameters. `defaultConfig` stands for
     * CLI_CONFIG_DEFAULT(), used when `config` is NULL.
     */
    method Init(config: Option<CliConfig>, defaultConfig: CliConfig, nvsResult: int, mountResult: int)
      returns (r: int)
      requires Valid()
      modifies this
      ensures Valid()
      ensures count == old(count) && live == old(live)
      ensures old(initialized) ==> r == EspOk && initialized && storeHistory == old(storeHistory)
      ensures !old(initialized) && nvsResult != EspOk ==>
                r == nvsResult && !initialized && storeHistory == old(storeHistory)
      ensures !old(initialized) && nvsResult == EspOk ==>
                var cfg := if config.Some? then config.value else defaultConfig;
                r == EspOk && initialized && storeHistory == (cfg.storeHistory && mountResult == EspOk)
    {
      if initialized {
        return EspOk;
      }
      var cfg := if config.Some? then config.value else defaultConfig;
      if nvsResult != EspOk {
        return nvsResult;
      }
      if cfg.storeHistory {
        storeHistory := mountResult == EspOk;
      } else {
        storeHistory := false;
      }
      initialized := true;
      r := EspOk;
    }

    /** cli_run, up to the read-execute-print loop, which is not modelled. */
    method Run() returns (r: int)
      ensures !initialized ==> r == EspErrInvalidState
      ensures initialized ==> r == EspOk
    {
      if !initialized {
        return EspErrInvalidState;
      }
      r := EspOk;
    }

    /** cli_deinit: forgets every entry without freeing any parser table. */
    method Deinit()
      requires Valid()
      modifies this
      ensures Valid()
      ensures live == old(live)
      ensures old(initialized) ==> !initialized && !storeHistory && count == 0
      ensures !old(initialized) ==>
                !initialized && storeHistory == old(storeHistory) && count == old(count)
    {
      if initialized {
        if storeHistory {
          storeHistory := false;
        }
        initialized := false;
        count := 0;
      }
    }

    /** cli_register_simple_command: goes straight to the console and never touches the registry. */
    method RegisterSimpleCommand(name: Option<string>, description: Option<string>,
                                 callback: Option<CallbackId>, consoleResult: int)
      returns (r: int)
      ensures name.None? || callback.None? ==> r == EspErrInvalidArg
      ensures name.Some? && callback.Some? ==> r == consoleResult
    {
      if name.None? || callback.None? {
        return EspErrInvalidArg;
      }
      r := consoleResult;
    }

    /**
     * cli_register_command. The slot at the old count is written in place;
     * only a successful call (or any call that reaches the zero-argument
     * path) publishes it by incrementing the count.
     */
    method RegisterCommand(cmd: Option<Command>, env: Foreign) returns (r: int)
      requires Valid()
      requires cmd.Some? ==> cmd.value.Fits()
      modifies this, cmds
      ensures Valid()
      ensures initialized == old(initialized) && storeHistory == old(storeHistory)
      ensures r == RegisterOutcome(cmd, old(count), env).result
      ensures count == old(count) + (if RegisterOutcome(cmd, old(count), env).grows then 1 else 0)
      // no slot other than the one at the old count is written
      ensures cmds[..old(count)] == old(cmds[..count])
      ensures forall j :: old(count) < j < MaxCommands ==> cmds[j] == old(cmds[j])
      // rejected before any slot is touched: repeating the call fails the same way
      ensures !Admitted(cmd, old(count)) ==> cmds[..] == old(cmds[..]) && live == old(live)
      ensures Admitted(cmd, old(count)) ==> cmds[old(count)].cmdDef == cmd
      // zero arguments: slot written and published whatever the console answers; no table is built
      ensures Admitted(cmd, old(count)) && cmd.value.argCount == 0 ==>
                cmds[old(count)] == Slot(cmd, old(cmds[count].argtable), 0) && live == old(live)
      // with arguments: the slot records the descriptor, its table is built as far as the
      // loop got, and exactly the retained nodes stay allocated
      ensures Admitted(cmd, old(count)) && cmd.value.argCount > 0 ==>
        var k := cmd.value.argCount;
        var b := BuildFrom(cmd.value.args, env.nodeAllocOk, 0, k);
        var t := cmds[old(count)].argtable;
        && cmds[old(count)].cmdDef == cmd && cmds[old(count)].argCount == k
        && TableAfter(t, old(cmds[count].argtable), cmd.value, b, env.endAllocOk)
        && fresh(NodesOf(t[..Reached(b, k)]))
        && live == old(live) + Retained(t, b, k, env.consoleResult == EspOk)
    {
      if cmd.None? || cmd.value.name.None? || cmd.value.callback.None? {
        return EspErrInvalidArg;
      }
      if count >= MaxCommands {
        return EspErrNoMem;
      }
      var def := cmd.value;
      var c := count;
      if def.argCount == 0 {
        cmds[c] := cmds[c].(cmdDef := cmd, argCount := 0);
        count := count + 1;
        r := env.consoleResult;
        return;
      }

      r := RegisterWithArgs(cmd, env);
    }

    /** The part of cli_register_command that builds a parser table, for a command with arguments. */
    method RegisterWithArgs(cmd: Option<Command>, env: Foreign) returns (r: int)
      requires Valid()
      requires Admitted(cmd, count) && cmd.value.Fits() && cmd.value.argCount > 0
      modifies this, cmds
      ensures Valid()
      ensures initialized == old(initialized) && storeHistory == old(storeHistory)
      ensures r == RegisterOutcome(cmd, old(count), env).result
      ensures count == old(count) + (if RegisterOutcome(cmd, old(count), env).grows then 1 else 0)
      ensures cmds[..old(count)] == old(cmds[..count])
      ensures forall j :: old(count) < j < MaxCommands ==> cmds[j] == old(cmds[j])
      ensures
        var k := cmd.value.argCount;
        var b := BuildFrom(cmd.value.args, env.nodeAllocOk, 0, k);
        var t := cmds[old(count)].argtable;
        && cmds[old(count)].cmdDef == cmd && cmds[old(count)].argCount == k
        && TableAfter(t, old(cmds[count].argtable), cmd.value, b, env.endAllocOk)
        && fresh(NodesOf(t[..Reached(b, k)]))
        && live == old(live) + Retained(t, b, k, env.consoleResult == EspOk)
    {
      var def := cmd.value;
      var c := count;
      var k := def.argCount;
      ghost var s0 := cmds[..];
      ghost var live0 := live;
      var t, b := CompileTable(def, env.nodeAllocOk, env.endAllocOk, cmds[c].argtable);
      var slot := Slot(cmd, t, k);
      cmds[c] := slot;
      assert cmds[..] == s0[c := slot];
      ghost var added := live - live0;
      if !b.Built? {
        WriteSlotKeeps(s0, c, live0, slot, added, {});
        return if b.BadKind? then EspErrInvalidArg else EspErrNoMem;
      }
      if env.consoleResult != EspOk {
        // arg_freetable over the k + 1 entries
        live := live - NodesOf(t[..k + 1]);
        WriteSlotKeeps(s0, c, live0, slot, added, NodesOf(t[..k + 1]));
        return env.consoleResult;
      }
      WriteSlotKeeps(s0, c, live0, slot, added, {});
      PublishKeeps(cmds[..], c, live);
      count := count + 1;
      r := EspOk;
    }

    /**
     * The node-building loop of cli_register_command and the end node that
     * follows it, working on a copy `t0` of the slot's table. An invalid kind
     * stops it without freeing anything; an allocation failure frees the
     * nodes built so far.
     */
    method CompileTable(def: Command, allocOk: nat -> bool, endOk: bool, t0: seq<ParserNode?>)
      returns (t: seq<ParserNode?>, b: BuildStatus)
      requires def.Fits() && def.argCount > 0 && |t0| == MaxArgs + 1
      modifies this`live
      ensures b == BuildFrom(def.args, allocOk, 0, def.argCount)
      ensures TableAfter(t, t0, def, b, endOk)
      ensures fresh(NodesOf(t[..Reached(b, def.argCount)]))
      ensures NodesOf(t[..Reached(b, def.argCount)]) !! old(live)
      ensures live == old(live) + (if b.NoMem? then {} else NodesOf(t[..Reached(b, def.argCount)]))
    {
      var k := def.argCount;
      t, b := BuildNodes(def, allocOk, t0);
      if b.BadKind? {
        return;
      }
      if b.NoMem? {
        FreeNodes(t, b.at);
        return;
      }
      var end := NewNode(EndNode(k + 1), endOk);
      t := t[k := end];
      NodesOfSnoc(t, k);
      if end != null {
        live := live + {end};
      }
    }

    /**
     * The loop of cli_register_command over the declared arguments: one node
     * per argument, stopping at an invalid kind or a failed allocation (whose
     * NULL is stored). The nodes built before the stop are left allocated.
     */
    method BuildNodes(def: Command, allocOk: nat -> bool, t0: seq<ParserNode?>)
      returns (t: seq<ParserNode?>, b: BuildStatus)
      requires def.Fits() && def.argCount > 0 && |t0| == MaxArgs + 1
      modifies this`live
      ensures b == BuildFrom(def.args, allocOk, 0, def.argCount)
      ensures var stop := if b.Built? then def.argCount else b.at;
        && stop <= def.argCount
        && BuiltPrefix(t, def, stop)
        && (b.NoMem? ==> t[stop] == null)
        && (forall j :: stop <= j <= MaxArgs && !(b.NoMem? && j == stop) ==> t[j] == t0[j])
        && fresh(NodesOf(t[..stop])) && NodesOf(t[..stop]) !! old(live)
        && live == old(live) + NodesOf(t[..stop])
    {
      var k := def.argCount;
      t := t0;
      var i := 0;
      b := Built;
      ghost var built: set<ParserNode> := {};
      while i < k
        invariant 0 <= i <= k
        invariant b == Built
        invariant BuiltPrefix(t, def, i)
        invariant forall j :: i <= j <= MaxArgs ==> t[j] == t0[j]
        invariant built == NodesOf(t[..i])
        invariant fresh(built) && built !! old(live)
        invariant live == old(live) + built
        invariant BuildFrom(def.args, allocOk, 0, k) == BuildFrom(def.args, allocOk, i, k)
      {
        var arg := def.args[i];
        if KindOf(arg.typeCode).None? {
          b := BadKind(i);
          return;
        }
        var node := NewNode(ShapeFor(arg), allocOk(i));
        if node == null {
          t := t[i := null];
          b := NoMem(i);
          return;
        }
        BuiltPrefixExtend(t, def, i, node);
        t := t[i := node];
        NodesOfSnoc(t, i);
        built := built + {node};
        live := live + {node};
        i := i + 1;
      }
    }

    /** The loop that frees nodes [0, i) after an allocation failure. */
    ghost method FreeNodes(t: seq<ParserNode?>, i: nat)
      requires i <= |t|
      modifies this`live
      ensures live == old(live) - NodesOf(t[..i])
    {
      var j := 0;
      while j < i
        invariant 0 <= j <= i
        invariant live == old(live) - NodesOf(t[..j])
      {
        NodesOfSnoc(t, j);
        if t[j] != null {
          live := live - {t[j]};
        }
        j := j + 1;
      }
    }

    /** cli_register_commands: in order, stopping at the first failure, with no rollback. */
    method RegisterCommands(commands: Option<seq<Command>>, n: nat, envs: nat -> Foreign) returns (r: int)
      requires Valid()
      requires commands.Some? ==> n <= |commands.value| && forall j :: 0 <= j < n ==> commands.value[j].Fits()
      modifies this, cmds
      ensures Valid()
      ensures initialized == old(initialized) && storeHistory == old(storeHistory)
      ensures r == Batch(commands, n, old(count), envs).result
      ensures count == Batch(commands, n, old(count), envs).count
      // entries published before the call are kept
      ensures cmds[..old(count)] == old(cmds[..count])
      // the commands before the failing one stay registered, in order
      ensures commands.Some? ==> Holds(cmds[..], old(count), commands.value, Batch(commands, n, old(count), envs).done)
    {
      if commands.None? || n == 0 {
        return EspErrInvalidArg;
      }
      var cs := commands.value;
      ghost var from := count;
      var i := 0;
      while i < n
        invariant 0 <= i <= n
        invariant Valid()
        invariant initialized == old(initialized) && storeHistory == old(storeHistory)
        invariant count == old(count) + i
        invariant BatchFrom(cs, i, n, count, envs) == BatchFrom(cs, 0, n, old(count), envs)
        invariant cmds[..old(count)] == old(cmds[..count])
        invariant Holds(cmds[..], old(count), cs, i)
      {
        r := RegisterNext(cs, i, n, from, envs);
        if r != EspOk {
          return;
        }
        i := i + 1;
      }
      r := EspOk;
    }

    /** One round of the cli_register_commands loop: command `i` of the batch, which started at `from` entries. */
    method RegisterNext(cs: seq<Command>, i: nat, n: nat, ghost from: nat, envs: nat -> Foreign) returns (r: int)
      requires Valid()
      requires i < n <= |cs| && forall j :: 0 <= j < n ==> cs[j].Fits()
      requires count == from + i && Holds(cmds[..], from, cs, i)
      modifies this, cmds
      ensures Valid()
      ensures initialized == old(initialized) && storeHistory == old(storeHistory)
      ensures cmds[..from] == old(cmds[..from])
      ensures r == EspOk ==>
        && count == old(count) + 1
        && BatchFrom(cs, i, n, old(count), envs) == BatchFrom(cs, i + 1, n, count, envs)
        && Holds(cmds[..], from, cs, i + 1)
      ensures r != EspOk ==>
        && BatchFrom(cs, i, n, old(count), envs) == BatchOutcome(r, count, i)
        && Holds(cmds[..], from, cs, i)
    {
      ghost var before := count;
      ghost var prev := cmds[..];
      r := RegisterCommand(Some(cs[i]), envs(i));
      PrefixOfPrefix(prev, cmds[..], from, before);
      if r != EspOk {
        HoldsKept(prev, cmds[..], from, cs, i);
        return;
      }
      BatchStep(cs, i, n, before, envs);
      HoldsExtend(prev, cmds[..], from, cs, i);
    }

    /**
     * cli_command_wrapper: the console calls it with the token vector of one
     * line. Returns the status and, when the callback runs, the context it
     * was given.
     */
    method Dispatch(argv: seq<string>, parse: ParseOracle, call: CallbackOracle)
      returns (r: int, invoked: Option<Context>)
      requires Valid()
      requires |argv| >= 1
      // no entry with that name: 1, callback not run
      ensures FirstMatch(cmds[..count], argv[0]).None? ==> r == 1 && invoked.None?
      ensures FirstMatch(cmds[..count], argv[0]).Some? ==>
        var s := cmds[FirstMatch(cmds[..count], argv[0]).value];
        var c := s.cmdDef.value;
        var res := parse(s.argtable, argv);
        // the parser reports errors: 1, callback not run
        && (res.errors != 0 ==> r == 1 && invoked.None?)
        // otherwise the callback of the first matching entry runs once and its result is returned unchanged
        && (res.errors == 0 ==>
              && invoked == Some(Context(|argv|, argv, ExtractedArgs(c, res), c.argCount))
              && r == call(c.callback.value, invoked.value))
    {
      var name := argv[0];
      var found: Option<nat> := None;
      var i := 0;
      while i < count
        invariant 0 <= i <= count
        invariant found.None?
        invariant forall j :: 0 <= j < i ==> !Names(cmds[j], name)
      {
        if cmds[i].cmdDef.value.name.value == name {
          found := Some(i);
          break;
        }
        i := i + 1;
      }
      assert found.Some? ==> found.value < count && Names(cmds[..count][found.value], name);
      assert forall j :: 0 <= j < i ==> !Names(cmds[..count][j], name);
      if found.None? {
        return 1, None;
      }

      var s := cmds[found.value];
      var c := s.cmdDef.value;
      var res := parse(s.argtable, argv);
      if res.errors != 0 {
        return 1, None;
      }

      var args := seq(MaxArgs, _ => NoValue);
      var a := 0;
      while a < c.argCount
        invariant 0 <= a <= c.argCount
        invariant |args| == MaxArgs
        invariant forall j :: 0 <= j < MaxArgs ==>
                    args[j] == (if j < a then Extract(KindOf(c.args[j].typeCode), res.states(j)) else NoValue)
      {
        var node := res.states(a);
        match KindOf(c.args[a].typeCode) {
          case Some(IntArg) =>
            args := args[a := args[a].(count := node.count, intValue := if node.count > 0 then node.ival else 0)];
          case Some(StringArg) =>
            args := args[a := args[a].(count := node.count, strValue := if node.count > 0 then Some(node.sval) else None)];
          case Some(FlagArg) =>
            args := args[a := args[a].(count := node.count, flagValue := node.count > 0)];
          case None =>
        }
        a := a + 1;
      }
      assert args == ExtractedArgs(c, res);
      var ctx := Context(|argv|, argv, args, c.argCount);
      r := call(c.callback.value, ctx);
      invoked := Some(ctx);
    }
  }
}
