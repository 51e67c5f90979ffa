/**
 * Types and constants of the CLI layer's public header: the argument kinds,
 * the argument and command descriptors, the parsed values handed to a
 * callback, and the capacity limits. Also the few `esp_err_t` codes the
 * layer returns.
 */
module CliTypes {

  datatype Option<+T> = None | Some(value: T)

  /** Largest number of arguments a command may declare (CLI_MAX_ARGS). */
  const MaxArgs: nat := 8

  /** Capacity of the command registry (CLI_MAX_COMMANDS). */
  const MaxCommands: nat := 32

  // esp_err_t codes used by the layer, with their ESP-IDF values.
  const EspOk: int := 0
  const EspErrNoMem: int := 0x101
  const EspErrInvalidArg: int := 0x102
  const EspErrInvalidState: int := 0x103

  /** The argument kinds of cli_arg_type_t, in declaration order. */
  datatype ArgKind = IntArg | StringArg | FlagArg

  /** The enumerator value C gives each kind. */
  function KindCode(k: ArgKind): (c: int)
    ensures 0 <= c < 3
  {
    match k
    case IntArg => 0
    case StringArg => 1
    case FlagArg => 2
  }

  /**
   * The kind a raw `type` field denotes. A descriptor is plain data, so its
   * field can hold any integer; only the three enumerator values are kinds.
   */
  function KindOf(code: int): (r: Option<ArgKind>)
    ensures r.Some? <==> 0 <= code < 3
    ensures r.Some? ==> KindCode(r.value) == code
  {
    if code == 0 then Some(IntArg)
    else if code == 1 then Some(StringArg)
    else if code == 2 then Some(FlagArg)
    else None
  }

  /** Every kind is recovered from its code: there are exactly three kinds, with distinct codes. */
  lemma KindRoundTrip(k: ArgKind)
    ensures KindOf(KindCode(k)) == Some(k)
  {
  }

  /**
   * cli_arg_t. Strings that C allows to be NULL are options; `placeholder` is the
   * C field `datatype` (the placeholder shown in help).
   */
  datatype ArgDescriptor = ArgDescriptor(
    shortOpt: Option<string>,
    longOpt: Option<string>,
    placeholder: Option<string>,
    description: Option<string>,
    typeCode: int,
    required: bool)

  /** Identity of a user callback (a function pointer in C). */
  type CallbackId = nat

  /**
   * cli_command_t. `args` is the fixed array of CLI_MAX_ARGS descriptors and
   * `argCount` says how many of them are in use.
   */
  datatype Command = Command(
    name: Option<string>,
    description: Option<string>,
    hint: Option<string>,
    callback: Option<CallbackId>,
    args: seq<ArgDescriptor>,
    argCount: nat)
  {
    /** The shape C guarantees by its types, plus `arg_count <= CLI_MAX_ARGS`, which no code checks. */
    predicate Fits() {
      |args| == MaxArgs && argCount <= MaxArgs
    }
  }

  /**
   * cli_arg_value_t: one field per kind plus the occurrence count
   * (0 means the argument was not given). NULL strings are None.
   */
  datatype ArgValue = ArgValue(intValue: int, strValue: Option<string>, flagValue: bool, count: int)

  /** A zero-initialised cli_arg_value_t. */
  const NoValue := ArgValue(0, None, false, 0)

  /** cli_context_t: the original argc/argv, CLI_MAX_ARGS values, and the declared argument count. */
  datatype Context = Context(argc: int, argv: seq<string>, args: seq<ArgValue>, argCount: nat)
}
