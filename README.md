# CLI layer over esp_console and argtable3 — a Dafny model

The component lets an ESP32 application declare a console command as plain
data: a name, a callback and up to `CLI_MAX_ARGS` (8) argument descriptors,
each of kind INT, STRING or FLAG and either required or optional. At
registration the layer turns the descriptors into an argtable3 parser
table, keeps the command in a fixed registry of `CLI_MAX_COMMANDS` (32)
slots and hands the command to esp_console with a shared wrapper as its
handler. When a line is typed, the wrapper finds the registry entry by
name and runs the parser over the tokens. If parsing succeeds, it copies
each argument's first value and occurrence count into a context and calls
the user callback. Around this sit `cli_init`, `cli_run` and
`cli_deinit`, and two example commands built on the layer: `gpio`, which
validates and records a pin configuration, and `echo`.

The model has four modules:

- `CliTypes` (`cli_types.dfy`): the header's constants, argument kinds,
  descriptors and context.
- `CliApi` (`cli_api.dfy`): the registry as a `Registry` object.
  - Its slot array is updated in place.
  - Its ghost set `live` holds the parser nodes that have been allocated
    and not freed, so a leak shows up as a node that stays live while no
    published entry refers to it.
  - Each operation is proved against a specification function:
    `RegisterOutcome` for one registration, `BatchFrom`/`Batch` for a
    list, `FirstMatch` for the name lookup and `ExtractedArgs` for the
    context.
- `GpioCommand` (`gpio_command.dfy`): `cmd_gpio` of both example programs.
  - The validation is a pure decision, `Plan`.
  - The per-pin table `s_gpio_states` is a `GpioTable` object over an
    array.
  - The reserved-pin check and the count of configured pins are loops.
- `EchoCommand` (`echo_command.dfy`): `cmd_echo`, with its repetition
  default and its a–z upper-casing.

The foreign libraries appear as parameters:

- Node allocation, `arg_end` and `esp_console_cmd_register` results form
  `Foreign`, one per registration.
- `arg_parse` is a `ParseOracle` of the table and the tokens.
- The user callbacks are a `CallbackOracle`.
- NVS initialisation and the filesystem mount are result codes passed to
  `Init`.
- `gpio_config` is a function from the configuration to its result.

Behaviour of the code that the model keeps as written:

- **Zero-argument commands.** A command with no arguments is published
  (the count grows) before esp_console is asked, so it stays in the
  registry even when esp_console refuses it.
  - Its slot keeps whatever parser table the slot held before (`Slot(cmd,
    old table, 0)`), and the wrapper passes that table to `arg_parse`.
- **Invalid kind.** A descriptor whose `type` is not one of the three
  kinds stops registration with INVALID_ARG without freeing the nodes
  already built for earlier arguments. `BadKindLeaks` shows they stay in
  `live` while the slot is not published.
- **Failed allocation.** An allocation failure frees the nodes built so
  far and returns NO_MEM.
- **Console refusal.** When esp_console refuses a command with arguments,
  the whole table is freed and esp_console's own code is returned. That
  code is not one of the three results the header documents.
  - In every failing path with arguments, the slot at the old count has
    already been overwritten: its descriptor, and the table entries built
    before the failure (none when the first argument's kind is invalid).
    The count does not grow. A failed registration does not leave the registry untouched.
- **`arg_end`.** Its result is not checked. A NULL end node is stored and
  the registration still succeeds (`TableAfter`, case `Built`).
- **`cli_deinit`.** It forgets every entry by resetting the count, and
  frees no table (`live` is unchanged).
- **Duplicate names.** They are accepted, and the wrapper resolves a name
  to its first entry (`FirstMatch`, `FirstMatchAppend`).
- **Reserved pins.** In `gpio` they only produce a warning. The pin table
  is written only after `gpio_config` succeeds.

## Model

| member | source | states |
|---|---|---|
| `CliTypes.KindOf` | components/cli-api/include/cli-api.h:36-40 | exactly the enumerator values 0, 1, 2 denote a kind, and each kind's code decodes to that kind |
| `CliTypes.KindRoundTrip` | components/cli-api/include/cli-api.h:36-40 | every kind is recovered from its enumerator value |
| `CliApi.NewNode` | components/cli-api/cli-api.c:557-595 | a constructor either returns a new node of the requested shape or NULL |
| `CliApi.ShapeFor` | components/cli-api/cli-api.c:557-589 | the node for an argument has the argument's kind, 1..1 occurrences when required and 0..1 otherwise, its short and long option and glossary, and no placeholder for a flag |
| `CliApi.BuildFrom` | components/cli-api/cli-api.c:551-605 | the loop completes iff every kind is valid and every allocation succeeds; otherwise it stops at the first invalid kind or failed allocation, all earlier steps having succeeded |
| `CliApi.RegisterOutcome` | components/cli-api/cli-api.c:515-631 | NULL descriptor, name or callback gives INVALID_ARG; a full registry gives NO_MEM; a zero-argument command is always published and returns the console's result; with arguments the registry grows iff the result is ESP_OK; the result is ESP_OK, INVALID_ARG, NO_MEM or the console's code |
| `CliApi.RegisterOkIff` | components/cli-api/cli-api.c:515-631 | a command with arguments registers successfully iff it is admitted, all its kinds are valid, all its nodes are allocated and the console accepts it |
| `CliApi.BatchFrom` | components/cli-api/cli-api.c:662-671 | the batch loop succeeds iff it gets through every command, adding one entry each; otherwise it returns the first failing command's code, with the count that command leaves |
| `CliApi.Batch` | components/cli-api/cli-api.c:656-674 | a NULL list or an empty count gives INVALID_ARG without change; ESP_OK iff every command was registered, then the count grew by exactly the number of commands |
| `CliApi.BatchStep` | components/cli-api/cli-api.c:664-671 | a command that registers moves the batch on to the next command with one more entry |
| `CliApi.FirstMatchFrom` | components/cli-api/cli-api.c:445-452 | the scan from an index finds the first entry with the name, or reports that none has it |
| `CliApi.FirstMatch` | components/cli-api/cli-api.c:443-458 | the entry a name resolves to has the name and no earlier entry does; no result means no entry has the name |
| `CliApi.FirstMatchAppend` | components/cli-api/cli-api.c:445-452 | registering more entries never changes what an already registered name resolves to; an unresolved name resolves to its first new entry |
| `CliApi.Extract` | components/cli-api/cli-api.c:485-508 | an argument's count is copied; only the field of its own kind is set; a given argument exposes its first value; an absent one reads as 0, NULL, false; a kind the switch does not handle leaves the zero value |
| `CliApi.ExtractedArgs` | components/cli-api/cli-api.c:474-509 | the context holds CLI_MAX_ARGS values, the zero value beyond the declared arguments |
| `CliApi.BuiltPrefixExtend` | components/cli-api/cli-api.c:555-605 | one more built node extends the built prefix of the table |
| `CliApi.BadKindLeaks` | components/cli-api/cli-api.c:591-593 | an invalid kind after a built node leaves that node allocated and retained |
| `CliApi.FailuresRetainNothing` | components/cli-api/cli-api.c:597-624 | an allocation failure and a console refusal free every node they built |
| `CliApi.WriteSlotKeeps` | components/cli-api/cli-api.c:548-550 | writing the unpublished slot at the count, while allocating nodes and freeing nodes no entry refers to, keeps the registry invariant |
| `CliApi.PublishKeeps` | components/cli-api/cli-api.c:627 | publishing a slot whose table is allocated keeps the registry invariant |
| `CliApi.PrefixOfPrefix` | components/cli-api/cli-api.c:548 | entries below a position kept by a call are kept below any lower position |
| `CliApi.HoldsKept` | components/cli-api/cli-api.c:662-671 | the batch's registered commands survive a call that keeps the entries below the count |
| `CliApi.HoldsExtend` | components/cli-api/cli-api.c:664-671 | a registered command extends the batch's registered prefix by one |
| `CliApi.Registry.constructor` | components/cli-api/cli-api.c:74-77 | the registry starts empty, uninitialised, with zeroed slots and no live nodes |
| `CliApi.Registry.Init` | components/cli-api/cli-api.c:268-347 | a second call returns ESP_OK without change; an NVS failure is returned without initialising; otherwise initialised, with history stored iff the configuration (or the default for NULL) asks for it and the mount succeeded; the registry is untouched |
| `CliApi.Registry.Run` | components/cli-api/cli-api.c:349-355 | INVALID_STATE before initialisation, ESP_OK otherwise (the loop is not modelled) |
| `CliApi.Registry.Deinit` | components/cli-api/cli-api.c:410-427 | when initialised: count 0, flags cleared, no node freed; otherwise nothing changes |
| `CliApi.Registry.RegisterSimpleCommand` | components/cli-api/cli-api.c:633-654 | NULL name or callback gives INVALID_ARG; otherwise the console's result, with the registry untouched |
| `CliApi.Registry.RegisterCommand` | components/cli-api/cli-api.c:515-631 | result and growth are `RegisterOutcome`'s; the invariant holds; only the slot at the old count is written; a rejected call changes nothing; a zero-argument slot keeps its old table; with arguments the table is built up to where the loop stopped and exactly the retained nodes stay live |
| `CliApi.Registry.RegisterWithArgs` | components/cli-api/cli-api.c:547-631 | for a command with arguments: the slot records the descriptor and the table `TableAfter` describes; new nodes are fresh; live grows by `Retained` |
| `CliApi.Registry.CompileTable` | components/cli-api/cli-api.c:551-608 | the table holds the argument nodes up to the stop, NULL at a failed allocation, the end node (possibly NULL) after a full build, the old entries beyond; nodes freed on NO_MEM, kept otherwise |
| `CliApi.Registry.BuildNodes` | components/cli-api/cli-api.c:551-605 | the loop's stop equals `BuildFrom`; nodes before it are fresh, of the right shape and live |
| `CliApi.Registry.FreeNodes` | components/cli-api/cli-api.c:597-604 | the rollback loop frees exactly the nodes at indices below the failing one |
| `CliApi.Registry.RegisterCommands` | components/cli-api/cli-api.c:656-674 | result and count are `Batch`'s; earlier entries are kept; the commands before the failing one are registered, in order |
| `CliApi.Registry.RegisterNext` | components/cli-api/cli-api.c:664-671 | one round of the batch loop advances `BatchFrom` or ends it with the command's code |
| `CliApi.Registry.Dispatch` | components/cli-api/cli-api.c:441-513 | an unknown name or a parse error returns 1 without running a callback; otherwise the first matching entry's callback runs once with (argc, argv, extracted values, declared count) and its result is returned |
| `GpioCommand.ParseMode` | main/main.c:231-256 | "in"/"input", "out"/"output", "od"/"open-drain", "inout", "inout_od" map to their modes and nothing else is accepted; DISABLE is never produced |
| `GpioCommand.ModeWordRoundTrip` | main/main.c:231-256 | every mode but DISABLE is reached through its short word |
| `GpioCommand.ParsePull` | main/main.c:259-287 | "up", "down", "both", "none"/"float" map to their pulls and nothing else is accepted |
| `GpioCommand.PullWordRoundTrip` | main/main.c:259-287 | every pull is reached through its word |
| `GpioCommand.PullEnablesDetermine` | main/main.c:260-282 | the pull-up and pull-down enables identify the pull |
| `GpioCommand.PullArg` | main/main.c:207 | an absent `--pull` reads as "none", i.e. floating |
| `GpioCommand.ResolveLevel` | main/main.c:292-304 | the level is the given value, else the saved level of a configured pin, else 0 |
| `GpioCommand.Plan` | main/main.c:202-311 | a configuration that goes ahead names a pin in [0, GPIO_NUM_MAX) |
| `GpioCommand.PlanIff` | main/main.c:213-311 | the command goes ahead iff the pin is in range, both words are known and the level is 0 or 1, with exactly those values; reserved pins are not refused |
| `GpioCommand.PinOutOfRangeRefused` | main/console_example_main.c:218-221 | a pin outside [0, GPIO_NUM_MAX) is refused whatever the other arguments |
| `GpioCommand.PlanReadsOwnEntry` | main/console_example_main.c:273-281 | the decision reads the saved table only at the pin's own entry, and only when `-l` is absent |
| `GpioCommand.IoFor` | main/main.c:318-324 | the configuration carries the decided mode, the pull's enables and disabled interrupts |
| `GpioCommand.PinMaskInjective` | main/main.c:319 | distinct pins give distinct masks |
| `GpioCommand.WarnsReserved` | main/main.c:221-228 | the loop warns iff the pin is one of 19, 20, 22–32 |
| `GpioCommand.NumConfigured` | main/console_example_main.c:346-349 | the count is at most the table size, and 0 iff no entry is configured |
| `GpioCommand.NumConfiguredUpdate` | main/console_example_main.c:315-320 | recording a pin changes the count by that entry's own flag only |
| `GpioCommand.ModeLabelAsWritten` | main/main.c:349-352 | the display indexes `mode_names` by the mode's enumerator value; the lookup is in bounds iff the value is below 7 |
| `GpioCommand.ModeLabelAsWrittenWrong` | main/main.c:349-352 | inout_od reads past the table; od is shown as INPUT_OUTPUT_OD and inout as OUTPUT_OD |
| `GpioCommand.ModeLabel` | main/main.c:349-352 | every mode has a non-empty label |
| `GpioCommand.ModeLabelAsWrittenAgrees` | main/main.c:349-352 | the lookup as written shows a mode under its own label exactly for DISABLE, INPUT and OUTPUT |
| `GpioCommand.ModeLabelSound` | main/main.c:349-352 | the corrected label is a name from the display's table, and distinct modes get distinct labels |
| `GpioCommand.PullLabelsDistinct` | main/main.c:350-353 | `pull_names` indexed by the pull's value gives distinct pulls distinct labels |
| `GpioCommand.GpioTable.constructor` | main/main.c:200 | every pin starts unconfigured (zeroed) |
| `GpioCommand.GpioTable.CmdGpio` | main/main.c:202-373 | a refused plan or a failed `gpio_config` returns 1 and leaves the table as it was; otherwise returns 0, drives the level only for output-capable modes, shows the mode label as `mode_names[gpio_mode]` looks it up (none where that reads past the table), and sets the pin's entry to {pin, mode, pull, level, configured} with every other entry unchanged; warns iff the pin is in range and reserved |
| `GpioCommand.GpioTable.ConfiguredCount` | main/console_example_main.c:346-349 | the loop counts the configured entries of the table |
| `GpioCommand.GpioTable.CmdGpioWithInfo` | main/console_example_main.c:206-368 | as `CmdGpio`; after a successful configuration with `-i`, also reports the number of configured pins in the updated table |
| `EchoCommand.UpperChar` | main/main.c:67 | a–z move down by 32 to A–Z; every other character is unchanged; the result is never a–z |
| `EchoCommand.Upper` | main/main.c:65-69 | the upper-case line has the message's length and converts each character independently |
| `EchoCommand.UpperIdempotent` | main/console_example_main.c:71-73 | converting twice equals converting once, and no lower-case letter remains |
| `EchoCommand.UpperFixes` | main/main.c:65-68 | a message with no a–z prints unchanged in upper-case mode |
| `EchoCommand.Repeat` | main/main.c:55 | the repetition count is the given `-n`, else 1 |
| `EchoCommand.EchoLine` | main/console_example_main.c:68-77 | the line has the message's length and is the message itself without `-u` |
| `EchoCommand.CmdEcho` | main/console_example_main.c:57-81 | returns 0 and prints the line max(0, repeat) times |

## Findings

| source | as written | input that shows it | evidently intended | confidence | as-written member | corrected member |
|---|---|---|---|---|---|---|
| main/main.c:349-352 | `mode_names[gpio_mode]` (likewise main/console_example_main.c:323-326) indexes a 7-entry table by the gpio_mode_t value, which is a bit set (OUTPUT_OD = 6, INPUT_OUTPUT = 3, INPUT_OUTPUT_OD = 7) | `gpio -p 2 -m inout_od` reads `mode_names[7]`, past the table; `-m od` shows INPUT_OUTPUT_OD and `-m inout` shows OUTPUT_OD | each mode is shown under its own name | medium: not executed; the enumerator values are ESP-IDF's gpio_mode_t, whose header is not part of this model | `GpioCommand.ModeLabelAsWrittenWrong` | `GpioCommand.ModeLabelSound` |

## Left out

- Device bring-up is not modelled: NVS, the FATFS mount, the UART/USB
  console, linenoise, history and the banner. `Init` takes the results of
  NVS initialisation and the mount as parameters.
- The help command, registered when `register_help` is set, is left out.
  It belongs to the foreign console library.
- The read–execute–print loop of `cli_run` is not modelled, nor the
  `app_main` functions that set up and register the commands. Both are
  blocking terminal I/O.
- argtable3 is foreign and only its effects are kept:
  - construction, as a new node or NULL;
  - `arg_parse`, as an oracle returning an error count and per-node state;
  - `arg_freetable`, as removal from `live`.
  - `arg_print_errors` is not modelled. On a parse error it is handed
    `argtable[arg_count]`, which may be NULL because `arg_end` is not
    checked, or stale for a zero-argument entry.
- The esp_console command table is left out. Only its registration result
  is kept.
- `cli_get_prompt` and prompt formatting are left out. They are
  presentation, depend on build configuration, and use
  `CLI_PROMPT_MAX_LEN`, which is not in the header.
- `cmd_calc` is left out. It is printed C `int` arithmetic.
- The print-only commands of the basic example are left out.
- Printing, box drawing and logging are left out. The exception is the
  mode label of the result display: `CmdGpio` returns it (`shown`) as the
  code looks it up, and the lookup appears under Findings.
- `gpio_get_level` in the `-i` branch is left out. The RTC and ADC
  capability lines are only printed text. `gpio_set_level` is returned
  (`driven`) rather than performed.
- The `save_nvs` flag only logs, so it is left out.
- `CliApi.Registry.RegisterCommand`: the descriptor is stored by value. C
  stores a pointer to the caller's structure, so later changes through
  that pointer are not modelled.
- `CliApi.Registry.RegisterWithArgs`: the table is built in a local
  sequence and written to the slot afterwards, where C fills
  `reg_cmd->argtable` in place. Between the steps nothing else reads the
  slot, so only the order of writes differs.
- `CliApi.Registry.RegisterCommand` requires `arg_count <= CLI_MAX_ARGS`.
  C assumes this without checking. A larger count would overrun the
  descriptor array and the table.
- `GpioCommand.GpioTable.CmdGpio` requires a non-NULL mode string, and a
  non-NULL pull string when `--pull` is given. The parser guarantees this
  for required and given STRING arguments, and C dereferences both without
  checking.
- `EchoCommand.CmdEcho` requires a non-NULL message (a required STRING
  argument). The model admits a message containing NUL, which a C string
  cannot hold: C stops at the first NUL, the model echoes the whole
  sequence. For every message a C string can hold the two agree.
- The context's `argc` and each value's `count` are unbounded integers.
  The C `int` and `uint8_t` widths never matter at these sizes: at most 8
  arguments and 32 commands.
- `GPIO_NUM_MAX` is taken as 49, the ESP32-S3 value that the usage text
  "<0-48>" implies. The driver header that defines it is not part of this
  model.
