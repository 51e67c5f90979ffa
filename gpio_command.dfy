/**
 * The `gpio` example command: it validates a pin number, maps the mode and
 * pull words to driver enumerators, resolves the output level from the
 * saved per-pin state, asks the driver to configure the pin and, on
 * success, records the configuration in a per-pin table.
 *
 * The driver calls (gpio_config, gpio_set_level, gpio_get_level) are
 * foreign: gpio_config's verdict is a parameter, and the level written by
 * gpio_set_level is returned instead of being performed. Printing is not
 * modelled, except for the mode label of the result display: the command
 * shows it as written (ModeLabelAsWritten), a table indexed by enumerator
 * value; ModeLabel is the label selected by mode.
 */
module GpioCommand {
  import opened CliTypes

  /** GPIO_NUM_MAX of the target: pins are 0 .. 48. */
  const GpioNumMax: int := 49

  /** Pins that only draw a warning (flash/PSRAM on the ESP32-S3), in the order the command checks them. */
  const ReservedPins: seq<int> := [19, 20, 22, 23, 24, 25, 26, 27, 28, 29, 30, 31, 32]

  /** gpio_mode_t. */
  datatype GpioMode = Disable | Input | Output | OutputOd | InputOutput | InputOutputOd

  /** gpio_pull_mode_t. */
  datatype PullMode = PullUpOnly | PullDownOnly | PullUpPullDown | Floating

  /** The enumerator values of gpio_mode_t: bit 0 input, bit 1 output, bit 2 open drain. */
  function ModeCode(m: GpioMode): (c: nat)
    ensures c < 8
  {
    match m
    case Disable => 0
    case Input => 1
    case Output => 2
    case OutputOd => 6
    case InputOutput => 3
    case InputOutputOd => 7
  }

  /** The enumerator values of gpio_pull_mode_t. */
  function PullCode(p: PullMode): (c: nat)
    ensures c < 4
  {
    match p
    case PullUpOnly => 0
    case PullDownOnly => 1
    case PullUpPullDown => 2
    case Floating => 3
  }

  /** The modes whose output stage is enabled: the level is driven only for these. */
  predicate OutputCapable(m: GpioMode)
  {
    m == Output || m == OutputOd || m == InputOutput || m == InputOutputOd
  }

  /** gpio_config_state_t. */
  datatype PinState = PinState(pin: int, mode: GpioMode, pull: PullMode, level: int, configured: bool)

  /** A zero-initialised gpio_config_state_t: both enumerators at value 0. */
  const Unconfigured: PinState := PinState(0, Disable, PullUpOnly, 0, false)

  // ---------------------------------------------------------------- words

  /** The mode word of `--mode`; None is the "invalid mode" error. */
  function ParseMode(s: string): (m: Option<GpioMode>)
    ensures m == Some(Input) <==> s == "in" || s == "input"
    ensures m == Some(Output) <==> s == "out" || s == "output"
    ensures m == Some(OutputOd) <==> s == "od" || s == "open-drain"
    ensures m == Some(InputOutput) <==> s == "inout"
    ensures m == Some(InputOutputOd) <==> s == "inout_od"
    // DISABLE cannot be requested
    ensures m != Some(Disable)
  {
    if s == "in" || s == "input" then Some(Input)
    else if s == "out" || s == "output" then Some(Output)
    else if s == "od" || s == "open-drain" then Some(OutputOd)
    else if s == "inout" then Some(InputOutput)
    else if s == "inout_od" then Some(InputOutputOd)
    else None
  }

  /** The short word the usage text gives for each mode that can be requested. */
  function ModeWord(m: GpioMode): (s: string)
    requires m != Disable
    ensures |s| >= 2
  {
    match m
    case Input => "in"
    case Output => "out"
    case OutputOd => "od"
    case InputOutput => "inout"
    case InputOutputOd => "inout_od"
  }

  /** Every mode except DISABLE is reachable, through its short word. */
  lemma ModeWordRoundTrip(m: GpioMode)
    requires m != Disable
    ensures ParseMode(ModeWord(m)) == Some(m)
  {
  }

  /** The pull word of `--pull`; None is the "invalid pull" error. */
  function ParsePull(s: string): (p: Option<PullMode>)
    ensures p == Some(PullUpOnly) <==> s == "up"
    ensures p == Some(PullDownOnly) <==> s == "down"
    ensures p == Some(PullUpPullDown) <==> s == "both"
    ensures p == Some(Floating) <==> s == "none" || s == "float"
  {
    if s == "up" then Some(PullUpOnly)
    else if s == "down" then Some(PullDownOnly)
    else if s == "both" then Some(PullUpPullDown)
    else if s == "none" || s == "float" then Some(Floating)
    else None
  }

  /** The word the usage text gives for each pull. */
  function PullWord(p: PullMode): (s: string)
    ensures |s| >= 2
  {
    match p
    case PullUpOnly => "up"
    case PullDownOnly => "down"
    case PullUpPullDown => "both"
    case Floating => "none"
  }

  /** Every pull is reachable through its word. */
  lemma PullWordRoundTrip(p: PullMode)
    ensures ParsePull(PullWord(p)) == Some(p)
  {
  }

  /** The pull-up and pull-down enables that go into the driver configuration. */
  function PullUpEnabled(p: PullMode): bool { p == PullUpOnly || p == PullUpPullDown }
  function PullDownEnabled(p: PullMode): bool { p == PullDownOnly || p == PullUpPullDown }

  /** The enables select the pull back: no two pulls configure the resistors alike. */
  lemma PullEnablesDetermine(p: PullMode, q: PullMode)
    requires PullUpEnabled(p) == PullUpEnabled(q) && PullDownEnabled(p) == PullDownEnabled(q)
    ensures p == q
  {
  }

  // ------------------------------------------------------------- decision

  /** What the command needs of its context: CLI_MAX_ARGS values; the mode, required, is present. */
  predicate ArgsOk(ctx: Context)
  {
    && |ctx.args| == MaxArgs
    && ctx.args[1].strValue.Some?
    && (ctx.args[2].count > 0 ==> ctx.args[2].strValue.Some?)
  }

  /** The pull word in effect: the given one, else "none". */
  function PullArg(ctx: Context): (s: string)
    requires ArgsOk(ctx)
    ensures ctx.args[2].count <= 0 ==> ParsePull(s) == Some(Floating)
  {
    if ctx.args[2].count > 0 then ctx.args[2].strValue.value else "none"
  }

  /**
   * The level in effect: the given one; when `-l` is absent the level saved
   * for a configured pin; otherwise 0.
   */
  function ResolveLevel(given: ArgValue, saved: PinState): (level: int)
    ensures given.count > 0 ==> level == given.intValue
    ensures given.count <= 0 && saved.configured ==> level == saved.level
    ensures given.count <= 0 && !saved.configured ==> level == 0
  {
    if given.count > 0 then given.intValue
    else if saved.configured then saved.level
    else 0
  }

  /** A configuration the command hands to gpio_config. */
  datatype GpioPlan = GpioPlan(pin: int, mode: GpioMode, pull: PullMode, level: int)

  /**
   * The validation part of cmd_gpio: pin range, mode word, pull word and
   * level, in that order, each failure giving "return 1" (None here).
   */
  function Plan(ctx: Context, saved: seq<PinState>): (p: Option<GpioPlan>)
    requires ArgsOk(ctx) && |saved| == GpioNumMax
    ensures p.Some? ==> 0 <= p.value.pin < GpioNumMax
  {
    var pin := ctx.args[0].intValue;
    if pin < 0 || pin >= GpioNumMax then None
    else
      var mode := ParseMode(ctx.args[1].strValue.value);
      var pull := ParsePull(PullArg(ctx));
      if mode.None? || pull.None? then None
      else
        var level := ResolveLevel(ctx.args[3], saved[pin]);
        if level != 0 && level != 1 then None
        else Some(GpioPlan(pin, mode.value, pull.value, level))
  }

  /**
   * The command goes ahead exactly when the pin is in range, both words are
   * known and the resolved level is 0 or 1; it then carries the given pin,
   * the decoded words and the resolved level. Reserved pins are not refused.
   */
  lemma PlanIff(ctx: Context, saved: seq<PinState>)
    requires ArgsOk(ctx) && |saved| == GpioNumMax
    ensures Plan(ctx, saved).Some? <==>
      var pin := ctx.args[0].intValue;
      && 0 <= pin < GpioNumMax
      && ParseMode(ctx.args[1].strValue.value).Some?
      && ParsePull(PullArg(ctx)).Some?
      && ResolveLevel(ctx.args[3], saved[pin]) in {0, 1}
    ensures Plan(ctx, saved).Some? ==>
      var p := Plan(ctx, saved).value;
      && p.pin == ctx.args[0].intValue
      && Some(p.mode) == ParseMode(ctx.args[1].strValue.value)
      && Some(p.pull) == ParsePull(PullArg(ctx))
      && p.level == ResolveLevel(ctx.args[3], saved[p.pin])
      && p.mode != Disable && (p.level == 0 || p.level == 1)
  {
  }

  /** A pin outside [0, GPIO_NUM_MAX) is refused whatever else the line says. */
  lemma PinOutOfRangeRefused(ctx: Context, saved: seq<PinState>)
    requires ArgsOk(ctx) && |saved| == GpioNumMax
    requires ctx.args[0].intValue < 0 || ctx.args[0].intValue >= GpioNumMax
    ensures Plan(ctx, saved).None?
  {
  }

  /** The plan depends on the saved table only through the pin's own entry, and only when -l is absent. */
  lemma PlanReadsOwnEntry(ctx: Context, saved: seq<PinState>, saved': seq<PinState>)
    requires ArgsOk(ctx) && |saved| == GpioNumMax && |saved'| == GpioNumMax
    requires var pin := ctx.args[0].intValue;
      0 <= pin < GpioNumMax ==> ctx.args[3].count > 0 || saved[pin] == saved'[pin]
    ensures Plan(ctx, saved) == Plan(ctx, saved')
  {
  }

  /** 1ULL << pin: the 64-bit mask with the pin's bit set. */
  function PinMask(pin: nat): (m: nat)
    ensures m > 0
  {
    if pin == 0 then 1 else 2 * PinMask(pin - 1)
  }

  /** gpio_config_t as the command fills it (interrupts always disabled). */
  datatype IoConfig = IoConfig(pinBitMask: nat, mode: GpioMode, pullUpEn: bool, pullDownEn: bool, intrDisabled: bool)

  /** The configuration built from a plan. */
  function IoFor(p: GpioPlan): (io: IoConfig)
    requires 0 <= p.pin
    ensures io.mode == p.mode && io.intrDisabled
    ensures io.pullUpEn == PullUpEnabled(p.pull) && io.pullDownEn == PullDownEnabled(p.pull)
  {
    IoConfig(PinMask(p.pin), p.mode, PullUpEnabled(p.pull), PullDownEnabled(p.pull), true)
  }

  /** Distinct pins select distinct mask bits. */
  lemma {:induction false} PinMaskInjective(a: nat, b: nat)
    requires a < b
    ensures PinMask(a) < PinMask(b)
    decreases b
  {
    if a < b - 1 {
      PinMaskInjective(a, b - 1);
    }
  }

  // ------------------------------------------------------- reserved pins

  /** The loop over reserved_pins: whether a warning is printed. It never refuses the pin. */
  method WarnsReserved(pin: int) returns (warned: bool)
    ensures warned <==> pin in ReservedPins
  {
    warned := false;
    var i := 0;
    while i < |ReservedPins|
      invariant 0 <= i <= |ReservedPins|
      invariant warned <==> pin in ReservedPins[..i]
    {
      if pin == ReservedPins[i] {
        warned := true;
      }
      i := i + 1;
    }
    assert ReservedPins[..i] == ReservedPins;
  }

  // -------------------------------------------------------- configured pins

  /** How many entries of a state table are configured. */
  function NumConfigured(s: seq<PinState>): (n: nat)
    ensures n <= |s|
    ensures n == 0 <==> forall i :: 0 <= i < |s| ==> !s[i].configured
  {
    if s == [] then 0
    else NumConfigured(s[..|s| - 1]) + (if s[|s| - 1].configured then 1 else 0)
  }

  /** Replacing one entry changes the count only by that entry's own flag. */
  lemma {:induction false} NumConfiguredUpdate(s: seq<PinState>, i: nat, x: PinState)
    requires i < |s|
    ensures NumConfigured(s[i := x]) + (if s[i].configured then 1 else 0)
         == NumConfigured(s) + (if x.configured then 1 else 0)
    decreases |s|
  {
    var s' := s[i := x];
    if i < |s| - 1 {
      assert s'[..|s'| - 1] == s[..|s| - 1][i := x];
      NumConfiguredUpdate(s[..|s| - 1], i, x);
    } else {
      assert s'[..|s'| - 1] == s[..|s| - 1];
    }
  }

  // ------------------------------------------------------------- labels

  /** mode_names of the result display, indexed by the mode's enumerator value. */
  const ModeNames: seq<string> := ["DISABLE", "INPUT", "OUTPUT", "OUTPUT_OD", "INPUT_OUTPUT", "", "INPUT_OUTPUT_OD"]

  /** The label as the display looks it up; None is a read past the end of the table. */
  function ModeLabelAsWritten(m: GpioMode): (s: Option<string>)
    ensures s.Some? <==> ModeCode(m) < |ModeNames|
  {
    if ModeCode(m) < |ModeNames| then Some(ModeNames[ModeCode(m)]) else None
  }

  /** The lookup reads past the table for inout_od and mislabels od and inout. */
  lemma ModeLabelAsWrittenWrong()
    ensures ModeLabelAsWritten(InputOutputOd).None?
    ensures ModeLabelAsWritten(OutputOd) == Some("INPUT_OUTPUT_OD")
    ensures ModeLabelAsWritten(InputOutput) == Some("OUTPUT_OD")
  {
  }

  /** The label of each mode, selected by mode rather than by enumerator value. */
  function ModeLabel(m: GpioMode): (s: string)
    ensures |s| > 0
  {
    match m
    case Disable => "DISABLE"
    case Input => "INPUT"
    case Output => "OUTPUT"
    case OutputOd => "OUTPUT_OD"
    case InputOutput => "INPUT_OUTPUT"
    case InputOutputOd => "INPUT_OUTPUT_OD"
  }

  /** The lookup as written gives a mode its own label exactly for DISABLE, INPUT and OUTPUT. */
  lemma ModeLabelAsWrittenAgrees(m: GpioMode)
    ensures ModeLabelAsWritten(m) == Some(ModeLabel(m)) <==> m == Disable || m == Input || m == Output
  {
  }

  /** Every label is one of the names in the display's table, and distinct modes get distinct labels. */
  lemma ModeLabelSound(m: GpioMode, n: GpioMode)
    ensures ModeLabel(m) in ModeNames
    ensures ModeLabel(m) == ModeLabel(n) ==> m == n
  {
  }

  /** pull_names, indexed by the pull's enumerator value: here the values and the table agree. */
  const PullNames: seq<string> := ["PULLUP", "PULLDOWN", "UP+DOWN", "FLOATING"]

  lemma PullLabelsDistinct(p: PullMode, q: PullMode)
    ensures PullNames[PullCode(p)] == PullNames[PullCode(q)] ==> p == q
  {
  }

  // ---------------------------------------------------------------- state

  /** s_gpio_states: the command's per-pin record, updated in place. */
  class GpioTable {
    const states: array<PinState>

    predicate Valid()
      reads this
    {
      states.Length == GpioNumMax
    }

    /** The zero-initialised table. */
    constructor ()
      ensures Valid() && fresh(states)
      ensures forall i :: 0 <= i < GpioNumMax ==> states[i] == Unconfigured
    {
      states := new PinState[GpioNumMax](_ => Unconfigured);
    }

    /**
     * cmd_gpio of the plain example. `configure` is gpio_config's verdict;
     * `driven` is the level handed to gpio_set_level, if it is called,
     * `warned` whether the reserved-pin warning is printed, and `shown` the
     * mode label of the result display as the code looks it up (None also
     * when that lookup reads past the table, see ModeLabelAsWrittenWrong).
     */
    method CmdGpio(ctx: Context, configure: IoConfig -> int)
      returns (r: int, driven: Option<int>, warned: bool, shown: Option<string>)
      requires Valid() && ArgsOk(ctx)
      modifies states
      ensures var p := Plan(ctx, old(states[..]));
        && (p.None? || configure(IoFor(p.value)) != EspOk ==>
              r == 1 && driven.None? && shown.None? && states[..] == old(states[..]))
        && (p.Some? && configure(IoFor(p.value)) == EspOk ==>
              && r == 0
              && driven == (if OutputCapable(p.value.mode) then Some(p.value.level) else None)
              && shown == ModeLabelAsWritten(p.value.mode)
              && states[..] == old(states[..])[p.value.pin :=
                                 PinState(p.value.pin, p.value.mode, p.value.pull, p.value.level, true)])
      ensures warned <==> 0 <= ctx.args[0].intValue < GpioNumMax && ctx.args[0].intValue in ReservedPins
    {
      var pin := ctx.args[0].intValue;
      driven, warned, shown := None, false, None;
      if pin < 0 || pin >= GpioNumMax {
        return 1, None, false, None;
      }
      warned := WarnsReserved(pin);

      var mode := ParseMode(ctx.args[1].strValue.value);
      if mode.None? {
        return 1, None, warned, None;
      }
      var pull := ParsePull(PullArg(ctx));
      if pull.None? {
        return 1, None, warned, None;
      }
      var level := ResolveLevel(ctx.args[3], states[pin]);
      if level != 0 && level != 1 {
        return 1, None, warned, None;
      }

      var plan := GpioPlan(pin, mode.value, pull.value, level);
      assert plan == Plan(ctx, states[..]).value;
      if configure(IoFor(plan)) != EspOk {
        return 1, None, warned, None;
      }
      if OutputCapable(plan.mode) {
        driven := Some(level);
      }
      states[pin] := PinState(pin, plan.mode, plan.pull, level, true);
      shown := ModeLabelAsWritten(plan.mode);
      r := 0;
    }

    /** The loop of the -i branch that counts configured pins. */
    method ConfiguredCount() returns (n: nat)
      requires Valid()
      ensures n == NumConfigured(states[..])
    {
      n := 0;
      var i := 0;
      while i < GpioNumMax
        invariant 0 <= i <= GpioNumMax
        invariant n == NumConfigured(states[..i])
      {
        assert states[..i + 1][..i] == states[..i];
        if states[i].configured {
          n := n + 1;
        }
        i := i + 1;
      }
      assert states[..i] == states[..];
    }

    /**
     * cmd_gpio of the console example: the same command, whose -i branch,
     * after a successful configuration, also reports how many pins are
     * configured (`info`). The level read back by gpio_get_level is not modelled.
     */
    method CmdGpioWithInfo(ctx: Context, configure: IoConfig -> int)
      returns (r: int, driven: Option<int>, warned: bool, shown: Option<string>, info: Option<nat>)
      requires Valid() && ArgsOk(ctx)
      modifies states
      ensures var p := Plan(ctx, old(states[..]));
        && (p.None? || configure(IoFor(p.value)) != EspOk ==>
              r == 1 && driven.None? && shown.None? && info.None? && states[..] == old(states[..]))
        && (p.Some? && configure(IoFor(p.value)) == EspOk ==>
              && r == 0
              && driven == (if OutputCapable(p.value.mode) then Some(p.value.level) else None)
              && shown == ModeLabelAsWritten(p.value.mode)
              && states[..] == old(states[..])[p.value.pin :=
                                 PinState(p.value.pin, p.value.mode, p.value.pull, p.value.level, true)]
              && info == (if ctx.args[4].flagValue then Some(NumConfigured(states[..])) else None))
      ensures warned <==> 0 <= ctx.args[0].intValue < GpioNumMax && ctx.args[0].intValue in ReservedPins
    {
      r, driven, warned, shown := CmdGpio(ctx, configure);
      info := None;
      if r == 0 && ctx.args[4].flagValue {
        var n := ConfiguredCount();
        info := Some(n);
      }
    }
  }
}
