/**
 * The `echo` example command: prints its message a number of times, in
 * upper case when asked. The printed lines are returned, without their
 * newlines, instead of being written to the console.
 */
module EchoCommand {
  import opened CliTypes

  predicate IsLower(c: char) { 'a' <= c <= 'z' }

  /** The per-character conversion: a..z move down by 32 to A..Z; every other character is printed as it is. */
  function UpperChar(c: char): (u: char)
    ensures IsLower(c) ==> 'A' <= u <= 'Z' && u as int == c as int - 32
    ensures !IsLower(c) ==> u == c
    ensures !IsLower(u)
  {
    if IsLower(c) then (c as int - 32) as char else c
  }

  /** The message as the upper-case loop prints it. */
  function Upper(s: string): (u: string)
    ensures |u| == |s|
    ensures forall i :: 0 <= i < |s| ==> u[i] == UpperChar(s[i])
  {
    if s == [] then [] else Upper(s[..|s| - 1]) + [UpperChar(s[|s| - 1])]
  }

  /** Converting twice is converting once, and the result holds no lower-case letter. */
  lemma UpperIdempotent(s: string)
    ensures Upper(Upper(s)) == Upper(s)
    ensures forall i :: 0 <= i < |s| ==> !IsLower(Upper(s)[i])
  {
  }

  /** A message without lower-case letters is printed unchanged in upper-case mode. */
  lemma UpperFixes(s: string)
    requires forall i :: 0 <= i < |s| ==> !IsLower(s[i])
    ensures Upper(s) == s
  {
  }

  /** What the command needs of its context: CLI_MAX_ARGS values, and the message, required, is present. */
  predicate ArgsOk(ctx: Context)
  {
    |ctx.args| == MaxArgs && ctx.args[0].strValue.Some?
  }

  /** The repetition count: the given `-n`, else 1. */
  function Repeat(ctx: Context): (n: int)
    requires ArgsOk(ctx)
    ensures ctx.args[1].count > 0 ==> n == ctx.args[1].intValue
    ensures ctx.args[1].count <= 0 ==> n == 1
  {
    if ctx.args[1].count > 0 then ctx.args[1].intValue else 1
  }

  /** The line printed each time round. */
  function EchoLine(ctx: Context): (line: string)
    requires ArgsOk(ctx)
    ensures |line| == |ctx.args[0].strValue.value|
    ensures !ctx.args[2].flagValue ==> line == ctx.args[0].strValue.value
  {
    var msg := ctx.args[0].strValue.value;
    if ctx.args[2].flagValue then Upper(msg) else msg
  }

  /**
   * cmd_echo. Always returns 0; prints the line `Repeat(ctx)` times, so
   * nothing for a count of zero or less.
   */
  method CmdEcho(ctx: Context) returns (r: int, lines: seq<string>)
    requires ArgsOk(ctx)
    ensures r == 0
    ensures |lines| == if Repeat(ctx) > 0 then Repeat(ctx) else 0
    ensures forall i :: 0 <= i < |lines| ==> lines[i] == EchoLine(ctx)
  {
    var msg := ctx.args[0].strValue.value;
    var repeat := if ctx.args[1].count > 0 then ctx.args[1].intValue else 1;
    var uppercase := ctx.args[2].flagValue;
    lines := [];
    var i := 0;
    while i < repeat
      invariant 0 <= i && (if repeat > 0 then i <= repeat else i == 0)
      invariant |lines| == i
      invariant forall j :: 0 <= j < i ==> lines[j] == EchoLine(ctx)
    {
      if uppercase {
        var line := "";
        var p := 0;
        while p < |msg|
          invariant 0 <= p <= |msg|
          invariant line == Upper(msg[..p])
        {
          var c := msg[p];
          line := line + [if 'a' <= c <= 'z' then (c as int - 32) as char else c];
          assert msg[..p + 1][..p] == msg[..p];
          p := p + 1;
        }
        assert msg[..p] == msg;
        lines := lines + [line];
      } else {
        lines := lines + [msg];
      }
      i := i + 1;
    }
    r := 0;
  }
}
