/**
 What the launcher command makes of its arguments (agent-team-transport-cli.ts, with
 ClaudeCodeAdapter.ts and CodexAdapter.ts): flags, the spawn arguments and environment built from
 them, and the script it prints. A process is given its arguments and environment as bytes.
 */
module SpawnConfig {
  import opened Prelude
  import opened Utf8
  import opened BashQuote

  type Flags = map<Text, Text>

  const ARRAY_NAME := Ascii("FLYWHEEL_AGENT_TEAM_ARGS")
  const TRUE := Ascii("true")
  const AT := Ascii("@")

  predicate Dashed(t: Text) {
    |t| >= 2 && t[0] == 0x2D && t[1] == 0x2D
  }

  /** The flags from position `i` on, added to those before. */
  function FlagsFrom(argv: seq<Text>, i: nat, flags: Flags): Flags
    decreases |argv| - i
  {
    if i >= |argv| then flags
    else if !Dashed(argv[i]) then FlagsFrom(argv, i + 1, flags)
    else if i + 1 < |argv| && !Dashed(argv[i + 1]) then FlagsFrom(argv, i + 2, flags[argv[i][2..] := argv[i + 1]])
    else FlagsFrom(argv, i + 1, flags[argv[i][2..] := TRUE])
  }

  /** parseArgs */
  method ParseArgs(argv: seq<Text>) returns (command: Text, flags: Flags)
    ensures command == if argv == [] then [] else argv[0]
    ensures flags == FlagsFrom(argv, 1, map[])
  {
    command := if argv == [] then [] else argv[0];
    flags := map[];
    var i := 1;
    while i < |argv|
      invariant 1 <= i
      invariant FlagsFrom(argv, i, flags) == FlagsFrom(argv, 1, map[])
      decreases |argv| - i
    {
      var arg := argv[i];
      if Dashed(arg) {
        if i + 1 < |argv| && !Dashed(argv[i + 1]) {
          flags := flags[arg[2..] := argv[i + 1]];
          i := i + 1;
        } else {
          flags := flags[arg[2..] := TRUE];
        }
      }
      i := i + 1;
    }
  }

  predicate Sound(flags: Flags, argv: seq<Text>) {
    forall k :: k in flags ==> flags[k] == TRUE || flags[k] in argv
  }

  /** Every flag's value was given, or is the one of a flag without a value. */
  lemma {:induction false} FlagsAreGiven(argv: seq<Text>, i: nat, flags: Flags)
    requires Sound(flags, argv)
    ensures Sound(FlagsFrom(argv, i, flags), argv)
    decreases |argv| - i
  {
    if i >= |argv| {
    } else if !Dashed(argv[i]) {
      FlagsAreGiven(argv, i + 1, flags);
    } else if i + 1 < |argv| && !Dashed(argv[i + 1]) {
      FlagsAreGiven(argv, i + 2, flags[argv[i][2..] := argv[i + 1]]);
    } else {
      FlagsAreGiven(argv, i + 1, flags[argv[i][2..] := TRUE]);
    }
  }

  // ---------------------------------------------------------------- the spawn configuration

  function Flag(flags: Flags, name: string): Option<Text> {
    if Ascii(name) in flags then Some(flags[Ascii(name)]) else None
  }

  function Or(value: Option<Text>, otherwise: Text): Text {
    if value.Some? then value.value else otherwise
  }

  function Optional(option: string, value: Option<Text>): seq<Text> {
    if value.Some? then [Ascii(option), value.value] else []
  }

  /** The identity arguments of an agent of a team. */
  function Identity(name: Text, team: Text): seq<Text> {
    [Ascii("--agent-id"), name + AT + team, Ascii("--agent-name"), name, Ascii("--team-name"), team]
  }

  /** lead-args; None when a required flag is missing. */
  function LeadArgs(flags: Flags): Option<seq<Text>> {
    var lead := Flag(flags, "lead-id");
    if lead.None? then None
    else Some(Identity(lead.value, Or(Flag(flags, "team"), lead.value))
              + Optional("--parent-session-id", Flag(flags, "parent-session")))
  }

  /** runner-args */
  function RunnerArgs(flags: Flags): Option<seq<Text>> {
    var lead, runner := Flag(flags, "lead-id"), Flag(flags, "runner");
    if lead.None? || runner.None? then None
    else Some(Identity(runner.value, Or(Flag(flags, "team"), lead.value))
              + Optional("--parent-session-id", Flag(flags, "parent-session"))
              + Optional("--agent-color", Flag(flags, "color"))
              + Optional("--session-id", Flag(flags, "session-id"))
              + Optional("--permission-mode", Flag(flags, "permission-mode")))
  }

  ghost predicate AllReceivable(ts: seq<Text>) {
    forall i :: 0 <= i < |ts| ==> Receivable(ts[i])
  }

  /** A process cannot be given anything else. */
  ghost predicate Given(argv: seq<Text>) {
    AllReceivable(argv)
  }

  lemma FlagIsReceivable(argv: seq<Text>, name: string)
    requires Given(argv)
    ensures Flag(FlagsFrom(argv, 1, map[]), name).Some? ==> Receivable(Flag(FlagsFrom(argv, 1, map[]), name).value)
  {
    FlagsAreGiven(argv, 1, map[]);
    AsciiIsReceivable("true");
  }

  lemma IdentityIsReceivable(name: Text, team: Text)
    requires Receivable(name) && Receivable(team)
    ensures AllReceivable(Identity(name, team))
  {
    AsciiIsReceivable("--agent-id");
    AsciiIsReceivable("--agent-name");
    AsciiIsReceivable("--team-name");
    AsciiIsReceivable("@");
    ReceivableConcat(name, AT);
    ReceivableConcat(name + AT, team);
  }

  lemma OptionalIsReceivable(option: string, value: Option<Text>)
    requires value.Some? ==> Receivable(value.value)
    ensures AllReceivable(Optional(option, value))
  {
    AsciiIsReceivable(option);
  }

  lemma TogetherReceivable(a: seq<Text>, b: seq<Text>)
    requires AllReceivable(a) && AllReceivable(b)
    ensures AllReceivable(a + b)
  {
  }

  /** One more option, with the value of a flag. */
  lemma OneMoreOption(argv: seq<Text>, args: seq<Text>, option: string, name: string)
    requires Given(argv) && AllReceivable(args)
    ensures AllReceivable(args + Optional(option, Flag(FlagsFrom(argv, 1, map[]), name)))
  {
    FlagIsReceivable(argv, name);
    OptionalIsReceivable(option, Flag(FlagsFrom(argv, 1, map[]), name));
    TogetherReceivable(args, Optional(option, Flag(FlagsFrom(argv, 1, map[]), name)));
  }

  lemma LeadArgsAreReceivable(argv: seq<Text>)
    requires Given(argv)
    ensures var args := LeadArgs(FlagsFrom(argv, 1, map[])); args.Some? ==> AllReceivable(args.value)
  {
    var flags := FlagsFrom(argv, 1, map[]);
    if LeadArgs(flags).Some? {
      FlagIsReceivable(argv, "lead-id");
      FlagIsReceivable(argv, "team");
      var lead := Flag(flags, "lead-id").value;
      IdentityIsReceivable(lead, Or(Flag(flags, "team"), lead));
      OneMoreOption(argv, Identity(lead, Or(Flag(flags, "team"), lead)), "--parent-session-id", "parent-session");
    }
  }

  lemma RunnerArgsAreReceivable(argv: seq<Text>)
    requires Given(argv)
    ensures var args := RunnerArgs(FlagsFrom(argv, 1, map[])); args.Some? ==> AllReceivable(args.value)
  {
    var flags := FlagsFrom(argv, 1, map[]);
    if RunnerArgs(flags).Some? {
      RunnerIdentityIsReceivable(argv);
      var a := Identity(Flag(flags, "runner").value, Or(Flag(flags, "team"), Flag(flags, "lead-id").value));
      OneMoreOption(argv, a, "--parent-session-id", "parent-session");
      var b := a + Optional("--parent-session-id", Flag(flags, "parent-session"));
      OneMoreOption(argv, b, "--agent-color", "color");
      var c := b + Optional("--agent-color", Flag(flags, "color"));
      OneMoreOption(argv, c, "--session-id", "session-id");
      var d := c + Optional("--session-id", Flag(flags, "session-id"));
      OneMoreOption(argv, d, "--permission-mode", "permission-mode");
    }
  }

  lemma RunnerIdentityIsReceivable(argv: seq<Text>)
    requires Given(argv) && RunnerArgs(FlagsFrom(argv, 1, map[])).Some?
    ensures var flags := FlagsFrom(argv, 1, map[]);
            AllReceivable(Identity(Flag(flags, "runner").value, Or(Flag(flags, "team"), Flag(flags, "lead-id").value)))
  {
    var flags := FlagsFrom(argv, 1, map[]);
    FlagIsReceivable(argv, "lead-id");
    FlagIsReceivable(argv, "runner");
    FlagIsReceivable(argv, "team");
    IdentityIsReceivable(Flag(flags, "runner").value, Or(Flag(flags, "team"), Flag(flags, "lead-id").value));
  }

  // ---------------------------------------------------------------- what the launcher ends up with

  lemma ReceivedArgsArrive(args: seq<Text>)
    requires AllReceivable(args)
    ensures RunArray(Captured(ArrayAssignment(ARRAY_NAME, args) + [NEWLINE])) == Some((ARRAY_NAME, args))
  {
    assert ValidName(ARRAY_NAME);
    ArrayArrives(ARRAY_NAME, args);
    forall i | 0 <= i < |args|
      ensures NulFree(args[i]) && WellFormed(args[i])
    {
      ReceivableExactlyWhen(args[i]);
    }
  }

  /** What lead-args and runner-args print; None when they end with an error. */
  method PrintArgs(argv: seq<Text>, runner: bool) returns (output: Option<Text>)
    ensures var args := if runner then RunnerArgs(FlagsFrom(argv, 1, map[])) else LeadArgs(FlagsFrom(argv, 1, map[]));
            && (output.None? <==> args.None?)
            && (output.Some? && Given(argv) ==> RunArray(Captured(output.value)) == Some((ARRAY_NAME, args.value)))
  {
    var command, flags := ParseArgs(argv);
    var args := if runner then RunnerArgs(flags) else LeadArgs(flags);
    if args.None? { return None; }
    output := Some(ArrayAssignment(ARRAY_NAME, args.value) + [NEWLINE]);
    if Given(argv) {
      LeadArgsAreReceivable(argv);
      RunnerArgsAreReceivable(argv);
      ReceivedArgsArrive(args.value);
    }
  }

  /** A directory is passed on when it is set and not empty. */
  function Passed(key: string, dir: Option<Text>): seq<Entry> {
    if dir.Some? && dir.value != [] then [Entry(Ascii(key), dir.value)] else []
  }

  function TeamsEntry(): seq<Entry> {
    [Entry(Ascii("CLAUDE_CODE_EXPERIMENTAL_AGENT_TEAMS"), Ascii("1"))]
  }

  function BackendEntry(): seq<Entry> {
    [Entry(Ascii("FLYWHEEL_AGENT_BACKEND"), Ascii("claude-code"))]
  }

  /** runtimeEnv */
  function RuntimeEnv(configDir: Option<Text>, stateDir: Option<Text>): seq<Entry> {
    TeamsEntry() + BackendEntry() + Passed("CLAUDE_CONFIG_DIR", configDir) + Passed("FLYWHEEL_STATE_DIR", stateDir)
  }

  ghost predicate Exportable(env: seq<Entry>) {
    forall i :: 0 <= i < |env| ==> ValidKey(env[i].key) && Receivable(env[i].value)
  }

  lemma ReceivedEnvArrives(env: seq<Entry>)
    requires Exportable(env)
    ensures RunExports(Captured(Join(ExportLines(env), NEWLINE) + [NEWLINE])) == Some(env)
  {
    EnvironmentArrives(env);
    forall i | 0 <= i < |env|
      ensures NulFree(env[i].value) && WellFormed(env[i].value)
    {
      ReceivableExactlyWhen(env[i].value);
    }
  }

  predicate KeyString(key: string) {
    key != "" && forall i :: 0 <= i < |key| ==> 'A' <= key[i] <= 'Z' || key[i] == '_'
  }

  lemma OneIsExportable(key: string, value: Text)
    requires KeyString(key) && Receivable(value)
    ensures Exportable([Entry(Ascii(key), value)])
  {
    assert forall i :: 0 <= i < |key| ==> Ascii(key)[i] == key[i] as int;
  }

  lemma PassedIsExportable(key: string, dir: Option<Text>)
    requires KeyString(key) && (dir.Some? ==> Receivable(dir.value))
    ensures Exportable(Passed(key, dir))
  {
    if dir.Some? { OneIsExportable(key, dir.value); }
  }

  lemma TeamsIsExportable()
    ensures Exportable(TeamsEntry())
  {
    AsciiIsReceivable("1");
    OneIsExportable("CLAUDE_CODE_EXPERIMENTAL_AGENT_TEAMS", Ascii("1"));
  }

  lemma BackendIsExportable()
    ensures Exportable(BackendEntry())
  {
    AsciiIsReceivable("claude-code");
    OneIsExportable("FLYWHEEL_AGENT_BACKEND", Ascii("claude-code"));
  }

  lemma DirsAreExportable(configDir: Option<Text>, stateDir: Option<Text>)
    requires configDir.Some? ==> Receivable(configDir.value)
    requires stateDir.Some? ==> Receivable(stateDir.value)
    ensures Exportable(Passed("CLAUDE_CONFIG_DIR", configDir))
    ensures Exportable(Passed("FLYWHEEL_STATE_DIR", stateDir))
  {
    PassedIsExportable("CLAUDE_CONFIG_DIR", configDir);
    PassedIsExportable("FLYWHEEL_STATE_DIR", stateDir);
  }

  lemma TogetherExportable(a: seq<Entry>, b: seq<Entry>)
    requires Exportable(a) && Exportable(b)
    ensures Exportable(a + b)
  {
  }

  /** lead-env and runner-env: the launcher's environment gets exactly these variables. */
  lemma RuntimeEnvArrives(configDir: Option<Text>, stateDir: Option<Text>)
    requires configDir.Some? ==> Receivable(configDir.value)
    requires stateDir.Some? ==> Receivable(stateDir.value)
    ensures var env := RuntimeEnv(configDir, stateDir);
            RunExports(Captured(Join(ExportLines(env), NEWLINE) + [NEWLINE])) == Some(env)
  {
    TeamsIsExportable();
    BackendIsExportable();
    DirsAreExportable(configDir, stateDir);
    TogetherExportable(TeamsEntry(), BackendEntry());
    TogetherExportable(TeamsEntry() + BackendEntry(), Passed("CLAUDE_CONFIG_DIR", configDir));
    TogetherExportable(TeamsEntry() + BackendEntry() + Passed("CLAUDE_CONFIG_DIR", configDir),
                       Passed("FLYWHEEL_STATE_DIR", stateDir));
    ReceivedEnvArrives(RuntimeEnv(configDir, stateDir));
  }
}
