/** The command table `cmds` and the dispatcher `exec` of cli.js. */
module Cli {
  import opened Wrappers
  import opened Flags
  import opened Deploy
  import opened Echo

  /** The four entries of the command table. */
  datatype Command = DeployCommand | DeleteCommand | OutputsCommand | OutputCommand

  /** The table key of each command. */
  function Name(c: Command): (r: string)
    ensures r in {"deploy", "delete", "outputs", "output"}
  {
    match c
    case DeployCommand => "deploy"
    case DeleteCommand => "delete"
    case OutputsCommand => "outputs"
    case OutputCommand => "output"
  }

  /** `cmds[c].args`: how many positionals the command needs, its own name
      included. */
  function Args(c: Command): (r: nat)
    ensures r == 2 <==> c == DeleteCommand || c == OutputsCommand
    ensures r == 3 <==> c == DeployCommand || c == OutputCommand
  {
    match c
    case DeployCommand => 3
    case DeleteCommand => 2
    case OutputsCommand => 2
    case OutputCommand => 3
  }

  /** `cmds[name]`, an exact, case-sensitive match on the table's own keys. */
  function Find(name: string): (r: Option<Command>)
    ensures r.Some? ==> Name(r.value) == name
    ensures r.None? <==> name !in {"deploy", "delete", "outputs", "output"}
  {
    if name == "deploy" then Some(DeployCommand)
    else if name == "delete" then Some(DeleteCommand)
    else if name == "outputs" then Some(OutputsCommand)
    else if name == "output" then Some(OutputCommand)
    else None
  }

  /** Looking a command up by its own name finds it. */
  lemma FindName(c: Command)
    ensures Find(Name(c)) == Some(c)
  {
  }

  /** What one invocation does: it is rejected with `Invalid Usage`, or it
      makes exactly one backend call with these operands. */
  datatype Outcome =
    | InvalidUsage
    | CreateOrUpdate(request: Request)
    | Delete(name: string)
    | Outputs(name: string)
    | Output(name: string, field: string)

  /** The body of the matched command: which positionals it reads and which
      backend call it makes. */
  function Run(c: Command, input: seq<string>, flags: FlagList): (r: Outcome)
    requires |input| >= Args(c)
    ensures r.CreateOrUpdate? <==> c == DeployCommand
    ensures r.Delete? <==> c == DeleteCommand
    ensures r.Outputs? <==> c == OutputsCommand
    ensures r.Output? <==> c == OutputCommand
    ensures r.CreateOrUpdate? ==> r.request.name == input[1] && r.request.template == input[2]
    ensures r.Delete? || r.Outputs? ==> r.name == input[1]
    ensures r.Output? ==> r.name == input[1] && r.field == input[2]
  {
    match c
    case DeployCommand => CreateOrUpdate(Extract(input, flags))
    case DeleteCommand => Delete(input[1])
    case OutputsCommand => Outputs(input[1])
    case OutputCommand => Output(input[1], input[2])
  }

  /** `exec()`, given the positionals `cli.input` and the flags `cli.flags`. */
  function Exec(input: seq<string>, flags: FlagList): (r: Outcome)
    ensures r.CreateOrUpdate? <==> |input| >= 3 && input[0] == "deploy"
    ensures r.Delete? <==> |input| >= 2 && input[0] == "delete"
    ensures r.Outputs? <==> |input| >= 2 && input[0] == "outputs"
    ensures r.Output? <==> |input| >= 3 && input[0] == "output"
    ensures r.CreateOrUpdate? ==> r.request == Request(input[1], input[2], Parameters(flags), Capabilities(flags))
    ensures r.Delete? || r.Outputs? ==> r.name == input[1]
    ensures r.Output? ==> r.name == input[1] && r.field == input[2]
  {
    var len := |input|;
    if len < 1 then InvalidUsage
    else
      match Find(input[0])
      case None => InvalidUsage
      case Some(c) => if len < Args(c) then InvalidUsage else Run(c, input, flags)
  }

  /** An empty invocation is rejected. */
  lemma EmptyInputInvalid(flags: FlagList)
    ensures Exec([], flags) == InvalidUsage
  {
  }

  /** A first positional that names no command is rejected. */
  lemma UnknownCommandInvalid(input: seq<string>, flags: FlagList)
    requires |input| >= 1 && Find(input[0]).None?
    ensures Exec(input, flags) == InvalidUsage
  {
  }

  /** A known command is rejected exactly when it is given fewer positionals
      than it declares, and otherwise dispatches to that command. */
  lemma ArgumentCount(c: Command, input: seq<string>, flags: FlagList)
    requires |input| >= 1 && input[0] == Name(c)
    ensures Exec(input, flags) == InvalidUsage <==> |input| < Args(c)
    ensures |input| >= Args(c) ==> Exec(input, flags) == Run(c, input, flags)
  {
  }

  /** An invocation is rejected exactly when it has no command name, an
      unknown one, or too few positionals for it. */
  lemma InvalidUsageCases(input: seq<string>, flags: FlagList)
    ensures Exec(input, flags) == InvalidUsage <==>
      |input| == 0 || Find(input[0]).None? || |input| < Args(Find(input[0]).value)
  {
  }

  /** There is no upper bound: positionals past the command's count are
      ignored. */
  lemma ExtraPositionalsIgnored(input: seq<string>, extra: seq<string>, flags: FlagList)
    requires Exec(input, flags) != InvalidUsage
    ensures Exec(input + extra, flags) == Exec(input, flags)
  {
  }

  /** The lines printed before the backend call: only a deploy prints any. */
  function Echoed(o: Outcome): (r: seq<string>)
    ensures !o.CreateOrUpdate? ==> r == []
  {
    match o
    case CreateOrUpdate(req) => DeployEcho(req)
    case _ => []
  }

  /** A rejected invocation prints nothing before its error and calls no
      backend operation. */
  lemma InvalidUsageRunsNothing(input: seq<string>, flags: FlagList)
    requires |input| == 0 || Find(input[0]).None? || |input| < Args(Find(input[0]).value)
    ensures Exec(input, flags) == InvalidUsage && Echoed(Exec(input, flags)) == []
  {
  }

  /** The parameter block of a deploy appears exactly when some flag other
      than `capability` was given, the capability block exactly when the
      capability flag is truthy. */
  lemma DeployEchoBlocks(input: seq<string>, flags: FlagList)
    requires |input| >= 3 && input[0] == "deploy"
    ensures
      var out := Echoed(Exec(input, flags));
      var params := ParametersBlock(Parameters(flags));
      && out == params + CapabilitiesBlock(Capabilities(flags))
      && (params != [] <==> exists p :: p in flags && p.0 != CapabilityKey)
      && (out[|params|..] != [] <==> Lookup(flags, CapabilityKey).Some? && Truthy(Lookup(flags, CapabilityKey).value))
  {
  }

  /** The flags of the second usage example, `--ImageId=ami-828283
      --VpcId=vpc-828283 --capability=CAPABILITY_NAMED_IAM
      --capability=CAPABILITY_AUTO_EXPAND`, held under the keys as written
      on the command line (the parser's renaming of keys is not modelled). */
  const ExampleFlags: FlagList := [("ImageId", Scalar("ami-828283")), ("VpcId", Scalar("vpc-828283")),
    ("capability", Multi(["CAPABILITY_NAMED_IAM", "CAPABILITY_AUTO_EXPAND"]))]

  /** `deploy your_stack template.yml` with those flags passes exactly the
      two parameters and the two capabilities, in order, to the backend. */
  lemma UsageExampleRequest()
    ensures Exec(["deploy", "your_stack", "template.yml"], ExampleFlags)
      == CreateOrUpdate(Request("your_stack", "template.yml",
                        [("ImageId", Scalar("ami-828283")), ("VpcId", Scalar("vpc-828283"))],
                        Some(["CAPABILITY_NAMED_IAM", "CAPABILITY_AUTO_EXPAND"])))
  {
  }

  /** The parameter block of that deploy. */
  lemma UsageExampleParameters()
    ensures ParametersBlock([("ImageId", Scalar("ami-828283")), ("VpcId", Scalar("vpc-828283"))])
      == [ParametersTitle, Ruler, "ImageId: ami-828283", "VpcId: vpc-828283", Ruler, ""]
  {
    var image, vpc := ("ImageId", Scalar("ami-828283")), ("VpcId", Scalar("vpc-828283"));
    assert Text(image.1) == "ami-828283" && Text(vpc.1) == "vpc-828283";
    assert ParameterLine(image) == "ImageId" + ": " + "ami-828283" == "ImageId: ami-828283";
    assert ParameterLine(vpc) == "VpcId" + ": " + "vpc-828283" == "VpcId: vpc-828283";
    assert [image, vpc][1..] == [vpc];
    assert ParameterLines([image, vpc]) == ["ImageId: ami-828283", "VpcId: vpc-828283"];
  }

  /** What that deploy prints before calling the backend. */
  lemma UsageExampleEcho()
    ensures DeployEcho(Request("your_stack", "template.yml",
                               [("ImageId", Scalar("ami-828283")), ("VpcId", Scalar("vpc-828283"))],
                               Some(["CAPABILITY_NAMED_IAM", "CAPABILITY_AUTO_EXPAND"])))
      == [ParametersTitle, Ruler, "ImageId: ami-828283", "VpcId: vpc-828283", Ruler, "",
          CapabilitiesTitle, Ruler, "CAPABILITY_NAMED_IAM", "CAPABILITY_AUTO_EXPAND", Ruler, ""]
  {
    UsageExampleParameters();
    var caps := ["CAPABILITY_NAMED_IAM", "CAPABILITY_AUTO_EXPAND"];
    assert CapabilitiesBlock(Some(caps)) == [CapabilitiesTitle, Ruler] + caps + [Ruler, ""];
  }
}
