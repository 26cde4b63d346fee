/** The request that `cfn deploy` hands to the provisioning backend, and how
    it is extracted from the parsed invocation (cli.js, `cmds.deploy.exec`). */
module Deploy {
  import opened Wrappers
  import opened Flags

  /** The one flag that is not a template parameter. */
  const CapabilityKey: string := "capability"

  /** `{ name, template, cfParams, capabilities }`, the argument of the
      backend's create-or-update call; `capabilities` is `undefined` (None)
      when no capability was given. */
  datatype Request = Request(
    name: string,
    template: string,
    cfParams: FlagList,
    capabilities: Option<seq<string>>)

  /** `_.omit(cli.flags, ['capability'])`: the template parameters. */
  function Parameters(flags: FlagList): (r: FlagList)
    ensures Lookup(r, CapabilityKey) == None
    ensures forall p :: p in r <==> p in flags && p.0 != CapabilityKey
  {
    Omit(flags, CapabilityKey)
  }

  /** Every flag other than `capability` reaches the parameters with its
      value unchanged, and no other key appears. */
  lemma ParametersCarryOver(flags: FlagList, k: string)
    requires k != CapabilityKey
    ensures Lookup(Parameters(flags), k) == Lookup(flags, k)
  {
    LookupOmit(flags, CapabilityKey, k);
  }

  /** Parameters keep the flags' order. */
  lemma ParametersInOrder(a: FlagList, b: FlagList)
    ensures Parameters(a + b) == Parameters(a) + Parameters(b)
  {
    OmitAppend(a, b, CapabilityKey);
  }

  /** Without a `capability` flag the parameters are all the flags. */
  lemma ParametersWithoutCapability(flags: FlagList)
    requires Lookup(flags, CapabilityKey).None?
    ensures Parameters(flags) == flags
  {
  }

  /** `let capabilities; if (cli.flags.capability) capabilities =
      Array.isArray(c) ? c : [c]`: the capability list, or None when the flag
      is absent or falsy. */
  function Capabilities(flags: FlagList): (r: Option<seq<string>>)
    ensures r.Some? <==> Lookup(flags, CapabilityKey).Some? && Truthy(Lookup(flags, CapabilityKey).value)
    ensures r.Some? ==> r.value == Values(Lookup(flags, CapabilityKey).value)
  {
    match Lookup(flags, CapabilityKey)
    case None => None
    case Some(c) =>
      if Truthy(c) then Some(if c.Multi? then c.xs else [c.s]) else None
  }

  /** A single capability becomes a one-element list. */
  lemma ScalarCapability(flags: FlagList, cap: string)
    requires Lookup(flags, CapabilityKey) == Some(Scalar(cap)) && cap != ""
    ensures Capabilities(flags) == Some([cap])
  {
  }

  /** A list of capabilities is passed on as it is, order included. */
  lemma ListCapability(flags: FlagList, caps: seq<string>)
    requires Lookup(flags, CapabilityKey) == Some(Multi(caps))
    ensures Capabilities(flags) == Some(caps)
  {
  }

  /** An absent or empty capability gives no capabilities at all, not an
      empty list. */
  lemma NoCapability(flags: FlagList)
    requires Lookup(flags, CapabilityKey) in {None, Some(Scalar(""))}
    ensures Capabilities(flags) == None
  {
  }

  /** Round trip through the argument parser: the capabilities given on the
      command line, once or several times, come back in order, except for a
      single empty one, which is falsy. */
  lemma CapabilitiesRoundTrip(flags: FlagList, given: seq<string>)
    requires |given| >= 1
    requires Lookup(flags, CapabilityKey) == Some(Accumulated(given))
    ensures Capabilities(flags) == if given == [""] then None else Some(given)
  {
  }

  /** The deploy operands: stack name and template from the positionals,
      parameters and capabilities from the flags. */
  function Extract(input: seq<string>, flags: FlagList): (r: Request)
    requires |input| >= 3
    ensures r.name == input[1] && r.template == input[2]
    ensures r.cfParams == Parameters(flags) && r.capabilities == Capabilities(flags)
    ensures forall p :: p in r.cfParams <==> p in flags && p.0 != CapabilityKey
    ensures r.capabilities.Some? <==> Lookup(flags, CapabilityKey).Some? && Truthy(Lookup(flags, CapabilityKey).value)
    ensures r.capabilities.Some? ==> r.capabilities.value == Values(Lookup(flags, CapabilityKey).value)
  {
    Request(input[1], input[2], Parameters(flags), Capabilities(flags))
  }
}
