/** What `cfn deploy` prints before it calls the backend: a block listing the
    template parameters and a block listing the capabilities. Colour is left
    out; each string is one line of the output, as `console.log` writes its
    argument followed by a line break. */
module Echo {
  import opened Wrappers
  import opened Flags
  import opened Deploy

  const Ruler: string := "=========================="
  const ParametersTitle: string := "Cloud Formation Parameters"
  const CapabilitiesTitle: string := "Cloud Formation Capabilities"

  /** `xs.join(sep)`: the elements in order with `sep` between neighbours;
      it starts with the first element and ends with the last. */
  function Join(xs: seq<string>, sep: string): (r: string)
    ensures xs == [] ==> r == ""
    ensures |xs| == 1 ==> r == xs[0]
    ensures |xs| >= 1 ==> |xs[0]| <= |r| && r[..|xs[0]|] == xs[0]
    ensures |xs| >= 1 ==> |xs[|xs| - 1]| <= |r| && r[|r| - |xs[|xs| - 1]|..] == xs[|xs| - 1]
    ensures |xs| >= 2 ==> |xs[0]| + |sep| <= |r| && r[|xs[0]|..|xs[0]| + |sep|] == sep
  {
    if xs == [] then ""
    else if |xs| == 1 then xs[0]
    else
      var rest := Join(xs[1..], sep);
      assert xs[1..][|xs[1..]| - 1] == xs[|xs| - 1];
      var r := xs[0] + sep + rest;
      assert r[|r| - |xs[|xs| - 1]|..] == rest[|rest| - |xs[|xs| - 1]|..];
      r
  }

  /** Joining two non-empty lists puts one separator between the joins of
      the parts; with the empty and one-element cases this fixes `Join`
      completely. */
  lemma {:induction false} JoinAppend(a: seq<string>, b: seq<string>, sep: string)
    requires a != [] && b != []
    ensures Join(a + b, sep) == Join(a, sep) + sep + Join(b, sep)
  {
    var ab := a + b;
    assert |ab| >= 2 && ab[0] == a[0];
    if |a| == 1 {
      assert ab[1..] == b;
    } else {
      assert ab[1..] == a[1..] + b;
      JoinAppend(a[1..], b, sep);
      var head, middle, tail := a[0] + sep, Join(a[1..], sep), Join(b, sep);
      assert Join(ab, sep) == head + (middle + sep + tail);
      assert Join(a, sep) == head + middle;
      ConcatRegroup(head, middle, sep, tail);
    }
  }

  /** Regrouping a concatenation of four strings, kept apart from
      `JoinAppend` so that `Join`'s contract is not in scope. */
  lemma ConcatRegroup(w: string, x: string, y: string, z: string)
    ensures w + (x + y + z) == w + x + y + z
  {
  }

  /** A flag value placed in a template literal: an array prints its elements
      separated by commas. */
  function Text(v: FlagValue): (r: string)
    ensures v.Scalar? ==> r == v.s
    ensures v.Multi? ==> r == Join(v.xs, ",")
    ensures v.Multi? && |v.xs| == 1 ==> r == v.xs[0]
    ensures v == Multi([]) ==> r == ""
  {
    match v
    case Scalar(s) => s
    case Multi(xs) => Join(xs, ",")
  }

  /** The line `key: value` for one parameter: the key, a colon and a space,
      then the value's text. */
  function ParameterLine(p: (string, FlagValue)): (r: string)
    ensures |r| == |p.0| + 2 + |Text(p.1)|
    ensures r[..|p.0|] == p.0 && r[|p.0|..|p.0| + 2] == ": " && r[|p.0| + 2..] == Text(p.1)
  {
    p.0 + ": " + Text(p.1)
  }

  /** One line per parameter, in order. */
  function ParameterLines(params: FlagList): (r: seq<string>)
    ensures |r| == |params|
    ensures forall i :: 0 <= i < |params| ==> r[i] == ParameterLine(params[i])
  {
    if params == [] then [] else [ParameterLine(params[0])] + ParameterLines(params[1..])
  }

  /** `console.log(lines.join(EOL))`: the lines, or a single empty line when
      there are none. */
  function Logged(lines: seq<string>): (r: seq<string>)
    ensures lines != [] ==> r == lines
    ensures lines == [] ==> r == [""]
  {
    if lines == [] then [""] else lines
  }

  /** A titled block: title and ruler, the body, then a ruler and an empty
      line. */
  function Block(title: string, body: seq<string>): (r: seq<string>)
    ensures |r| == |Logged(body)| + 4
    ensures r[0] == title && r[1] == Ruler && r[|r| - 2] == Ruler && r[|r| - 1] == ""
    ensures r[2..|r| - 2] == Logged(body)
  {
    [title, Ruler] + Logged(body) + [Ruler, ""]
  }

  /** The parameter block, printed only when there are parameters. */
  function ParametersBlock(params: FlagList): (r: seq<string>)
    ensures r == [] <==> params == []
    ensures params != [] ==> r == [ParametersTitle, Ruler] + ParameterLines(params) + [Ruler, ""]
    ensures params != [] ==> |r| == |params| + 4
    ensures params != [] ==> forall i :: 0 <= i < |params| ==> r[i + 2] == ParameterLine(params[i])
  {
    if |params| > 0 then Block(ParametersTitle, ParameterLines(params)) else []
  }

  /** The capability block, printed only when capabilities are present. */
  function CapabilitiesBlock(caps: Option<seq<string>>): (r: seq<string>)
    ensures r == [] <==> caps.None?
    ensures caps.Some? ==> r == [CapabilitiesTitle, Ruler] + Logged(caps.value) + [Ruler, ""]
    ensures caps.Some? && caps.value != [] ==> |r| == |caps.value| + 4 && r[2..|r| - 2] == caps.value
    ensures caps == Some([]) ==> r == [CapabilitiesTitle, Ruler, "", Ruler, ""]
  {
    match caps
    case None => []
    case Some(cs) => Block(CapabilitiesTitle, cs)
  }

  /** Everything the deploy command prints before calling the backend:
      parameters first, then capabilities. */
  function DeployEcho(req: Request): (r: seq<string>)
    ensures r == ParametersBlock(req.cfParams) + CapabilitiesBlock(req.capabilities)
    ensures r == [] <==> req.cfParams == [] && req.capabilities.None?
    ensures req.cfParams != [] ==> r[0] == ParametersTitle
    ensures req.cfParams == [] && req.capabilities.Some? ==> r[0] == CapabilitiesTitle
  {
    ParametersBlock(req.cfParams) + CapabilitiesBlock(req.capabilities)
  }
}
