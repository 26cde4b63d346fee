# cfn command line: dispatch, deploy request and echo

`cfn` is a command-line front end to a cloud provisioning service. It has four
commands: `deploy`, `delete`, `outputs` and `output`. This project models the
decision logic in `cli.js`, as pure Dafny functions with lemmas about them:

- **Dispatch** (`Cli`). The fixed command table `cmds` gives each command the
  number of positionals it needs, its own name included: deploy 3, delete 2,
  outputs 2, output 3. `exec` rejects an empty invocation, an unknown
  command and too few positionals with `Invalid Usage`. Otherwise it runs
  exactly the matched command, which reads its operands by position. There is
  no upper bound on the number of positionals.
- **Deploy request** (`Flags`, `Deploy`). Every flag except `capability` is a
  template parameter, kept in order with its value unchanged. The
  `capability` flag is normalised to a list. An absent or falsy value gives
  no capabilities (`undefined`). The backend receives exactly
  `{name, template, cfParams, capabilities}`.
- **Echo** (`Echo`). Before the backend call, deploy prints a parameter block
  only when there are parameters, with one `key: value` line each. It prints
  a capability block only when capabilities are present, with one line each.
  Colour is dropped. Each string is one output line.

The parsed invocation is the positional list `cli.input` plus the flags
`cli.flags`. The flags are an association list, so the object's key order
(which the echo shows) is part of the model. A flag value is a single string, or the list of
its values when the flag was repeated. An `Outcome` is either `InvalidUsage`
or the one backend call the invocation makes, with its operands.

Behaviours of `cli.js` that are easy to miss, all modelled:
- An absent capability flag gives `undefined` capabilities (`None`), not an
  empty list.
- A repeated parameter flag reaches the backend as a list, not a string.
- JavaScript arrays are always truthy, so `Multi([])` gives `Some([])`, and
  its block prints one empty line.
- An array-valued parameter echoes as its elements joined by commas.

File layout: `wrappers.dfy` (Option), `flags.dfy`, `deploy.dfy`, `echo.dfy`,
`cli.dfy`.

## Model

| member | source | states |
|---|---|---|
| `Flags.Lookup` | cli.js:44 | `flags[key]` is undefined exactly when no entry has that key; otherwise the value is one stored under that key |
| `Flags.LookupUnique` | cli.js:44 | for an object with unique keys, the lookup gives `v` exactly when `(key, v)` is an entry |
| `Flags.Omit` | cli.js:36 | `_.omit` keeps exactly the entries whose key is not the omitted one |
| `Flags.OmitAppend` | cli.js:36 | omitting distributes over concatenation, so the kept entries stay in their original order |
| `Flags.OmitAbsent` | cli.js:36 | with the key absent, omitting changes nothing |
| `Flags.LookupOmit` | cli.js:36 | after omitting, the omitted key looks up as undefined and every other key looks up as before |
| `Flags.OmitUnique` | cli.js:36 | omitting keeps the keys unique |
| `Flags.Accumulated` | cli.js:23 | a flag seen once is a scalar, one seen several times is a list; either way it carries exactly the given values in order |
| `Flags.Truthy` | cli.js:44 | JavaScript truthiness of a flag value: a string is falsy exactly when it is empty, and an array is always truthy |
| `Deploy.Parameters` | cli.js:36 | the parameters never contain `capability` and hold every other flag entry |
| `Deploy.ParametersCarryOver` | cli.js:36 | every non-`capability` key has the same value in the parameters as in the flags |
| `Deploy.ParametersInOrder` | cli.js:36 | parameters are kept in the flags' order |
| `Deploy.ParametersWithoutCapability` | cli.js:36 | without a `capability` flag the parameters are all the flags |
| `Deploy.Capabilities` | cli.js:43-45 | capabilities are present exactly when the flag exists and is truthy, and are then the flag's values in order |
| `Deploy.ScalarCapability` | cli.js:45 | a single non-empty capability becomes a one-element list |
| `Deploy.ListCapability` | cli.js:45 | a list of capabilities is passed through as it is |
| `Deploy.NoCapability` | cli.js:43-44 | an absent or empty-string capability gives no capabilities, not an empty list |
| `Deploy.Extract` | cli.js:33-51 | the request takes the stack name from `input[1]` and the template from `input[2]`; its parameters are `Parameters(flags)`, so exactly the non-`capability` flag entries in the flags' order; its capabilities are present exactly when the flag is truthy, and are then the flag's values |
| `Deploy.CapabilitiesRoundTrip` | cli.js:43-45 | capabilities given once or several times on the command line come back in order; only a single empty one is lost |
| `Echo.Join` | cli.js:39 | `join` starts with the first element, ends with the last, has the separator right after the first when there are two or more, and is empty for no elements |
| `Echo.JoinAppend` | cli.js:39 | joining two non-empty lists gives the two joins with one separator between them, which with the empty and one-element cases determines `join` completely |
| `Echo.Text` | cli.js:39 | a scalar prints as itself; an array prints as its elements joined by commas, so a one-element array prints as its element and an empty one as the empty string |
| `Echo.ParameterLine` | cli.js:39 | a parameter line is the key, then `: `, then the value's text |
| `Echo.Block` | cli.js:38-40 | a block is the title, a ruler, the logged body, a ruler and an empty line |
| `Echo.ParameterLines` | cli.js:39 | one `key: value` line per parameter, in order |
| `Echo.Logged` | cli.js:47 | logging joined lines prints those lines, or exactly one empty line when there are none |
| `Echo.ParametersBlock` | cli.js:37-41 | the parameter block is empty exactly when there are no parameters; otherwise it is exactly the title, a ruler, one line per parameter in order, a ruler and an empty line |
| `Echo.CapabilitiesBlock` | cli.js:44-49 | the capability block appears exactly when capabilities are present, and is then the title, a ruler, one line per capability, a ruler and an empty line; an empty list prints one empty line between the rulers |
| `Echo.DeployEcho` | cli.js:37-49 | deploy prints the parameter block followed by the capability block, so nothing exactly when there are no parameters and no capabilities |
| `Cli.Find` | cli.js:90 | command lookup is an exact, case-sensitive match on the four table keys |
| `Cli.Name` | cli.js:29-82 | every command's name is one of the four table keys `deploy`, `delete`, `outputs`, `output` |
| `Cli.Args` | cli.js:31 | delete and outputs declare two positionals, deploy and output three |
| `Cli.FindName` | cli.js:29-82 | every command is found under its own table key |
| `Cli.Run` | cli.js:32-81 | each command's body makes its own backend call: deploy passes `input[1]` and `input[2]` as stack name and template, output passes `input[1]` and `input[2]`, delete and outputs pass `input[1]` |
| `Cli.Exec` | cli.js:84-96 | each command runs exactly when the first positional is its name and its positional count is met. Deploy passes `input[1]`, `input[2]`, the parameters and the capabilities. Output passes `input[1]` and `input[2]`. Delete and outputs pass `input[1]` |
| `Cli.EmptyInputInvalid` | cli.js:85-88 | no positionals gives Invalid Usage |
| `Cli.UnknownCommandInvalid` | cli.js:89-92 | an unknown command name gives Invalid Usage |
| `Cli.ArgumentCount` | cli.js:91-95 | a known command is rejected exactly when it has fewer positionals than declared, and otherwise runs that command's body |
| `Cli.InvalidUsageCases` | cli.js:84-96 | Invalid Usage happens exactly on no name, an unknown name, or too few positionals |
| `Cli.ExtraPositionalsIgnored` | cli.js:91-95 | appending positionals to a valid invocation does not change what it does |
| `Cli.Echoed` | cli.js:37-48 | only deploy prints anything before the backend call |
| `Cli.InvalidUsageRunsNothing` | cli.js:86-92 | an invocation with no name, an unknown name or too few positionals is rejected, prints no echo and makes no backend call |
| `Cli.DeployEchoBlocks` | cli.js:36-49 | for a deploy, the parameter block appears exactly when a non-`capability` flag was given, and the capability block exactly when the capability flag is truthy |
| `Cli.UsageExampleRequest` | cli.js:23 | with the flags of the second usage example held under the keys as written, deploy passes exactly `ImageId` and `VpcId` as parameters and both capabilities in order |
| `Cli.UsageExampleParameters` | cli.js:38-40 | the parameter block of the usage example, with the flags held under the keys as written |
| `Cli.UsageExampleEcho` | cli.js:38-48 | with the flags held under the keys as written, the lines that usage example prints before the backend call |

## Left out

- Argument parsing by `meow` (cli.js:9, 14-27) is an external library. The model starts from the parsed `input` and `flags`. Tokenising `--k=v`, camel-casing of flag names, and the help text are not modelled.
- The backend module `require('./')` (cli.js:6) is not part of this model. Its create/update, delete and describe behaviour, the stack states, and its error kinds (provisioning failure, missing output field) are not modelled. A backend call is recorded as the `Outcome` constructor that carries its operands.
- Console output is modelled only as the lines the deploy echo prints. Not modelled: `chalk` colours, the operating system's line ending, `JSON.stringify` of the outputs, printing the single output value, the red `Invalid Usage` message on the error stream, `showHelp(1)` and the exit status (cli.js:68-69, 79, 98-100). A value that itself contains a line break is treated as one line.
- Promises and the `.catch` chain (cli.js:10, 12, 87, 92, 98) are asynchrony plumbing. A rejection is the `InvalidUsage` outcome.
- Cli.Find: matches only the four own keys of `cmds`. In the source, `cmds['constructor']` and other names inherited from `Object.prototype` are truthy and pass the guard. `cmd.exec()` then throws a TypeError. This is not modelled.
- Flag values that are numbers or booleans, and their JavaScript truthiness, are not modelled: flag values are strings or lists of strings.
