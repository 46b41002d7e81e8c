# RNX UPDU Ansible collection: a Dafny model of its core

This project models the core of the RNX UPDU Ansible collection, which
manages RNX UPDU power distribution units over their command line, and
proves properties of that model:

- **The device-side `Cliconf` plugin** (`cliconf.dfy`). It covers:
  - `edit_config`, the configuration sequencer: `configure`, then the
    applicable candidate lines in order, then `end`, aborting on `ERR:`;
  - `run_commands`, the command batcher, where `check_rc` decides whether a
    connection failure aborts;
  - `get`;
  - `get_device_info`, which scrapes the hostname, model and firmware
    version;
  - `get_capabilities`.

  The plugin is a class over a device session (`transport.dfy`). Every
  method is proved equal to a specification function, and lemmas
  characterise those functions completely, in terms of the first rejected
  line or command.
- **The module-side helpers** (`module_utils.dfy`): `get_capabilities` and
  `get_connection`, which memoise on the module object, plus
  `run_commands`, `write_config` and `load_config`.
- **The `updu_facts` module** (`facts.dfy`). It covers subset resolution
  (`all`, `!name`, the forced `default`), the `Default` collector with its
  `platform_facts`, and the `ansible_net_` namespacing.
- **The `updu_commands` module** (`commands.dfy`). It covers `to_lines` and
  the shaping of `stdout` and `stdout_lines`.
- **Supporting modules:**
  - `text.dfy`: tab widening, split/join, strip, substring search;
  - `scanner.dfy`: the three regular expressions of `get_device_info` as a
    leftmost-match scanner;
  - `wrappers.dfy`: `Option` and `Result`.

The device is an oracle: `Device = (seq<Command>, Command) -> Reply`. It
gives the reply to a command from every command sent before it in the
session, so a stateful device is covered. A reply is either output text or a
connection failure. Every exchange records the commands it sent, in order.

The following are parameters of the model rather than things it computes:
- the framework's part of the capability document (`rpc`, `network_api`);
- the Python version reported by the facts module.

### Behaviour of the code worth knowing

- **Skipped lines are never sent.** Candidate lines equal to `end` or
  starting with `#` are skipped before anything is sent
  (plugins/cliconf/updu.py:70). `Cliconf.Filter` and
  `Cliconf.EditConfigSpec` state this.
- **An aborted `edit_config` never sends `end`.** There is no `finally`
  around the candidate loop (plugins/cliconf/updu.py:71-83), so after an
  error the device stays in configuration mode (`Cliconf.EditConfigSpec`).
- **An empty candidate line raises.** `cmd[0]` of an empty command raises
  `IndexError` before that line is sent. By then `configure` and the earlier
  candidate lines have gone out, and `end` is never sent. It is modelled as
  the error `EmptyCommand`, not as a precondition.
- **`default` is the only subset.** `VALID_SUBSETS` is `{"default"}`, so
  resolution always yields `{"default"}` (`Facts.ResolvedIsDefault`), and
  exactly one collector runs.
- **Every module run starts unconnected.** The commands, config and facts
  modules create a new module object before calling the helpers, so the
  helpers' lemmas are stated for any cache: getting the connection comes
  first, and its failure is the module's failure.

## Model

| member | source | states |
|---|---|---|
| Text.ContainsOccurs | plugins/cliconf/updu.py:144 | the substring test `"ERR:" in out` holds exactly when the marker occurs at some position |
| Text.ReplaceTabs | plugins/modules/updu_commands.py:88 | the result holds no tab |
| Text.ReplaceTabsTabFree | plugins/modules/updu_commands.py:88 | a string without a tab comes back unchanged |
| Text.ReplaceTabsChar | plugins/modules/updu_commands.py:88 | a lone tab becomes four spaces, and any other character is kept as it is |
| Text.ReplaceTabsAppend | plugins/modules/updu_commands.py:88 | the replacement of a concatenation is the concatenation of the replacements, so with `ReplaceTabsChar` every tab becomes four spaces in place and every other character keeps its order |
| Text.Split | plugins/modules/updu_commands.py:88 | `split('\n')` yields at least one piece, none holds the separator, and each piece's characters come from the input |
| Text.JoinSplit | plugins/modules/updu_commands.py:88 | joining the pieces of a split with the separator gives back the string |
| Text.SplitJoin | plugins/modules/updu_commands.py:88 | splitting pieces free of the separator, once joined, gives back exactly those pieces |
| Text.SplitNoSep | plugins/modules/updu_commands.py:88 | a string without the separator splits into itself alone |
| Text.SplitAfter | plugins/modules/updu_commands.py:88 | splitting `w + sep + t`, where `w` holds no separator, gives `w` followed by the pieces of `t` |
| Text.SpacesEnd | plugins/cliconf/updu.py:34 | the end of the whitespace run from a position: every character before it is whitespace, and the one at it is not |
| Text.SpacesStart | plugins/cliconf/updu.py:34 | the start of the whitespace run that ends at a position, not below a bound: every character from it is whitespace, and the one before it (above the bound) is not |
| Text.Strip | plugins/cliconf/updu.py:34 | `strip()`: the slice of the input between a whitespace-only prefix and a whitespace-only suffix, and it neither starts nor ends with whitespace |
| Scanner.RunEnd | plugins/cliconf/updu.py:35 | the end of a maximal run of spaces (`\s+`) or non-spaces (`\S+`) from a position |
| Scanner.Group | plugins/cliconf/updu.py:37 | `match.group(1)`, the greedy `(\S+)` group: the non-empty text that starts where the group starts and runs up to the next whitespace character or the end of the data |
| Scanner.Search | plugins/cliconf/updu.py:42 | `re.search` under `re.M`: the leftmost position at or after the start where the pattern matches, or none if it matches nowhere |
| Scanner.ParseFacts | plugins/modules/updu_facts.py:82-87 | a value exactly when the pattern matches somewhere, and then group 1 of the leftmost match |
| Cliconf.Texts | plugins/cliconf/updu.py:75 | the recorded request list: one text per sent command, in order |
| Cliconf.Filter | plugins/cliconf/updu.py:65-71 | a line is sent exactly when it is a candidate line and applicable (not `end`, not a `#` comment, not empty), and no more lines than the candidate has |
| Cliconf.FilterAppend | plugins/cliconf/updu.py:65-71 | filtering distributes over concatenation, so order is preserved |
| Cliconf.ApplyLinesAdvance | plugins/cliconf/updu.py:69-75 | an accepted applicable line is sent, its text and reply are recorded, and the loop continues after it |
| Cliconf.EditConfigAborts | plugins/cliconf/updu.py:71-73 | when the candidate loop raises, `edit_config` reports that error and does not send `end` |
| Cliconf.EditConfigCompletes | plugins/cliconf/updu.py:77-83 | when the candidate loop finishes, `end` is sent and the two recorded lists are returned, unless `end` itself fails to transmit |
| Cliconf.FirstRejectedLine | plugins/cliconf/updu.py:65-73 | the first candidate line not accepted, with every earlier line accepted |
| Cliconf.FilterHead | plugins/cliconf/updu.py:65-70 | the lines sent from a prefix are the first line's contribution followed by the rest's |
| Cliconf.AcceptedShift | plugins/cliconf/updu.py:65-73 | acceptance of a later line is acceptance in the tail after the head's effect on the session |
| Cliconf.ApplyLinesAccepted | plugins/cliconf/updu.py:65-75 | if every line is accepted, exactly the applicable lines are sent and recorded, in order, and nothing is raised |
| Cliconf.RejectedHead | plugins/cliconf/updu.py:69-73 | a rejected first line: an empty one raises `IndexError` before anything is sent, any other is sent and raises |
| Cliconf.AcceptedHead | plugins/cliconf/updu.py:69-75 | an accepted first line: a skipped one leaves no trace, a sent one is recorded with its reply |
| Cliconf.ApplyLinesRejected | plugins/cliconf/updu.py:65-75 | if line k is the first rejected, the lines before it went through, it raises its own error, and nothing after it is sent |
| Cliconf.TextsAppend | plugins/cliconf/updu.py:75 | the recorded requests of two runs of sent lines concatenate |
| Cliconf.ApplyLinesPaired | plugins/cliconf/updu.py:71-75 | request i and response i always belong to sent command i: its text and its accepted, `ERR:`-free reply |
| Cliconf.ApplyLinesOutcome | plugins/cliconf/updu.py:65-77 | the whole candidate loop in terms of the first rejected line: what is sent, what is recorded, and which error is raised |
| Cliconf.EditConfigRun | plugins/cliconf/updu.py:58-83 | `edit_config`: without `commit` a failure with nothing sent, otherwise `configure` goes first, and a success ends by sending `end` |
| Cliconf.EditConfigSpec | plugins/cliconf/updu.py:58-83 | no commit: "check mode is not supported", nothing sent. Success: `configure`, the applicable lines, `end` were sent, with one request and one response per line. A rejected line: failure, `end` never sent |
| Cliconf.Cliconf.Get | plugins/cliconf/updu.py:85-89 | `get` sends the one command and raises on a connection failure or an `ERR:` reply, otherwise returns the reply |
| Cliconf.Cliconf.EditConfig | plugins/cliconf/updu.py:58-83 | the method's result and the commands it sends are those of the `edit_config` specification |
| Cliconf.RespondAsWrittenDiffers | plugins/cliconf/updu.py:137-142 | as written, a connection failure raises `NameError` instead of re-raising or becoming the response |
| Cliconf.RunLoopLength | plugins/cliconf/updu.py:125-149 | the batch loop sends at most one command per input command, and when nothing is raised it has sent all of them, in order, with one response each |
| Cliconf.RunCommandsRun | plugins/cliconf/updu.py:121-149 | `run_commands`: no commands is "'commands' value is required" with nothing sent. A success sent every command in order with one response each, and no run sends more commands than it was given |
| Cliconf.RunCommandsAborts | plugins/cliconf/updu.py:130-145 | when the batch loop raises, `run_commands` reports that error |
| Cliconf.RunLoopAdvance | plugins/cliconf/updu.py:126-147 | an accepted command is sent, its response is appended, and the loop continues after it |
| Cliconf.FirstRejectedCommand | plugins/cliconf/updu.py:126-147 | the first command not accepted, with every earlier command accepted |
| Cliconf.RunLoopOutcome | plugins/cliconf/updu.py:125-149 | the commands before the first rejected one are sent once each, in order, with one response each. It raises exactly when a command is rejected, and sends the rejected command only if it has no `output` key |
| Cliconf.BatchOutcomeCons | plugins/cliconf/updu.py:126-147 | an accepted first command, prepended to the outcome of the rest, is the outcome of the whole batch |
| Cliconf.RunLoopRejectedHead | plugins/cliconf/updu.py:130-145 | a rejected first command records nothing, and is sent unless it carries an `output` key |
| Cliconf.RunLoopTolerant | plugins/cliconf/updu.py:137-142 | with `check_rc` off, a connection failure never escapes `run_commands` |
| Cliconf.RunCommandsSpec | plugins/cliconf/updu.py:121-149 | no commands: "'commands' value is required", nothing sent. Success: every command sent once, in order, each with one `ERR:`-free response (device output, or failure text with `check_rc` off). Failure: the first rejected command's error |
| Cliconf.Cliconf.RunCommands | plugins/cliconf/updu.py:121-149 | the method's result and the commands it sends are those of the `run_commands` specification |
| Cliconf.FoundKeys | plugins/cliconf/updu.py:36-37 | a key is set exactly when its search found a value, and every other key is left alone |
| Cliconf.DeviceInfoKeys | plugins/cliconf/updu.py:29-50 | the device info always has `network_os = "updu"`. It holds hostname, model and firmware version exactly when their pattern matched the stripped output, valued by group 1 of the leftmost match |
| Cliconf.InfoKeys | plugins/cliconf/updu.py:30-48 | the device-info mapping in terms of the three search results |
| Cliconf.Cliconf.GetDeviceInfo | plugins/cliconf/updu.py:29-50 | the method sends the hostname section of the configuration (`show config`, hostname section) and then `show version`, and builds the mapping of the specification |
| Cliconf.Cliconf.GetCapabilities | plugins/cliconf/updu.py:114-119 | the document adds `run_commands` to the framework's RPC list and carries the device info |
| ModuleUtils.CapabilitiesMemoised | plugins/module_utils/network/updu/updu.py:29-37 | a successful query stores the document, and a second query returns it without sending. A failed query stores nothing and fails the module. The connection is untouched |
| ModuleUtils.CapabilitiesCached | plugins/module_utils/network/updu/updu.py:30-31 | a cached document is returned as it is, whatever the plugin would now answer, and nothing is sent |
| ModuleUtils.CapabilitiesFirstQuery | plugins/module_utils/network/updu/updu.py:32-37 | on a fresh module the query sends the hostname section of the configuration (`show config`, hostname section), then `show version`. The document has the plugin's RPC list plus `run_commands`, its API, and `network_os = "updu"` |
| ModuleUtils.ConnectMemoised | plugins/module_utils/network/updu/updu.py:48-50 | once `get_connection` succeeds, calling it again succeeds, sends nothing and changes nothing |
| ModuleUtils.ConnectNeedsCliconf | plugins/module_utils/network/updu/updu.py:52-57 | a connection is made exactly when the document's network API is `cliconf`. Otherwise: "Invalid connection type", and the module is left unconnected |
| ModuleUtils.ConnectFresh | plugins/module_utils/network/updu/updu.py:48-59 | on a fresh module, connecting succeeds exactly when the device info can be read and the API is `cliconf` |
| ModuleUtils.RunCommandsStep | plugins/module_utils/network/updu/updu.py:40-45 | `run_commands` on the module: a success leaves the module connected with one response per command, and a connected module keeps its cache |
| ModuleUtils.RunCommandsForwards | plugins/module_utils/network/updu/updu.py:40-45 | on any module: a failure to connect is the result, with nothing more sent. Otherwise `commands` and `check_rc` reach the plugin unchanged after what connecting sent, the responses come back as they are, and every plugin error becomes a module failure |
| ModuleUtils.WriteConfigSendsWrite | plugins/module_utils/network/updu/updu.py:21-26 | on any module: once connected, `write` is the only command sent after what connecting sent. Its one response is returned, or its failure (connection or `ERR:`) fails the module. A failure to connect is the result |
| ModuleUtils.LoadConfigForwards | plugins/module_utils/network/updu/updu.py:17-19 | on any module: once connected, the commands go to `edit_config` with `commit=True` after what connecting sent, and an error is not caught. A failure to connect is the result |
| ModuleUtils.Module.GetCapabilities | plugins/module_utils/network/updu/updu.py:29-37 | the method's result, cache and sent commands are those of the specification, and the connection attribute is untouched |
| ModuleUtils.Module.GetConnection | plugins/module_utils/network/updu/updu.py:48-59 | the specification's result. A cached connection is returned as it is, and a new one is fresh and stored on the module |
| ModuleUtils.Module.RunCommands | plugins/module_utils/network/updu/updu.py:40-45 | the method's result, cache and sent commands are those of the specification |
| ModuleUtils.Module.WriteConfig | plugins/module_utils/network/updu/updu.py:21-26 | the method's result, cache and sent commands are those of the specification |
| ModuleUtils.Module.LoadConfig | plugins/module_utils/network/updu/updu.py:17-19 | the method's result, cache and sent commands are those of the specification |
| Facts.ResolveSubsets | plugins/modules/updu_facts.py:134-168 | the resolution loop computes the specification of subset resolution |
| Facts.FirstRejected | plugins/modules/updu_facts.py:139-157 | the first subset name that is not valid, with every earlier one valid |
| Facts.IncludedCons | plugins/modules/updu_facts.py:139-162 | the names a list includes are those its head includes plus those its tail includes |
| Facts.ExcludedCons | plugins/modules/updu_facts.py:139-162 | the names a list excludes are those its head excludes plus those its tail excludes |
| Facts.ScanItemAccepts | plugins/modules/updu_facts.py:140-162 | one valid name: `all` includes every subset, `!all` excludes every one, a `!`-name is excluded, a plain name is included |
| Facts.ScanAllSpec | plugins/modules/updu_facts.py:139-162 | the loop fails exactly at the first invalid name, or ends with every included and every excluded name collected |
| Facts.ResolveSpec | plugins/modules/updu_facts.py:134-168 | resolution fails exactly when some name is invalid, with the message naming the first one. Otherwise: (the included names, or every subset if none) minus the excluded ones, plus `default` |
| Facts.ResolvedIsDefault | plugins/modules/updu_facts.py:164-168 | a successful resolution is always exactly `{"default"}`, even when `default` was excluded |
| Facts.ResolveExamples | plugins/modules/updu_facts.py:139-168 | `["default", "!default"]` and `["!all"]` both resolve to `{"default"}`. `["all", "!bogus"]` and `["bogus", "!!default"]` fail with "got bogus" |
| Facts.PlatformFactsOf | plugins/modules/updu_facts.py:98-114 | the loop over the three items computes the `platform_facts` specification |
| Facts.CopyItemsKeys | plugins/modules/updu_facts.py:106-109 | an item is added exactly when its `network_os_` value is present and non-empty, copied as it is, and other keys are kept |
| Facts.PlatformFactsSpec | plugins/modules/updu_facts.py:98-114 | fails only without `network_os`. Otherwise holds `system`, `api` and `python_version`, plus `model`, `version`, `hostname` exactly when present and non-empty, and nothing else |
| Facts.PublishedInjective | plugins/modules/updu_facts.py:183 | prefixing with `ansible_net_` never merges two keys |
| Facts.NamespacedIs | plugins/modules/updu_facts.py:181-184 | a map with exactly the prefixed keys, each holding its fact's value, is the published map |
| Facts.NamespaceFacts | plugins/modules/updu_facts.py:181-184 | the loop publishes every fact under its prefixed key with its value unchanged, and adds nothing |
| Facts.NamespacedAt | plugins/modules/updu_facts.py:182-184 | one fact, published under its prefixed key with its value |
| Facts.NamespacedSpec | plugins/modules/updu_facts.py:181-184 | every fact is kept under `ansible_net_` plus its key, and every published key is a prefixed fact key |
| Facts.Default.Populate | plugins/modules/updu_facts.py:74-77 | runs `show version` with `check_rc=False`, stores the responses, then merges the platform facts (plugins/modules/updu_facts.py:94-96) |
| Facts.NewDefault | plugins/modules/updu_facts.py:68-72 | a new collector with no facts or responses, holding the module's capability document, which it reads first |
| Facts.Publish | plugins/modules/updu_facts.py:170-186 | the collector's run, the merge with `gather_subset` and the namespacing compute the specification's stage |
| Facts.GatherFacts | plugins/modules/updu_facts.py:124-186 | the module run's result, cache and sent commands are those of the specification |
| Facts.PublishSpec | plugins/modules/updu_facts.py:170-186 | the published facts carry the `ansible_net_` prefix on every key, with `gather_subset`, `python_version`, `api` and `system` holding their values |
| Facts.PopulateRunSpec | plugins/modules/updu_facts.py:94-114 | a missing-key failure happens only without `network_os`. Success publishes those facts, and on an unconnected module it needs the document's API to be `cliconf` |
| Facts.GatherFactsSpec | plugins/modules/updu_facts.py:124-186 | fails with the subset message exactly when resolution fails, sending nothing. Success: prefixed keys, `gather_subset = {"default"}`, the given `python_version`, and `api = "cliconf"` when the module was not yet connected |
| Facts.GatherFactsFresh | plugins/modules/updu_facts.py:101-104 | on a fresh module the run never fails for a missing key, and publishes `system = "updu"` |
| Commands.JoinTabFree | plugins/modules/updu_commands.py:88 | joining tab-free lines with `\n` yields a tab-free string |
| Commands.ToLines | plugins/modules/updu_commands.py:85-89 | `to_lines`: one element per item, a non-string item passed on unchanged, and a string turned into a non-empty list of lines |
| Commands.ToLinesSpec | plugins/modules/updu_commands.py:85-89 | one element per item, in order. Non-strings unchanged. A string becomes a non-empty list of lines without tab or newline, which join back to the string with tabs widened |
| Commands.ToLinesJoin | plugins/modules/updu_commands.py:88 | lines free of tabs and newlines, joined with `\n`, are split back into exactly those lines |
| Commands.RunModule | plugins/modules/updu_commands.py:92-127 | the module run's result, cache and sent commands are those of the specification |
| Commands.OneCommandOneResponse | plugins/cliconf/updu.py:125-149 | a one-command batch sends that command and, on success, returns exactly one response |
| Commands.CommandsBranch | plugins/modules/updu_commands.py:107-116 | with `commands` given: failure exactly when `run_commands` fails. Success: `changed`, no warnings, `stdout` the response list, and one `to_lines` entry per response |
| Commands.CommandBranch | plugins/modules/updu_commands.py:117-125 | without `commands`, on any module: a failure to connect is the result. Once connected, no `command` fails with "'commands' value is required". One `command` sends just that line after what connecting sent and never hits `responses[0]` of an empty list. It succeeds exactly when the device's reply is output free of `ERR:`, with `stdout` that output and `stdout_lines` the unsplit list. Otherwise it fails with the connection failure or the device error |

## Left out

- Command mappings are assumed well formed. A candidate line of
  `edit_config` or a command of `run_commands` that is a mapping is assumed
  to carry a `command` key and only the keys `Command` models (`prompt`,
  `answer`, `sendonly`, `newline`, `check_all`, `output`). So the `KeyError`
  that `line["command"]` raises for a `raw` config item without `command`
  (plugins/modules/updu_config.py:62, plugins/cliconf/updu.py:67) is not
  modelled, and neither is an unknown key reaching `send_command`.
  `edit_config` does not check `output` (plugins/cliconf/updu.py:70): the
  model sends such a line like any other, and what the framework's
  `send_command` then does with the key is not modelled.
- The terminal plugin (`plugins/terminal/updu.py`): its prompt and error
  regexes belong to the framework's terminal handling. The transport is an
  oracle here, so it is not part of this model.
- The `updu_config` module: a thin wrapper that echoes `config` into
  `result['commands']` and calls `load_config`. `ModuleUtils.Module.LoadConfig`
  models that call.
- `get_config` (plugins/cliconf/updu.py:53-55): it only sends `show config`,
  and it is not used by the modelled code.
- `get_device_operations` and `get_option_values`: constant dictionaries
  that are merged into the capability document. They are left out of
  `Capabilities`.
- JSON encoding and decoding of the document: the model passes the decoded
  value. `network_api` is always set by the framework, so a missing value
  (`None`) stands for JSON `null`.
- Bytes and `to_text` decoding: commands and replies are strings.
- Regular expressions: only the shape the three patterns of
  `get_device_info` share (optional `^`, a literal, `\s` or `\s+`, then
  `(\S+)`) is written out, as a scanner. Its whitespace is the set Python's
  `str.isspace` uses; a general regular-expression engine is not modelled.
- Sets and dictionaries are unordered here: `list(runable_subsets)` becomes
  a set, and the order of dictionary keys is not modelled.
- Exception messages are not modelled as text. An error keeps its structured
  cause (`DeviceError(command, response)` for `[{cmd}] {out}`), and
  `to_text(exc)` in `fail_json` is not modelled.
- The RPC boundary is not modelled. Any plugin exception reaches the module
  as `ConnectionError`, and the model carries the plugin's error inside the
  module failure.
- `FactsBase.run` (plugins/modules/updu_facts.py:79-80) is dead code: it
  calls `run_commands` without the module argument and is never called.
- `platform.python_version()` is an input of the facts model.
- The collector loops in the facts module's `main` run over the resolved
  set. That set is always `{"default"}`, so the model runs one `Default`
  collector.
- Argument parsing by `AnsibleModule` is not modelled: types, defaults such
  as `gather_subset=["default"]`, and `supports_check_mode`. The model takes
  the parsed parameters.
- The socket, timeouts and concurrency of the persistent connection are not
  modelled.
- Facts.GatherFactsSpec: states `api = "cliconf"` only for a module that
  was not yet connected. For an already connected module the model's cache
  does not record that the connection was checked.

## Findings

| source | as written | input that shows it | evidently intended | confidence | as-written member | corrected member |
|---|---|---|---|---|---|---|
| plugins/cliconf/updu.py:139 | `except AnsibleConnectionFailure` names a class the plugin never imports, so the `except` clause raises `NameError` on any connection failure | `run_commands(["show version"], check_rc=False)` while the transport reports a connection failure "timeout" | with `check_rc` false the failure's text becomes the response; with it true the connection failure is re-raised (`RunLoopTolerant`) | high, not executed | Cliconf.RespondAsWritten | Cliconf.Respond |
