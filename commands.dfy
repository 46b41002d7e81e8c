/**
 * The `updu_commands` module: it runs either a list of commands or a single
 * command through the module-side `run_commands` (with `check_rc` on) and
 * shapes the responses into `stdout` and `stdout_lines`.
 */
module Commands {
  import opened Wrappers
  import opened Text
  import opened Transport
  import opened Cliconf
  import opened ModuleUtils

  /**
   * A value `to_lines` may meet: a string, a list of strings, or any other
   * object, which it passes on without looking at it.
   */
  datatype Value = Str(s: string) | List(items: seq<string>) | Opaque(id: int)

  /** One item of `to_lines`: a string has its tabs widened and is split at `\n`; anything else is kept. */
  function LinesOf(v: Value): Value {
    if v.Str? then List(Split(ReplaceTabs(v.s), '\n')) else v
  }

  /** `to_lines(stdout)`, as the list `list(to_lines(...))` makes of it. */
  function ToLines(stdout: seq<Value>): (r: seq<Value>)
    ensures |r| == |stdout|
    ensures forall i :: 0 <= i < |stdout| && !stdout[i].Str? ==> r[i] == stdout[i]
    ensures forall i :: 0 <= i < |stdout| && stdout[i].Str? ==> r[i].List? && |r[i].items| >= 1
  {
    seq(|stdout|, i requires 0 <= i < |stdout| => LinesOf(stdout[i]))
  }

  /** The responses as the string values they are. */
  function Strs(responses: seq<string>): seq<Value> {
    seq(|responses|, i requires 0 <= i < |responses| => Str(responses[i]))
  }

  /** No tab in any part and none as separator: none in the joined string. */
  lemma {:induction false} JoinTabFree(parts: seq<string>)
    requires forall i :: 0 <= i < |parts| ==> '\t' !in parts[i]
    ensures '\t' !in Join(parts, '\n')
    decreases |parts|
  {
    if |parts| > 1 {
      JoinTabFree(parts[1..]);
      assert Join(parts, '\n') == parts[0] + ['\n'] + Join(parts[1..], '\n');
    }
  }

  /**
   * `to_lines` yields one element per item, in order. A non-string item is
   * passed on unchanged. A string item becomes a non-empty list of lines
   * none of which holds a tab or a newline, and joining them with `\n`
   * gives the string with every tab widened to four spaces (so a tab-free
   * string comes back exactly).
   */
  lemma {:induction false} ToLinesSpec(stdout: seq<Value>)
    ensures |ToLines(stdout)| == |stdout|
    ensures forall i :: 0 <= i < |stdout| && !stdout[i].Str? ==> ToLines(stdout)[i] == stdout[i]
    ensures forall i :: 0 <= i < |stdout| && stdout[i].Str? ==>
      var lines := ToLines(stdout)[i];
      && lines.List? && |lines.items| >= 1
      && (forall j :: 0 <= j < |lines.items| ==> '\t' !in lines.items[j] && '\n' !in lines.items[j])
      && Join(lines.items, '\n') == ReplaceTabs(stdout[i].s)
      && ('\t' !in stdout[i].s ==> Join(lines.items, '\n') == stdout[i].s)
  {
    forall i | 0 <= i < |stdout| && stdout[i].Str?
      ensures var lines := ToLines(stdout)[i];
        && lines.List? && |lines.items| >= 1
        && (forall j :: 0 <= j < |lines.items| ==> '\t' !in lines.items[j] && '\n' !in lines.items[j])
        && Join(lines.items, '\n') == ReplaceTabs(stdout[i].s)
        && ('\t' !in stdout[i].s ==> Join(lines.items, '\n') == stdout[i].s)
    {
      var t := ReplaceTabs(stdout[i].s);
      JoinSplit(t, '\n');
      ReplaceTabsTabFree(stdout[i].s);
      forall j | 0 <= j < |Split(t, '\n')|
        ensures '\t' !in Split(t, '\n')[j]
      {
        assert CharsFrom(Split(t, '\n')[j], t);
      }
    }
  }

  /**
   * The round trip the other way: lines free of tabs and newlines, joined
   * with `\n`, are split by `to_lines` back into exactly those lines.
   */
  lemma {:induction false} ToLinesJoin(lines: seq<string>)
    requires |lines| >= 1
    requires forall j :: 0 <= j < |lines| ==> '\t' !in lines[j] && '\n' !in lines[j]
    ensures LinesOf(Str(Join(lines, '\n'))) == List(lines)
  {
    JoinTabFree(lines);
    ReplaceTabsTabFree(Join(lines, '\n'));
    SplitJoin(lines, '\n');
  }

  // ---------------------------------------------------------------------------
  // main

  /** The result dictionary `main` hands to `exit_json`. */
  datatype CommandsResult = CommandsResult(changed: bool, stdout: Value, stdoutLines: seq<Value>, warnings: seq<string>)

  /** How `main` can end without `exit_json`: a `fail_json`, or `responses[0]` of an empty list (`IndexError`). */
  datatype CommandsFailure = ModuleFailed(failure: ModuleFailure) | NoResponse

  /** The outcome of `main`: its result, the module's cache, and the commands sent. */
  datatype ModuleRun = ModuleRun(result: Result<CommandsResult, CommandsFailure>, cache: Cache, sent: seq<Command>)

  /** `if commands:`, Python truthiness of an optional list. */
  predicate Given(commands: Option<seq<Command>>) {
    commands.Some? && commands.value != []
  }

  /** What the single-command branch hands to `run_commands`: `command` itself, which `to_list` wraps. */
  function SingleCommand(command: Option<string>): Option<seq<Command>> {
    if command.Some? then Some([Line(command.value)]) else None
  }

  /** `main()` of the commands module, on a module object with cache `c`, the plugin's history being `h`. */
  function CommandsModuleRun(p: Plugin, c: Cache, commands: Option<seq<Command>>, command: Option<string>, h: seq<Command>)
    : ModuleRun
  {
    if Given(commands) then
      var a := RunCommandsStep(p, c, commands, true, h);
      match a.result
      case Failure(e) => ModuleRun(Failure(ModuleFailed(e)), a.cache, a.sent)
      case Success(responses) =>
        ModuleRun(Success(CommandsResult(true, List(responses), ToLines(Strs(responses)), [])), a.cache, a.sent)
    else
      var a := RunCommandsStep(p, c, SingleCommand(command), true, h);
      match a.result
      case Failure(e) => ModuleRun(Failure(ModuleFailed(e)), a.cache, a.sent)
      case Success(responses) =>
        if responses == [] then ModuleRun(Failure(NoResponse), a.cache, a.sent)
        else ModuleRun(Success(CommandsResult(true, Str(responses[0]), Strs(responses), [])), a.cache, a.sent)
  }

  /** `main()`: run the commands and build the result dictionary. */
  method RunModule(owner: Module, commands: Option<seq<Command>>, command: Option<string>)
    returns (r: Result<CommandsResult, CommandsFailure>)
    requires owner.Valid()
    modifies owner, owner.plugin.session
    ensures owner.Valid()
    ensures var x := CommandsModuleRun(owner.View(), old(owner.CacheState()), commands, command, old(owner.plugin.session.sent));
      && r == x.result && owner.CacheState() == x.cache
      && owner.plugin.session.sent == old(owner.plugin.session.sent) + x.sent
  {
    if commands.Some? && commands.value != [] {
      var responses := owner.RunCommands(commands, true);
      if responses.Failure? {
        return Failure(ModuleFailed(responses.error));
      }
      r := Success(CommandsResult(true, List(responses.value), ToLines(Strs(responses.value)), []));
    } else {
      var responses := owner.RunCommands(SingleCommand(command), true);
      if responses.Failure? {
        return Failure(ModuleFailed(responses.error));
      }
      if responses.value == [] {
        return Failure(NoResponse);
      }
      r := Success(CommandsResult(true, Str(responses.value[0]), Strs(responses.value), []));
    }
  }

  // ---------------------------------------------------------------------------
  // Properties of main

  /** A one-command batch sends that command, and when it succeeds it yields exactly one response. */
  lemma {:induction false} OneCommandOneResponse(device: Device, h: seq<Command>, cmd: Command, checkRc: bool)
    requires cmd.output == ""
    ensures var x := RunCommandsRun(device, h, Some([cmd]), checkRc);
      && x.sent == [cmd]
      && (x.result.Success? ==> |x.result.value| == 1)
  {
    assert [cmd][0] == cmd && [cmd][1..] == [];
    assert RunLoop(device, h + [cmd], [], checkRc) == Batch([], [], None);
  }

  /**
   * With `commands` given, `main` is `run_commands(module, commands)` with
   * `check_rc` on: it fails exactly when that call fails, and otherwise
   * reports a change, the response list as `stdout` and, as `stdout_lines`,
   * one list of lines per response: free of tabs and newlines, and joining
   * back into the response with its tabs widened.
   */
  lemma {:induction false} CommandsBranch(p: Plugin, c: Cache, commands: Option<seq<Command>>, command: Option<string>, h: seq<Command>)
    requires Given(commands)
    ensures var x := CommandsModuleRun(p, c, commands, command, h);
      var a := RunCommandsStep(p, c, commands, true, h);
      && x.cache == a.cache && x.sent == a.sent
      && (x.result.Success? <==> a.result.Success?)
      && (a.result.Failure? ==> x.result.error == ModuleFailed(a.result.error))
      && (a.result.Success? ==>
            && x.result.value.changed && x.result.value.warnings == []
            && x.result.value.stdout == List(a.result.value)
            && |x.result.value.stdoutLines| == |a.result.value|
            && (forall i :: 0 <= i < |a.result.value| ==>
                  var lines := x.result.value.stdoutLines[i];
                  && lines.List?
                  && (forall j :: 0 <= j < |lines.items| ==> '\t' !in lines.items[j] && '\n' !in lines.items[j])
                  && Join(lines.items, '\n') == ReplaceTabs(a.result.value[i])))
  {
    var a := RunCommandsStep(p, c, commands, true, h);
    if a.result.Success? {
      ToLinesSpec(Strs(a.result.value));
    }
  }

  /**
   * With no `commands`, `main` runs the single `command`. It first gets the
   * connection, and a failure there is the result. Once connected, without a
   * `command` it fails with "'commands' value is required" and sends nothing
   * more. With one it sends just that line and never fails on
   * `responses[0]`. It succeeds exactly when the device answers with output
   * free of `ERR:`, and then reports a change with that output as `stdout`
   * and the unsplit response list as `stdout_lines`. Otherwise it fails with
   * the connection failure or the device error.
   */
  lemma {:induction false} CommandBranch(p: Plugin, c: Cache, commands: Option<seq<Command>>, command: Option<string>, h: seq<Command>)
    requires !Given(commands)
    ensures var x := CommandsModuleRun(p, c, commands, command, h);
      var s := ConnectStep(p, c, h);
      && x.cache == s.cache
      && x.result != Failure(NoResponse)
      && (s.result.Failure? ==> x == ModuleRun(Failure(ModuleFailed(s.result.error)), s.cache, s.sent))
      && (command.None? ==> x.result.Failure?)
      && (command.None? && s.result.Success? ==> x == ModuleRun(Failure(ModuleFailed(Failed(CommandsRequired))), s.cache, s.sent))
      && (command.Some? && s.result.Success? ==>
            var cmd := Line(command.value);
            var reply := p.device(h + s.sent, cmd);
            && x.sent == s.sent + [cmd]
            && (x.result.Success? <==> reply.Output? && !HasErrMarker(reply.text))
            && (x.result.Success? ==> x.result.value.stdout == Str(reply.text) && x.result.value.stdoutLines == [Str(reply.text)])
            && (reply.ConnFailure? ==> x.result == Failure(ModuleFailed(Failed(ConnectionFailure(reply.err)))))
            && (reply.Output? && HasErrMarker(reply.text) ==>
                  x.result == Failure(ModuleFailed(Failed(DeviceError(command.value, reply.text))))))
      && (x.result.Success? ==>
            && command.Some?
            && x.result.value.changed && x.result.value.warnings == []
            && x.result.value.stdoutLines == [x.result.value.stdout] && x.result.value.stdout.Str?)
  {
    var s := ConnectStep(p, c, h);
    RunCommandsForwards(p, c, SingleCommand(command), true, h);
    if command.Some? && s.result.Success? {
      var cmd := Line(command.value);
      OneCommandOneResponse(p.device, h + s.sent, cmd, true);
      assert [cmd][1..] == [];
      assert RunLoop(p.device, h + s.sent + [cmd], [], true) == Batch([], [], None);
    }
  }
}
