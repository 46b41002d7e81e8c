/**
 * The device-side `Cliconf` plugin: the configuration sequencer
 * (`edit_config`), the command batcher (`run_commands`), the single-command
 * `get`, device-info scraping (`get_device_info`) and the capability document
 * (`get_capabilities`). Every operation is a method of the plugin object and is
 * proved against a specification function over the transport's reply oracle;
 * the lemmas below characterise those functions completely.
 */
module Cliconf {
  import opened Wrappers
  import opened Text
  import opened Transport
  import opened Scanner

  /** The exceptions the plugin raises. */
  datatype CliError =
    | ConnectionFailure(err: string)                 // the transport's connection failure, propagated
    | DeviceError(command: string, response: string) // `Exception("[cmd] res")`: the reply held `ERR:`
    | CheckModeUnsupported                           // `ValueError`: edit_config with commit=False
    | CommandsRequired                               // `ValueError`: run_commands with commands=None
    | OutputUnsupported(output: string)              // `ValueError`: a command mapping with an `output` key
    | EmptyCommand                                   // `IndexError`: `cmd[0]` of an empty candidate line
    | NameError(name: string)                        // evaluating an undefined name (see RespondAsWritten)

  /** What `edit_config` returns: `resp["request"]` and `resp["response"]`. */
  datatype ConfigResponse = ConfigResponse(request: seq<string>, response: seq<string>)

  /** The decoded capability document; device operations and option values are left out. */
  datatype Capabilities = Capabilities(rpc: seq<string>, networkApi: Option<string>, deviceInfo: map<string, string>)

  type Device = (seq<Command>, Command) -> Reply

  const Configure: Command := Line("configure")
  const End: Command := Line("end")
  const ShowHostname: Command := Line("show config | section hostname")
  const ShowVersion: Command := Line("show version")

  /** `[c.text for c in cs]` */
  function Texts(cs: seq<Command>): (r: seq<string>)
    ensures |r| == |cs| && forall i :: 0 <= i < |cs| ==> r[i] == cs[i].text
  {
    if cs == [] then [] else [cs[0].text] + Texts(cs[1..])
  }

  // ---------------------------------------------------------------------------
  // get

  /** How `get` and `edit_config` treat a reply: connection failures propagate, `ERR:` raises. */
  function Checked(c: Command, reply: Reply): Result<string, CliError> {
    match reply
    case ConnFailure(e) => Failure(ConnectionFailure(e))
    case Output(res) => if HasErrMarker(res) then Failure(DeviceError(c.text, res)) else Success(res)
  }

  // ---------------------------------------------------------------------------
  // edit_config

  /** A candidate line `edit_config` skips without sending: the `end` keyword or a `#` comment. */
  predicate Skipped(c: Command) {
    c.text == "end" || (c.text != "" && c.text[0] == '#')
  }

  /** A candidate line `edit_config` sends. (An empty line is neither: it raises.) */
  predicate Applicable(c: Command) {
    c.text != "" && !Skipped(c)
  }

  /** The candidate lines `edit_config` sends, in input order. */
  function Filter(lines: seq<Command>): (r: seq<Command>)
    ensures |r| <= |lines|
    ensures forall i :: 0 <= i < |r| ==> Applicable(r[i])
    ensures forall c :: c in r <==> c in lines && Applicable(c)
  {
    if lines == [] then []
    else (if Applicable(lines[0]) then [lines[0]] else []) + Filter(lines[1..])
  }

  lemma {:induction false} FilterAppend(a: seq<Command>, b: seq<Command>)
    ensures Filter(a + b) == Filter(a) + Filter(b)
  {
    if a != [] {
      assert (a + b)[0] == a[0];
      assert (a + b)[1..] == a[1..] + b;
      FilterAppend(a[1..], b);
      var x := if Applicable(a[0]) then [a[0]] else [];
      calc {
        Filter(a + b);
        x + Filter(a[1..] + b);
        x + (Filter(a[1..]) + Filter(b));
        (x + Filter(a[1..])) + Filter(b);
        Filter(a) + Filter(b);
      }
    } else {
      assert a + b == b;
    }
  }

  /** What the candidate loop did: commands sent, the two recorded lists, and the exception, if any. */
  datatype Pass = Pass(sent: seq<Command>, request: seq<string>, response: seq<string>, error: Option<CliError>)

  function Prepend(sent: seq<Command>, request: seq<string>, response: seq<string>, p: Pass): Pass {
    Pass(sent + p.sent, request + p.request, response + p.response, p.error)
  }

  /** The loop of `edit_config` over the candidate lines, starting after history `h`. */
  function ApplyLines(device: Device, h: seq<Command>, lines: seq<Command>): Pass
    decreases |lines|
  {
    if lines == [] then Pass([], [], [], None)
    else
      var c := lines[0];
      if c.text == "end" then ApplyLines(device, h, lines[1..])
      else if c.text == "" then Pass([], [], [], Some(EmptyCommand))
      else if c.text[0] == '#' then ApplyLines(device, h, lines[1..])
      else match Checked(c, device(h, c))
        case Failure(e) => Pass([c], [], [], Some(e))
        case Success(res) =>
          Prepend([c], [c.text], [res], ApplyLines(device, h + [c], lines[1..]))
  }

  lemma {:induction false} PrependAssoc(s1: seq<Command>, q1: seq<string>, r1: seq<string>,
                                        s2: seq<Command>, q2: seq<string>, r2: seq<string>, p: Pass)
    ensures Prepend(s1, q1, r1, Prepend(s2, q2, r2, p)) == Prepend(s1 + s2, q1 + q2, r1 + r2, p)
  {
    assert s1 + (s2 + p.sent) == (s1 + s2) + p.sent;
    assert q1 + (q2 + p.request) == (q1 + q2) + p.request;
    assert r1 + (r2 + p.response) == (r1 + r2) + p.response;
  }

  /** One applicable line the device accepts: it is sent, recorded, and the loop goes on with the rest. */
  lemma {:induction false} ApplyLinesAdvance(device: Device, h: seq<Command>, lines: seq<Command>, res: string)
    requires lines != [] && Applicable(lines[0])
    requires device(h, lines[0]) == Output(res) && !HasErrMarker(res)
    ensures ApplyLines(device, h, lines)
         == Prepend([lines[0]], [lines[0].text], [res], ApplyLines(device, h + [lines[0]], lines[1..]))
  {
  }

  /** `edit_config(candidate, commit)` on a session whose history is `h`. */
  function EditConfigRun(device: Device, h: seq<Command>, candidate: seq<Command>, commit: bool)
    : (r: Exchange<ConfigResponse, CliError>)
    ensures !commit ==> r.result.Failure? && r.sent == []
    ensures commit ==> |r.sent| >= 1 && r.sent[0] == Configure
    ensures r.result.Success? ==> |r.sent| >= 2 && r.sent[|r.sent| - 1] == End
  {
    if !commit then Exchange(Failure(CheckModeUnsupported), [])
    else match device(h, Configure)
      case ConnFailure(e) => Exchange(Failure(ConnectionFailure(e)), [Configure])
      case Output(_) =>
        var p := ApplyLines(device, h + [Configure], candidate);
        if p.error.Some? then Exchange(Failure(p.error.value), [Configure] + p.sent)
        else match device(h + [Configure] + p.sent, End)
          case ConnFailure(e) => Exchange(Failure(ConnectionFailure(e)), [Configure] + p.sent + [End])
          case Output(_) => Exchange(Success(ConfigResponse(p.request, p.response)), [Configure] + p.sent + [End])
  }

  /** The candidate loop raised `e` after sending `done + s`: `edit_config` reports `e` and does not send `end`. */
  lemma {:induction false} EditConfigAborts(device: Device, h: seq<Command>, candidate: seq<Command>,
                                            done: seq<Command>, q: seq<string>, r: seq<string>, s: seq<Command>, e: CliError)
    requires device(h, Configure).Output?
    requires ApplyLines(device, h + [Configure], candidate) == Prepend(done, q, r, Pass(s, [], [], Some(e)))
    ensures EditConfigRun(device, h, candidate, true) == Exchange(Failure(e), [Configure] + done + s)
    ensures h + EditConfigRun(device, h, candidate, true).sent == h + [Configure] + done + s
  {
    Assoc([Configure], done, s);
    Assoc(h, [Configure] + done, s);
    Assoc(h, [Configure], done);
  }

  /** The candidate loop finished having sent `done`: `edit_config` sends `end` and reports the two lists. */
  lemma {:induction false} EditConfigCompletes(device: Device, h: seq<Command>, candidate: seq<Command>,
                                               done: seq<Command>, q: seq<string>, r: seq<string>)
    requires device(h, Configure).Output?
    requires ApplyLines(device, h + [Configure], candidate) == Pass(done, q, r, None)
    ensures var x := EditConfigRun(device, h, candidate, true);
      && x.sent == [Configure] + done + [End]
      && h + x.sent == h + [Configure] + done + [End]
      && x.result == match device(h + [Configure] + done, End)
           case ConnFailure(e) => Failure(ConnectionFailure(e))
           case Output(_) => Success(ConfigResponse(q, r))
  {
    Assoc(h, [Configure] + done, [End]);
    Assoc(h, [Configure], done);
  }

  /** Candidate line `j` goes through: it is skipped, or it is sent and its reply is accepted. */
  predicate LineAccepted(device: Device, h: seq<Command>, lines: seq<Command>, j: nat)
    requires j < |lines|
  {
    Skipped(lines[j])
    || (lines[j].text != "" && Checked(lines[j], device(h + Filter(lines[..j]), lines[j])).Success?)
  }

  /** The exception a rejected line raises, given the history before it. */
  function LineError(device: Device, hj: seq<Command>, c: Command): CliError {
    if c.text == "" then EmptyCommand
    else match Checked(c, device(hj, c))
      case Failure(e) => e
      case Success(_) => EmptyCommand
  }

  /** The first candidate line at or after `from` that is not accepted, or `|lines|`. */
  function FirstRejectedLine(device: Device, h: seq<Command>, lines: seq<Command>, from: nat): (k: nat)
    requires from <= |lines|
    requires forall j :: 0 <= j < from ==> LineAccepted(device, h, lines, j)
    ensures from <= k <= |lines|
    ensures forall j :: 0 <= j < k ==> LineAccepted(device, h, lines, j)
    ensures k < |lines| ==> !LineAccepted(device, h, lines, k)
    decreases |lines| - from
  {
    if from == |lines| || !LineAccepted(device, h, lines, from) then from
    else FirstRejectedLine(device, h, lines, from + 1)
  }

  lemma {:induction false} FilterHead(lines: seq<Command>, j: nat)
    requires 0 < j <= |lines|
    ensures Filter(lines[..j]) == Filter([lines[0]]) + Filter(lines[1..][..j - 1])
  {
    assert lines[..j] == [lines[0]] + lines[1..][..j - 1];
    FilterAppend([lines[0]], lines[1..][..j - 1]);
  }

  /** Acceptance of line `j + 1` is acceptance of line `j` of the tail, after the head's effect on the history. */
  lemma {:induction false} AcceptedShift(device: Device, h: seq<Command>, lines: seq<Command>, j: nat)
    requires j + 1 < |lines|
    ensures LineAccepted(device, h, lines, j + 1)
        == LineAccepted(device, h + Filter([lines[0]]), lines[1..], j)
  {
    FilterHead(lines, j + 1);
    assert h + Filter(lines[..j + 1]) == (h + Filter([lines[0]])) + Filter(lines[1..][..j]);
  }

  /** If every line is accepted, every applicable line is sent and recorded, in order. */
  lemma {:induction false} ApplyLinesAccepted(device: Device, h: seq<Command>, lines: seq<Command>)
    requires forall j :: 0 <= j < |lines| ==> LineAccepted(device, h, lines, j)
    ensures ApplyLines(device, h, lines).error.None?
    ensures ApplyLines(device, h, lines).sent == Filter(lines)
    ensures ApplyLines(device, h, lines).request == Texts(Filter(lines))
    decreases |lines|
  {
    if lines != [] {
      var c := lines[0];
      assert LineAccepted(device, h, lines, 0);
      assert lines[..0] == [];
      var h' := h + Filter([c]);
      forall j | 0 <= j < |lines[1..]|
        ensures LineAccepted(device, h', lines[1..], j)
      {
        assert LineAccepted(device, h, lines, j + 1);
        AcceptedShift(device, h, lines, j);
      }
      ApplyLinesAccepted(device, h', lines[1..]);
      assert h + Filter(lines[..0]) == h;
      if Applicable(c) {
        assert Filter([c]) == [c];
        assert Checked(c, device(h, c)).Success?;
        assert Filter(lines) == [c] + Filter(lines[1..]);
      } else {
        assert Filter([c]) == [];
        assert h' == h;
      }
    }
  }

  /** The response `edit_config` records for a candidate line: its reply when the line is sent and accepted. */
  function Recorded(c: Command, reply: Reply): seq<string> {
    if Applicable(c) && Checked(c, reply).Success? then [Checked(c, reply).value] else []
  }

  /** The first line rejected: an empty line raises before anything is sent, any other is sent and raises. */
  lemma {:induction false} RejectedHead(device: Device, h: seq<Command>, lines: seq<Command>)
    requires lines != []
    requires !LineAccepted(device, h, lines, 0)
    ensures ApplyLines(device, h, lines).error == Some(LineError(device, h, lines[0]))
    ensures ApplyLines(device, h, lines).sent == (if lines[0].text == "" then [] else [lines[0]])
    ensures ApplyLines(device, h, lines).request == []
  {
    assert lines[..0] == [];
    assert h + Filter(lines[..0]) == h;
  }

  /** An accepted first line: skipped lines leave no trace, a sent one is recorded with its reply. */
  lemma {:induction false} AcceptedHead(device: Device, h: seq<Command>, lines: seq<Command>)
    requires lines != []
    requires LineAccepted(device, h, lines, 0)
    ensures var c := lines[0];
      ApplyLines(device, h, lines)
      == Prepend(Filter([c]), Texts(Filter([c])), Recorded(c, device(h, c)),
                 ApplyLines(device, h + Filter([c]), lines[1..]))
  {
    var c := lines[0];
    assert lines[..0] == [];
    assert h + Filter(lines[..0]) == h;
    if Applicable(c) {
      assert Filter([c]) == [c];
    } else {
      assert Filter([c]) == [];
      assert h + [] == h;
      var p := ApplyLines(device, h, lines[1..]);
      assert Prepend([], [], [], p) == p;
    }
  }

  /** If line `k` is the first one rejected, the lines before it went through and nothing after it is sent. */
  lemma {:induction false} ApplyLinesRejected(device: Device, h: seq<Command>, lines: seq<Command>, k: nat)
    requires k < |lines|
    requires forall j :: 0 <= j < k ==> LineAccepted(device, h, lines, j)
    requires !LineAccepted(device, h, lines, k)
    ensures ApplyLines(device, h, lines).error == Some(LineError(device, h + Filter(lines[..k]), lines[k]))
    ensures ApplyLines(device, h, lines).sent
         == Filter(lines[..k]) + (if lines[k].text == "" then [] else [lines[k]])
    ensures ApplyLines(device, h, lines).request == Texts(Filter(lines[..k]))
    decreases k
  {
    if k == 0 {
      RejectedHead(device, h, lines);
      assert lines[..0] == [];
      assert h + Filter(lines[..0]) == h;
    } else {
      var c, t := lines[0], lines[1..];
      var h' := h + Filter([c]);
      var q := ApplyLines(device, h', t);
      assert ApplyLines(device, h, lines) == Prepend(Filter([c]), Texts(Filter([c])), Recorded(c, device(h, c)), q) by {
        assert LineAccepted(device, h, lines, 0);
        AcceptedHead(device, h, lines);
      }
      assert forall j :: 0 <= j < k - 1 ==> LineAccepted(device, h', t, j) by {
        forall j | 0 <= j < k - 1
          ensures LineAccepted(device, h', t, j)
        {
          assert LineAccepted(device, h, lines, j + 1);
          AcceptedShift(device, h, lines, j);
        }
      }
      assert !LineAccepted(device, h', t, k - 1) by {
        AcceptedShift(device, h, lines, k - 1);
      }
      ApplyLinesRejected(device, h', t, k - 1);
      assert Filter(lines[..k]) == Filter([c]) + Filter(t[..k - 1]) by {
        FilterHead(lines, k);
      }
      assert t[k - 1] == lines[k];
      var f1, f2 := Filter([c]), Filter(t[..k - 1]);
      Assoc(h, f1, f2);
      Assoc(f1, f2, if lines[k].text == "" then [] else [lines[k]]);
      TextsAppend(f1, f2);
    }
  }

  lemma Assoc<T>(a: seq<T>, b: seq<T>, c: seq<T>)
    ensures a + (b + c) == (a + b) + c
  {
  }

  lemma {:induction false} TextsAppend(a: seq<Command>, b: seq<Command>)
    ensures Texts(a + b) == Texts(a) + Texts(b)
  {
  }

  /** Whatever happens, the two recorded lists run in parallel: request `i` is sent command `i`'s text and response `i` its accepted reply. */
  lemma {:induction false} ApplyLinesPaired(device: Device, h: seq<Command>, lines: seq<Command>)
    ensures var p := ApplyLines(device, h, lines);
      && |p.request| == |p.response| <= |p.sent|
      && (p.error.None? ==> |p.request| == |p.sent|)
      && (forall i :: 0 <= i < |p.sent| ==> Applicable(p.sent[i]))
      && (forall i :: 0 <= i < |p.request| ==>
            p.request[i] == p.sent[i].text
            && device(h + p.sent[..i], p.sent[i]) == Output(p.response[i])
            && !HasErrMarker(p.response[i]))
    decreases |lines|
  {
    if lines != [] {
      var c := lines[0];
      if c.text == "end" || (c.text != "" && c.text[0] == '#') {
        ApplyLinesPaired(device, h, lines[1..]);
      } else if c.text != "" && Checked(c, device(h, c)).Success? {
        var rest := ApplyLines(device, h + [c], lines[1..]);
        ApplyLinesPaired(device, h + [c], lines[1..]);
        var p := ApplyLines(device, h, lines);
        assert p.sent == [c] + rest.sent;
        forall i | 0 <= i < |p.request|
          ensures p.request[i] == p.sent[i].text
          ensures device(h + p.sent[..i], p.sent[i]) == Output(p.response[i])
          ensures !HasErrMarker(p.response[i])
        {
          if i == 0 {
            assert h + p.sent[..0] == h;
          } else {
            assert p.sent[..i] == [c] + rest.sent[..i - 1];
            assert h + p.sent[..i] == (h + [c]) + rest.sent[..i - 1];
            assert p.sent[i] == rest.sent[i - 1];
            assert p.response[i] == rest.response[i - 1];
            assert p.request[i] == rest.request[i - 1];
          }
        }
      }
    }
  }

  /**
   * The whole candidate loop, in terms of the first rejected line `k`: the
   * applicable lines before `k` are sent and recorded in order, the loop
   * raises exactly when some line is rejected, and nothing after `k` is sent.
   */
  lemma {:induction false} ApplyLinesOutcome(device: Device, h: seq<Command>, lines: seq<Command>)
    ensures var p := ApplyLines(device, h, lines);
      var k := FirstRejectedLine(device, h, lines, 0);
      && (p.error.None? <==> k == |lines|)
      && (k == |lines| ==> p.sent == Filter(lines) && p.request == Texts(Filter(lines)))
      && (k < |lines| ==>
            && p.error == Some(LineError(device, h + Filter(lines[..k]), lines[k]))
            && p.sent == Filter(lines[..k]) + (if lines[k].text == "" then [] else [lines[k]])
            && p.request == Texts(Filter(lines[..k])))
  {
    var k := FirstRejectedLine(device, h, lines, 0);
    if k == |lines| {
      ApplyLinesAccepted(device, h, lines);
    } else {
      ApplyLinesRejected(device, h, lines, k);
    }
  }

  /**
   * `edit_config` as a whole: without `commit` it raises "check mode is not
   * supported" and sends nothing, otherwise `configure` goes first. It
   * succeeds only after sending `configure`, every applicable candidate line
   * in order and `end`, and then reports the lines' texts as requests with
   * one response each. When a candidate line is rejected it fails and `end`
   * is never sent.
   */
  lemma {:induction false} EditConfigSpec(device: Device, h: seq<Command>, candidate: seq<Command>, commit: bool)
    ensures var x := EditConfigRun(device, h, candidate, commit);
      && (!commit ==> x == Exchange(Failure(CheckModeUnsupported), []))
      && (commit ==> |x.sent| >= 1 && x.sent[0] == Configure)
      && (x.result.Success? ==>
            && x.sent == [Configure] + Filter(candidate) + [End]
            && x.result.value.request == Texts(Filter(candidate))
            && |x.result.value.response| == |Filter(candidate)|)
      && (commit && device(h, Configure).Output? && FirstRejectedLine(device, h + [Configure], candidate, 0) < |candidate| ==>
            x.result.Failure? && End !in x.sent)
  {
    if commit && device(h, Configure).Output? {
      var hc := h + [Configure];
      var p := ApplyLines(device, hc, candidate);
      ApplyLinesOutcome(device, hc, candidate);
      ApplyLinesPaired(device, hc, candidate);
      if FirstRejectedLine(device, hc, candidate, 0) < |candidate| {
        assert forall i :: 0 <= i < |p.sent| ==> p.sent[i] != End by {
          forall i | 0 <= i < |p.sent|
            ensures p.sent[i] != End
          {
            assert Applicable(p.sent[i]);
          }
        }
        assert Configure.text != End.text;
        assert End !in [Configure] + p.sent;
      }
    }
  }

  // ---------------------------------------------------------------------------
  // run_commands

  /** The `try`/`except` around one `send_command`: under `check_rc` a connection failure is re-raised, otherwise its message stands in for the response. */
  function Respond(reply: Reply, checkRc: bool): Result<string, CliError> {
    match reply
    case Output(o) => Success(o)
    case ConnFailure(e) => if checkRc then Failure(ConnectionFailure(e)) else Success(e)
  }

  /**
   * The same step as the source spells it: the `except` clause names
   * `AnsibleConnectionFailure`, which the plugin never imports, so any
   * connection failure raises `NameError` while the clause is evaluated.
   */
  function RespondAsWritten(reply: Reply, checkRc: bool): Result<string, CliError> {
    match reply
    case Output(o) => Success(o)
    case ConnFailure(_) => Failure(NameError("AnsibleConnectionFailure"))
  }

  /**
   * The step as written differs from the intended one exactly on connection
   * failures: with `check_rc` off the failure's text should become the
   * response, but `NameError` is raised instead.
   */
  lemma RespondAsWrittenDiffers(reply: Reply, checkRc: bool)
    ensures reply.Output? ==> RespondAsWritten(reply, checkRc) == Respond(reply, checkRc)
    ensures reply.ConnFailure? ==> RespondAsWritten(reply, checkRc) != Respond(reply, checkRc)
    ensures RespondAsWritten(ConnFailure("timeout"), false) == Failure(NameError("AnsibleConnectionFailure"))
    ensures Respond(ConnFailure("timeout"), false) == Success("timeout")
  {
  }

  /** One command of `run_commands` after its `output` key is checked: respond, then raise on `ERR:`. */
  function RunOne(c: Command, reply: Reply, checkRc: bool): Result<string, CliError> {
    match Respond(reply, checkRc)
    case Failure(e) => Failure(e)
    case Success(out) => if HasErrMarker(out) then Failure(DeviceError(c.text, out)) else Success(out)
  }

  /** What the batch loop did: commands sent, responses collected, and the exception, if any. */
  datatype Batch = Batch(sent: seq<Command>, responses: seq<string>, error: Option<CliError>)

  function PrependBatch(sent: seq<Command>, responses: seq<string>, b: Batch): Batch {
    Batch(sent + b.sent, responses + b.responses, b.error)
  }

  /** The loop of `run_commands` over the commands, starting after history `h`. */
  function RunLoop(device: Device, h: seq<Command>, cmds: seq<Command>, checkRc: bool): Batch
    decreases |cmds|
  {
    if cmds == [] then Batch([], [], None)
    else
      var c := cmds[0];
      if c.output != "" then Batch([], [], Some(OutputUnsupported(c.output)))
      else match RunOne(c, device(h, c), checkRc)
        case Failure(e) => Batch([c], [], Some(e))
        case Success(out) => PrependBatch([c], [out], RunLoop(device, h + [c], cmds[1..], checkRc))
  }

  /** The batch loop sends at most every command, and when nothing is raised, all of them with one response each. */
  lemma {:induction false} RunLoopLength(device: Device, h: seq<Command>, cmds: seq<Command>, checkRc: bool)
    ensures var b := RunLoop(device, h, cmds, checkRc);
      && |b.sent| <= |cmds|
      && (b.error.None? ==> b.sent == cmds && |b.responses| == |cmds|)
    decreases |cmds|
  {
    if cmds != [] {
      RunLoopLength(device, h + [cmds[0]], cmds[1..], checkRc);
      assert [cmds[0]] + cmds[1..] == cmds;
    }
  }

  /** `run_commands(commands, check_rc)` on a session whose history is `h`. */
  function RunCommandsRun(device: Device, h: seq<Command>, commands: Option<seq<Command>>, checkRc: bool)
    : (r: Exchange<seq<string>, CliError>)
    ensures commands.None? ==> r.result == Failure(CommandsRequired) && r.sent == []
    ensures r.result.Success? ==> commands.Some? && r.sent == commands.value && |r.result.value| == |commands.value|
    ensures commands.Some? ==> |r.sent| <= |commands.value|
  {
    match commands
    case None => Exchange(Failure(CommandsRequired), [])
    case Some(cmds) =>
      var b := RunLoop(device, h, cmds, checkRc);
      RunLoopLength(device, h, cmds, checkRc);
      Exchange(if b.error.Some? then Failure(b.error.value) else Success(b.responses), b.sent)
  }

  /** The batch loop raised `e` after sending `done + s`: `run_commands` reports `e`. */
  lemma {:induction false} RunCommandsAborts(device: Device, h: seq<Command>, cmds: seq<Command>, checkRc: bool,
                                             done: seq<Command>, responses: seq<string>, s: seq<Command>, e: CliError)
    requires RunLoop(device, h, cmds, checkRc) == PrependBatch(done, responses, Batch(s, [], Some(e)))
    ensures RunCommandsRun(device, h, Some(cmds), checkRc).result == Failure(e)
    ensures h + RunCommandsRun(device, h, Some(cmds), checkRc).sent == h + done + s
  {
    Assoc(h, done, s);
  }

  lemma {:induction false} PrependBatchAssoc(s1: seq<Command>, r1: seq<string>, s2: seq<Command>, r2: seq<string>, b: Batch)
    ensures PrependBatch(s1, r1, PrependBatch(s2, r2, b)) == PrependBatch(s1 + s2, r1 + r2, b)
  {
    assert s1 + (s2 + b.sent) == (s1 + s2) + b.sent;
    assert r1 + (r2 + b.responses) == (r1 + r2) + b.responses;
  }

  /** One accepted command: it is sent, its response recorded, and the loop goes on with the rest. */
  lemma {:induction false} RunLoopAdvance(device: Device, h: seq<Command>, cmds: seq<Command>, checkRc: bool)
    requires cmds != [] && cmds[0].output == ""
    requires RunOne(cmds[0], device(h, cmds[0]), checkRc).Success?
    ensures RunLoop(device, h, cmds, checkRc)
         == PrependBatch([cmds[0]], [RunOne(cmds[0], device(h, cmds[0]), checkRc).value],
                         RunLoop(device, h + [cmds[0]], cmds[1..], checkRc))
  {
  }

  /** Command `i` goes through: no `output` key, and its (possibly substituted) response has no `ERR:`. */
  predicate CommandAccepted(device: Device, h: seq<Command>, cmds: seq<Command>, checkRc: bool, i: nat)
    requires i < |cmds|
  {
    cmds[i].output == "" && RunOne(cmds[i], device(h + cmds[..i], cmds[i]), checkRc).Success?
  }

  /** The response recorded for an accepted command. */
  function ResponseOf(device: Device, h: seq<Command>, cmds: seq<Command>, checkRc: bool, i: nat): string
    requires i < |cmds| && CommandAccepted(device, h, cmds, checkRc, i)
  {
    RunOne(cmds[i], device(h + cmds[..i], cmds[i]), checkRc).value
  }

  /** The exception a rejected command raises. */
  function CommandError(device: Device, h: seq<Command>, cmds: seq<Command>, checkRc: bool, i: nat): CliError
    requires i < |cmds|
  {
    if cmds[i].output != "" then OutputUnsupported(cmds[i].output)
    else match RunOne(cmds[i], device(h + cmds[..i], cmds[i]), checkRc)
      case Failure(e) => e
      case Success(_) => EmptyCommand
  }

  /** The first command at or after `from` that is not accepted, or `|cmds|`. */
  function FirstRejectedCommand(device: Device, h: seq<Command>, cmds: seq<Command>, checkRc: bool, from: nat): (k: nat)
    requires from <= |cmds|
    requires forall i :: 0 <= i < from ==> CommandAccepted(device, h, cmds, checkRc, i)
    ensures from <= k <= |cmds|
    ensures forall i :: 0 <= i < k ==> CommandAccepted(device, h, cmds, checkRc, i)
    ensures k < |cmds| ==> !CommandAccepted(device, h, cmds, checkRc, k)
    decreases |cmds| - from
  {
    if from == |cmds| || !CommandAccepted(device, h, cmds, checkRc, from) then from
    else FirstRejectedCommand(device, h, cmds, checkRc, from + 1)
  }

  lemma {:induction false} CommandShift(device: Device, h: seq<Command>, cmds: seq<Command>, checkRc: bool, i: nat)
    requires i + 1 < |cmds|
    ensures CommandAccepted(device, h, cmds, checkRc, i + 1)
         == CommandAccepted(device, h + [cmds[0]], cmds[1..], checkRc, i)
    ensures CommandAccepted(device, h, cmds, checkRc, i + 1) ==>
              ResponseOf(device, h, cmds, checkRc, i + 1) == ResponseOf(device, h + [cmds[0]], cmds[1..], checkRc, i)
    ensures CommandError(device, h, cmds, checkRc, i + 1) == CommandError(device, h + [cmds[0]], cmds[1..], checkRc, i)
  {
    assert cmds[..i + 1] == [cmds[0]] + cmds[1..][..i];
    assert h + cmds[..i + 1] == (h + [cmds[0]]) + cmds[1..][..i];
    assert cmds[i + 1] == cmds[1..][i];
  }

  /**
   * What the batch loop did when command `k` is the first one rejected (or
   * `k == |cmds|`): the commands before `k` were sent once each, in order,
   * with one response each; there is an exception exactly when some command
   * was rejected, and nothing after it was sent (a command with an `output`
   * key is not sent at all).
   */
  predicate BatchOutcome(device: Device, h: seq<Command>, cmds: seq<Command>, checkRc: bool, k: nat, b: Batch)
    requires k <= |cmds|
    requires forall i :: 0 <= i < k ==> CommandAccepted(device, h, cmds, checkRc, i)
  {
    && (b.error.None? <==> k == |cmds|)
    && |b.responses| == k
    && (forall i :: 0 <= i < k ==> b.responses[i] == ResponseOf(device, h, cmds, checkRc, i))
    && b.sent == cmds[..k] + (if k < |cmds| && cmds[k].output == "" then [cmds[k]] else [])
    && (k < |cmds| ==> b.error == Some(CommandError(device, h, cmds, checkRc, k)))
  }

  /** The whole batch loop, in terms of the first rejected command. */
  lemma {:induction false} RunLoopOutcome(device: Device, h: seq<Command>, cmds: seq<Command>, checkRc: bool)
    ensures BatchOutcome(device, h, cmds, checkRc, FirstRejectedCommand(device, h, cmds, checkRc, 0),
                         RunLoop(device, h, cmds, checkRc))
    decreases |cmds|
  {
    var k := FirstRejectedCommand(device, h, cmds, checkRc, 0);
    if cmds != [] {
      if k > 0 {
        var c, t := cmds[0], cmds[1..];
        var h' := h + [c];
        assert h + cmds[..0] == h;
        assert CommandAccepted(device, h, cmds, checkRc, 0);
        RunLoopAdvance(device, h, cmds, checkRc);
        assert forall i :: 0 <= i < k - 1 ==> CommandAccepted(device, h', t, checkRc, i) by {
          forall i | 0 <= i < k - 1
            ensures CommandAccepted(device, h', t, checkRc, i)
          {
            assert CommandAccepted(device, h, cmds, checkRc, i + 1);
            CommandShift(device, h, cmds, checkRc, i);
          }
        }
        if k < |cmds| {
          CommandShift(device, h, cmds, checkRc, k - 1);
        }
        assert FirstRejectedCommand(device, h', t, checkRc, 0) == k - 1;
        RunLoopOutcome(device, h', t, checkRc);
        BatchOutcomeCons(device, h, cmds, checkRc, k, RunLoop(device, h', t, checkRc));
      } else {
        RunLoopRejectedHead(device, h, cmds, checkRc);
      }
    }
  }

  /** An accepted first command, prepended to the outcome of the rest, is the outcome of the whole. */
  lemma {:induction false} BatchOutcomeCons(device: Device, h: seq<Command>, cmds: seq<Command>, checkRc: bool, k: nat, rest: Batch)
    requires 0 < k <= |cmds|
    requires forall i :: 0 <= i < k ==> CommandAccepted(device, h, cmds, checkRc, i)
    requires forall i :: 0 <= i < k - 1 ==> CommandAccepted(device, h + [cmds[0]], cmds[1..], checkRc, i)
    requires BatchOutcome(device, h + [cmds[0]], cmds[1..], checkRc, k - 1, rest)
    ensures BatchOutcome(device, h, cmds, checkRc, k, PrependBatch([cmds[0]], [ResponseOf(device, h, cmds, checkRc, 0)], rest))
  {
    var c, t := cmds[0], cmds[1..];
    var b := PrependBatch([c], [ResponseOf(device, h, cmds, checkRc, 0)], rest);
    forall i | 0 < i < k
      ensures b.responses[i] == ResponseOf(device, h, cmds, checkRc, i)
    {
      CommandShift(device, h, cmds, checkRc, i - 1);
    }
    if k < |cmds| {
      CommandShift(device, h, cmds, checkRc, k - 1);
      assert t[k - 1] == cmds[k];
    }
    assert cmds[..k] == [c] + t[..k - 1];
    Assoc([c], t[..k - 1], if k < |cmds| && cmds[k].output == "" then [cmds[k]] else []);
  }

  /**
   * `run_commands` as a whole. Without commands it raises "'commands' value
   * is required" and sends nothing. When it succeeds it has sent every
   * command once, in order, and returns one response per command: the
   * device's output, or (only with `check_rc` off) a connection failure's
   * text, and never one holding `ERR:`. When it fails, the error is that of
   * the first command not accepted.
   */
  lemma {:induction false} RunCommandsSpec(device: Device, h: seq<Command>, commands: Option<seq<Command>>, checkRc: bool)
    ensures var x := RunCommandsRun(device, h, commands, checkRc);
      && (commands.None? ==> x == Exchange(Failure(CommandsRequired), []))
      && (commands.Some? && x.result.Success? ==>
            var cmds := commands.value;
            && x.sent == cmds && |x.result.value| == |cmds|
            && (forall i :: 0 <= i < |cmds| ==>
                  && !HasErrMarker(x.result.value[i])
                  && (device(h + cmds[..i], cmds[i]) == Output(x.result.value[i])
                      || (!checkRc && device(h + cmds[..i], cmds[i]) == ConnFailure(x.result.value[i])))))
      && (commands.Some? && x.result.Failure? ==>
            var k := FirstRejectedCommand(device, h, commands.value, checkRc, 0);
            k < |commands.value| && x.result.error == CommandError(device, h, commands.value, checkRc, k))
  {
    if commands.Some? {
      var cmds := commands.value;
      var b := RunLoop(device, h, cmds, checkRc);
      RunLoopOutcome(device, h, cmds, checkRc);
      var k := FirstRejectedCommand(device, h, cmds, checkRc, 0);
      if k == |cmds| {
        assert cmds[..k] == cmds;
        forall i | 0 <= i < |cmds|
          ensures !HasErrMarker(b.responses[i])
          ensures device(h + cmds[..i], cmds[i]) == Output(b.responses[i])
               || (!checkRc && device(h + cmds[..i], cmds[i]) == ConnFailure(b.responses[i]))
        {
          assert CommandAccepted(device, h, cmds, checkRc, i);
          assert b.responses[i] == ResponseOf(device, h, cmds, checkRc, i);
        }
      }
    }
  }

  /** A rejected first command: nothing is recorded, and it is sent unless it carries an `output` key. */
  lemma {:induction false} RunLoopRejectedHead(device: Device, h: seq<Command>, cmds: seq<Command>, checkRc: bool)
    requires cmds != [] && !CommandAccepted(device, h, cmds, checkRc, 0)
    ensures var b := RunLoop(device, h, cmds, checkRc);
      && b.error == Some(CommandError(device, h, cmds, checkRc, 0))
      && b.responses == []
      && b.sent == (if cmds[0].output == "" then [cmds[0]] else [])
  {
    assert h + cmds[..0] == h;
  }

  /** With `check_rc` off, a connection failure never escapes `run_commands`. */
  lemma {:induction false} RunLoopTolerant(device: Device, h: seq<Command>, cmds: seq<Command>)
    ensures var b := RunLoop(device, h, cmds, false);
      b.error.Some? ==> !b.error.value.ConnectionFailure?
    decreases |cmds|
  {
    if cmds != [] && cmds[0].output == "" {
      var c := cmds[0];
      if RunOne(c, device(h, c), false).Success? {
        RunLoopTolerant(device, h + [c], cmds[1..]);
      }
    }
  }

  // ---------------------------------------------------------------------------
  // get_device_info and get_capabilities

  /** `m` with `key` set to the value the search found, or `m` itself when it found none. */
  function Found(m: map<string, string>, key: string, value: Option<string>): map<string, string> {
    if value.Some? then m[key := value.value] else m
  }

  /** The device-info mapping scraped from the two outputs (each stripped before searching). */
  function DeviceInfoFrom(config: string, version: string): map<string, string> {
    InfoFrom(ParseFacts(HostnamePattern, Strip(config)), ParseFacts(ModelPattern, Strip(version)),
             ParseFacts(FirmwarePattern, Strip(version)))
  }

  /** The device-info mapping, given what the three searches found. */
  function InfoFrom(hostname: Option<string>, model: Option<string>, firmware: Option<string>): map<string, string> {
    var info := map["network_os" := "updu"];
    var info := Found(info, "network_os_hostname", hostname);
    var info := Found(info, "network_os_model", model);
    Found(info, "network_os_version", firmware)
  }

  /** `Found` sets `key` exactly when there is a value, and leaves every other key alone. */
  lemma {:induction false} FoundKeys(m: map<string, string>, key: string, value: Option<string>)
    ensures var r := Found(m, key, value);
      && (key in r <==> key in m || value.Some?)
      && (value.Some? ==> r[key] == value.value)
      && (forall k :: k != key ==> (k in r <==> k in m))
      && (forall k :: k != key && k in m ==> r[k] == m[k])
  {
  }

  /** `get_device_info()` on a session whose history is `h`. */
  function DeviceInfoRun(device: Device, h: seq<Command>): Exchange<map<string, string>, CliError> {
    match Checked(ShowHostname, device(h, ShowHostname))
    case Failure(e) => Exchange(Failure(e), [ShowHostname])
    case Success(config) =>
      match Checked(ShowVersion, device(h + [ShowHostname], ShowVersion))
      case Failure(e) => Exchange(Failure(e), [ShowHostname, ShowVersion])
      case Success(version) => Exchange(Success(DeviceInfoFrom(config, version)), [ShowHostname, ShowVersion])
  }

  /**
   * The scraped mapping always names the operating system, and holds the
   * hostname, model and firmware version exactly when the corresponding
   * pattern matched, with group 1 of the leftmost match as the value.
   */
  lemma {:induction false} DeviceInfoKeys(config: string, version: string)
    ensures var info := DeviceInfoFrom(config, version);
      && info.Keys <= {"network_os", "network_os_hostname", "network_os_model", "network_os_version"}
      && "network_os" in info && info["network_os"] == "updu"
      && ("network_os_hostname" in info <==> ParseFacts(HostnamePattern, Strip(config)).Some?)
      && ("network_os_hostname" in info ==> info["network_os_hostname"] == ParseFacts(HostnamePattern, Strip(config)).value)
      && ("network_os_model" in info <==> ParseFacts(ModelPattern, Strip(version)).Some?)
      && ("network_os_model" in info ==> info["network_os_model"] == ParseFacts(ModelPattern, Strip(version)).value)
      && ("network_os_version" in info <==> ParseFacts(FirmwarePattern, Strip(version)).Some?)
      && ("network_os_version" in info ==> info["network_os_version"] == ParseFacts(FirmwarePattern, Strip(version)).value)
  {
    var hn := ParseFacts(HostnamePattern, Strip(config));
    var md := ParseFacts(ModelPattern, Strip(version));
    var fw := ParseFacts(FirmwarePattern, Strip(version));
    InfoKeys(hn, md, fw);
  }

  lemma {:induction false} InfoKeys(hn: Option<string>, md: Option<string>, fw: Option<string>)
    ensures var info := InfoFrom(hn, md, fw);
      && info.Keys <= {"network_os", "network_os_hostname", "network_os_model", "network_os_version"}
      && "network_os" in info && info["network_os"] == "updu"
      && ("network_os_hostname" in info <==> hn.Some?)
      && ("network_os_hostname" in info ==> info["network_os_hostname"] == hn.value)
      && ("network_os_model" in info <==> md.Some?)
      && ("network_os_model" in info ==> info["network_os_model"] == md.value)
      && ("network_os_version" in info <==> fw.Some?)
      && ("network_os_version" in info ==> info["network_os_version"] == fw.value)
  {
    assert |"network_os"| == 10 && |"network_os_hostname"| == 19;
    assert |"network_os_model"| == 16 && |"network_os_version"| == 18;
    var m0 := map["network_os" := "updu"];
    var m1 := Found(m0, "network_os_hostname", hn);
    var m2 := Found(m1, "network_os_model", md);
    FoundKeys(m0, "network_os_hostname", hn);
    FoundKeys(m1, "network_os_model", md);
    FoundKeys(m2, "network_os_version", fw);
  }

  /** `get_capabilities()`: the framework's part, `run_commands` added to the RPC list, and the device info. */
  function CapabilitiesRun(device: Device, baseRpc: seq<string>, networkApi: Option<string>, h: seq<Command>)
    : Exchange<Capabilities, CliError>
  {
    var d := DeviceInfoRun(device, h);
    match d.result
    case Failure(e) => Exchange(Failure(e), d.sent)
    case Success(info) => Exchange(Success(Capabilities(baseRpc + ["run_commands"], networkApi, info)), d.sent)
  }

  // ---------------------------------------------------------------------------
  // The plugin object

  class Cliconf {
    /** The device session `send_command` talks to. */
    const session: Session
    /** The RPC list the framework's `get_capabilities` reports. */
    const baseRpc: seq<string>
    /** The `network_api` the framework's `get_capabilities` reports. */
    const networkApi: Option<string>

    constructor (session: Session, baseRpc: seq<string>, networkApi: Option<string>)
      ensures this.session == session && this.baseRpc == baseRpc && this.networkApi == networkApi
    {
      this.session := session;
      this.baseRpc := baseRpc;
      this.networkApi := networkApi;
    }

    /** `get`: send one command and raise when the reply holds `ERR:`. */
    method Get(c: Command) returns (r: Result<string, CliError>)
      modifies session
      ensures session.sent == old(session.sent) + [c]
      ensures r == Checked(c, session.device(old(session.sent), c))
    {
      var reply := session.Send(c);
      if reply.ConnFailure? {
        return Failure(ConnectionFailure(reply.err));
      }
      var res := reply.text;
      if HasErrMarker(res) {
        return Failure(DeviceError(c.text, res));
      }
      r := Success(res);
    }

    /** `edit_config`: `configure`, the applicable candidate lines in order, then `end`. */
    method EditConfig(candidate: seq<Command>, commit: bool) returns (r: Result<ConfigResponse, CliError>)
      modifies session
      ensures var x := EditConfigRun(session.device, old(session.sent), candidate, commit);
        r == x.result && session.sent == old(session.sent) + x.sent
    {
      if !commit {
        return Failure(CheckModeUnsupported);
      }
      ghost var h0 := session.sent;
      var reply := session.Send(Configure);
      if reply.ConnFailure? {
        return Failure(ConnectionFailure(reply.err));
      }
      var results: seq<string> := [];
      var requests: seq<string> := [];
      ghost var done: seq<Command> := [];
      var i := 0;
      while i < |candidate|
        invariant 0 <= i <= |candidate|
        invariant session.sent == h0 + [Configure] + done
        invariant ApplyLines(session.device, h0 + [Configure], candidate)
               == Prepend(done, requests, results, ApplyLines(session.device, session.sent, candidate[i..]))
      {
        var line := candidate[i];
        ghost var hi := session.sent;
        assert candidate[i..][1..] == candidate[i + 1..];
        var cmd := line.text;
        if cmd != "end" {
          if cmd == "" {
            EditConfigAborts(session.device, h0, candidate, done, requests, results, [], EmptyCommand);
            return Failure(EmptyCommand);
          }
          if cmd[0] != '#' {
            var res := session.Send(line);
            if res.ConnFailure? {
              EditConfigAborts(session.device, h0, candidate, done, requests, results, [line], ConnectionFailure(res.err));
              return Failure(ConnectionFailure(res.err));
            }
            if HasErrMarker(res.text) {
              EditConfigAborts(session.device, h0, candidate, done, requests, results, [line], DeviceError(cmd, res.text));
              return Failure(DeviceError(cmd, res.text));
            }
            ApplyLinesAdvance(session.device, hi, candidate[i..], res.text);
            PrependAssoc(done, requests, results, [line], [cmd], [res.text],
                         ApplyLines(session.device, session.sent, candidate[i + 1..]));
            results := results + [res.text];
            requests := requests + [cmd];
            done := done + [line];
          }
        }
        i := i + 1;
      }
      assert candidate[i..] == [];
      assert ApplyLines(session.device, session.sent, candidate[i..]) == Pass([], [], [], None);
      assert done + [] == done && requests + [] == requests && results + [] == results;
      EditConfigCompletes(session.device, h0, candidate, done, requests, results);
      var closing := session.Send(End);
      if closing.ConnFailure? {
        return Failure(ConnectionFailure(closing.err));
      }
      r := Success(ConfigResponse(requests, results));
    }

    /** `run_commands`: one `send_command` per command, in order, aborting on `ERR:`. */
    method RunCommands(commands: Option<seq<Command>>, checkRc: bool) returns (r: Result<seq<string>, CliError>)
      modifies session
      ensures var x := RunCommandsRun(session.device, old(session.sent), commands, checkRc);
        r == x.result && session.sent == old(session.sent) + x.sent
    {
      if commands.None? {
        return Failure(CommandsRequired);
      }
      var cmds := commands.value;
      ghost var h0 := session.sent;
      var responses: seq<string> := [];
      var i := 0;
      while i < |cmds|
        invariant 0 <= i <= |cmds|
        invariant session.sent == h0 + cmds[..i]
        invariant RunLoop(session.device, h0, cmds, checkRc)
               == PrependBatch(cmds[..i], responses, RunLoop(session.device, session.sent, cmds[i..], checkRc))
      {
        var cmd := cmds[i];
        ghost var hi := session.sent;
        assert cmds[i..][1..] == cmds[i + 1..];
        assert cmds[..i + 1] == cmds[..i] + [cmd];
        if cmd.output != "" {
          RunCommandsAborts(session.device, h0, cmds, checkRc, cmds[..i], responses, [], OutputUnsupported(cmd.output));
          return Failure(OutputUnsupported(cmd.output));
        }
        var reply := session.Send(cmd);
        var out: string;
        if reply.ConnFailure? {
          if checkRc {
            RunCommandsAborts(session.device, h0, cmds, checkRc, cmds[..i], responses, [cmd], ConnectionFailure(reply.err));
            return Failure(ConnectionFailure(reply.err));
          }
          out := reply.err;
        } else {
          out := reply.text;
        }
        if HasErrMarker(out) {
          RunCommandsAborts(session.device, h0, cmds, checkRc, cmds[..i], responses, [cmd], DeviceError(cmd.text, out));
          return Failure(DeviceError(cmd.text, out));
        }
        RunLoopAdvance(session.device, hi, cmds[i..], checkRc);
        PrependBatchAssoc(cmds[..i], responses, [cmd], [out], RunLoop(session.device, session.sent, cmds[i + 1..], checkRc));
        responses := responses + [out];
        i := i + 1;
      }
      assert cmds[i..] == [] && cmds[..i] == cmds;
      assert RunLoop(session.device, session.sent, cmds[i..], checkRc) == Batch([], [], None);
      assert RunLoop(session.device, h0, cmds, checkRc) == Batch(cmds, responses, None);
      r := Success(responses);
    }

    /** `get_device_info`: scrape the hostname, then the model and firmware version. */
    method GetDeviceInfo() returns (r: Result<map<string, string>, CliError>)
      modifies session
      ensures var x := DeviceInfoRun(session.device, old(session.sent));
        r == x.result && session.sent == old(session.sent) + x.sent
    {
      ghost var h0 := session.sent;
      var info: map<string, string> := map["network_os" := "updu"];
      var config := Get(ShowHostname);
      if config.Failure? {
        return Failure(config.error);
      }
      var data := Strip(config.value);
      info := Found(info, "network_os_hostname", ParseFacts(HostnamePattern, data));
      var version := Get(ShowVersion);
      Assoc(h0, [ShowHostname], [ShowVersion]);
      assert [ShowHostname] + [ShowVersion] == [ShowHostname, ShowVersion];
      if version.Failure? {
        return Failure(version.error);
      }
      data := Strip(version.value);
      info := Found(info, "network_os_model", ParseFacts(ModelPattern, data));
      info := Found(info, "network_os_version", ParseFacts(FirmwarePattern, data));
      r := Success(info);
    }

    /** `get_capabilities`: the capability document with this plugin's additions. */
    method GetCapabilities() returns (r: Result<Capabilities, CliError>)
      modifies session
      ensures var x := CapabilitiesRun(session.device, baseRpc, networkApi, old(session.sent));
        r == x.result && session.sent == old(session.sent) + x.sent
    {
      var info := GetDeviceInfo();
      if info.Failure? {
        return Failure(info.error);
      }
      r := Success(Capabilities(baseRpc + ["run_commands"], networkApi, info.value));
    }
  }
}
