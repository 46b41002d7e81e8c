/**
 * The module-side helpers (`module_utils/network/updu/updu.py`): a module
 * object caches the capability document and the connection to the cliconf
 * plugin, and `run_commands`, `write_config` and `load_config` forward to the
 * plugin through that connection.
 *
 * The plugin runs in another process; every exception it raises reaches the
 * module as a `ConnectionError` carrying the exception's text, which is why a
 * `CliError` appears on this side unchanged. `fail_json` ends the module run,
 * so it is a failure value here.
 */
module ModuleUtils {
  import opened Wrappers
  import opened Transport
  import opened Text
  import opened Cliconf

  /** How a module run ends when it does not return normally. */
  datatype ModuleFailure =
    | Failed(cause: CliError)                      // `fail_json` with the connection error's text
    | InvalidConnectionType(api: Option<string>)   // `fail_json("Invalid connection type ...")`
    | Uncaught(cause: CliError)                    // a `ConnectionError` no `try` catches

  /** What the module can observe of the plugin at the other end of the socket. */
  datatype Plugin = Plugin(device: Device, baseRpc: seq<string>, networkApi: Option<string>)

  /** The module object's two cache attributes: `_updu_capabilities`, and whether `_updu_connection` is set. */
  datatype Cache = Cache(capabilities: Option<Capabilities>, connected: bool)

  /** A module object as created: neither attribute set. */
  const Fresh: Cache := Cache(None, false)

  /** The outcome of a helper: its result, the cache afterwards, and the commands the plugin sent. */
  datatype Step<+T> = Step(result: Result<T, ModuleFailure>, cache: Cache, sent: seq<Command>)

  /** The one command `write_config` sends. */
  const WriteCommand: Command := Line("write")

  /** `get_capabilities(module)` with cache `c`, the plugin's session history being `h`. */
  function CapabilitiesStep(p: Plugin, c: Cache, h: seq<Command>): Step<Capabilities> {
    if c.capabilities.Some? then Step(Success(c.capabilities.value), c, [])
    else
      var x := CapabilitiesRun(p.device, p.baseRpc, p.networkApi, h);
      match x.result
      case Failure(e) => Step(Failure(Failed(e)), c, x.sent)
      case Success(doc) => Step(Success(doc), c.(capabilities := Some(doc)), x.sent)
  }

  /** `get_connection(module)`: the cached connection, or a new one when the document names `cliconf`. */
  function ConnectStep(p: Plugin, c: Cache, h: seq<Command>): Step<()> {
    if c.connected then Step(Success(()), c, [])
    else
      var s := CapabilitiesStep(p, c, h);
      match s.result
      case Failure(e) => Step(Failure(e), s.cache, s.sent)
      case Success(doc) =>
        if doc.networkApi == Some("cliconf") then Step(Success(()), s.cache.(connected := true), s.sent)
        else Step(Failure(InvalidConnectionType(doc.networkApi)), s.cache, s.sent)
  }

  /** `run_commands(module, commands, check_rc)`. */
  function RunCommandsStep(p: Plugin, c: Cache, commands: Option<seq<Command>>, checkRc: bool, h: seq<Command>)
    : (a: Step<seq<string>>)
    ensures a.result.Success? ==> a.cache.connected
    ensures c.connected ==> a.cache == c
    ensures a.result.Success? ==> commands.Some? && |a.result.value| == |commands.value|
  {
    var s := ConnectStep(p, c, h);
    match s.result
    case Failure(e) => Step(Failure(e), s.cache, s.sent)
    case Success(_) =>
      var x := RunCommandsRun(p.device, h + s.sent, commands, checkRc);
      var r := match x.result
        case Success(responses) => Success(responses)
        case Failure(e) => Failure(Failed(e));
      Step(r, s.cache, s.sent + x.sent)
  }

  /** `write_config(module)`. */
  function WriteConfigStep(p: Plugin, c: Cache, h: seq<Command>): Step<seq<string>> {
    RunCommandsStep(p, c, Some([WriteCommand]), true, h)
  }

  /** `load_config(module, commands)`: `edit_config` with its default `commit=True`, and no `try`. */
  function LoadConfigStep(p: Plugin, c: Cache, commands: seq<Command>, h: seq<Command>): Step<()> {
    var s := ConnectStep(p, c, h);
    match s.result
    case Failure(e) => Step(Failure(e), s.cache, s.sent)
    case Success(_) =>
      var x := EditConfigRun(p.device, h + s.sent, commands, true);
      var r := match x.result
        case Success(_) => Success(())
        case Failure(e) => Failure(Uncaught(e));
      Step(r, s.cache, s.sent + x.sent)
  }

  // ---------------------------------------------------------------------------
  // Properties

  /**
   * `get_capabilities` memoises: a successful call stores the document it
   * returns, and a second call returns that same document without sending
   * anything. A failed call stores nothing. The connection attribute is never
   * touched.
   */
  lemma {:induction false} CapabilitiesMemoised(p: Plugin, c: Cache, h: seq<Command>)
    ensures var a := CapabilitiesStep(p, c, h);
      && a.cache.connected == c.connected
      && (a.result.Success? ==> a.cache.capabilities == Some(a.result.value))
      && (a.result.Success? ==> CapabilitiesStep(p, a.cache, h + a.sent) == Step(a.result, a.cache, []))
      && (a.result.Failure? ==> a.cache == c && a.result.error.Failed?)
  {
    if c.capabilities.None? {
      var x := CapabilitiesRun(p.device, p.baseRpc, p.networkApi, h);
      assert x.result.Success? ==> x.result.value.networkApi == p.networkApi;
    }
  }

  /** A cached document is returned as it is, whatever the plugin would now answer. */
  lemma {:induction false} CapabilitiesCached(p: Plugin, q: Plugin, c: Cache, h: seq<Command>, g: seq<Command>)
    requires c.capabilities.Some?
    ensures CapabilitiesStep(p, c, h) == CapabilitiesStep(q, c, g)
    ensures CapabilitiesStep(p, c, h).sent == []
  {
  }

  /**
   * On a fresh module, the first capability query asks the plugin for the
   * device info (two commands, `show config | section hostname` then
   * `show version`, the second only when the first succeeds), and the
   * document reports the plugin's RPC list with `run_commands` added.
   */
  lemma {:induction false} CapabilitiesFirstQuery(p: Plugin, h: seq<Command>)
    ensures var a := CapabilitiesStep(p, Fresh, h);
      && 1 <= |a.sent| <= 2 && a.sent[0] == ShowHostname
      && (a.result.Success? ==> a.sent == [ShowHostname, ShowVersion])
      && (a.result.Success? ==> a.result.value.rpc == p.baseRpc + ["run_commands"])
      && (a.result.Success? ==> a.result.value.networkApi == p.networkApi)
      && (a.result.Success? ==> "network_os" in a.result.value.deviceInfo && a.result.value.deviceInfo["network_os"] == "updu")
  {
    var d := DeviceInfoRun(p.device, h);
    if d.result.Success? {
      var config := Checked(ShowHostname, p.device(h, ShowHostname)).value;
      var version := Checked(ShowVersion, p.device(h + [ShowHostname], ShowVersion)).value;
      DeviceInfoKeys(config, version);
    }
  }

  /**
   * `get_connection` memoises too: once it succeeds, calling it again
   * succeeds, sends nothing and changes nothing.
   */
  lemma {:induction false} ConnectMemoised(p: Plugin, c: Cache, h: seq<Command>)
    ensures var a := ConnectStep(p, c, h);
      && (a.result.Success? ==> a.cache.connected)
      && (a.result.Success? ==> ConnectStep(p, a.cache, h + a.sent) == Step(Success(()), a.cache, []))
      && (c.connected ==> a == Step(Success(()), c, []))
  {
  }

  /**
   * A connection is made exactly when the capability document names
   * `cliconf` as the network API; any other value, a missing one included,
   * fails with "Invalid connection type" and leaves the module unconnected.
   */
  lemma {:induction false} ConnectNeedsCliconf(p: Plugin, c: Cache, h: seq<Command>)
    requires !c.connected
    ensures var a := ConnectStep(p, c, h);
      var s := CapabilitiesStep(p, c, h);
      && (a.result.Success? <==> s.result.Success? && s.result.value.networkApi == Some("cliconf"))
      && (s.result.Success? && s.result.value.networkApi != Some("cliconf") ==>
            a.result == Failure(InvalidConnectionType(s.result.value.networkApi)) && !a.cache.connected)
      && a.sent == s.sent
  {
    CapabilitiesMemoised(p, c, h);
  }

  /** On a fresh module the connection is made exactly when the plugin's device info can be read and its API is `cliconf`. */
  lemma {:induction false} ConnectFresh(p: Plugin, h: seq<Command>)
    ensures ConnectStep(p, Fresh, h).result.Success?
        <==> DeviceInfoRun(p.device, h).result.Success? && p.networkApi == Some("cliconf")
  {
    ConnectNeedsCliconf(p, Fresh, h);
    CapabilitiesFirstQuery(p, h);
  }

  /**
   * `run_commands` first gets the connection. When that fails, its failure
   * is the result and nothing more is sent. Otherwise `commands` and
   * `check_rc` reach the plugin unchanged, after whatever the connection
   * sent: the plugin sends what its own `run_commands` sends, the responses
   * come back as they are, and every plugin error becomes a `fail_json`
   * carrying it. On a module already connected, that is all that is sent.
   */
  lemma {:induction false} RunCommandsForwards(p: Plugin, c: Cache, commands: Option<seq<Command>>, checkRc: bool, h: seq<Command>)
    ensures var a := RunCommandsStep(p, c, commands, checkRc, h);
      var s := ConnectStep(p, c, h);
      && a.cache == s.cache
      && (s.result.Failure? ==> a == Step(Failure(s.result.error), s.cache, s.sent))
      && (s.result.Success? ==>
            var x := RunCommandsRun(p.device, h + s.sent, commands, checkRc);
            && a.sent == s.sent + x.sent
            && (a.result.Success? <==> x.result.Success?)
            && (x.result.Success? ==> a.result.value == x.result.value)
            && (x.result.Failure? ==> a.result.error == Failed(x.result.error)))
      && (c.connected ==> a.sent == RunCommandsRun(p.device, h, commands, checkRc).sent && a.cache == c)
  {
    if c.connected {
      assert h + [] == h;
      assert [] + RunCommandsRun(p.device, h, commands, checkRc).sent == RunCommandsRun(p.device, h, commands, checkRc).sent;
    }
  }

  /**
   * `write_config` sends one command, `write`, after whatever getting the
   * connection sent, and returns its one response. Under `check_rc=True` a
   * connection failure is not swallowed, and neither is an `ERR:` reply. A
   * failure to connect is the result, and `write` is then never sent.
   */
  lemma {:induction false} WriteConfigSendsWrite(p: Plugin, c: Cache, h: seq<Command>)
    ensures var a := WriteConfigStep(p, c, h);
      var s := ConnectStep(p, c, h);
      var reply := p.device(h + s.sent, WriteCommand);
      && a.cache == s.cache
      && (s.result.Failure? ==> a == Step(Failure(s.result.error), s.cache, s.sent))
      && (s.result.Success? ==>
            && a.sent == s.sent + [WriteCommand]
            && (a.result.Success? <==> reply.Output? && !HasErrMarker(reply.text))
            && (a.result.Success? ==> a.result.value == [reply.text])
            && (reply.ConnFailure? ==> a.result == Failure(Failed(ConnectionFailure(reply.err)))))
      && (c.connected ==> a.sent == [WriteCommand])
  {
    RunCommandsForwards(p, c, Some([WriteCommand]), true, h);
    var s := ConnectStep(p, c, h);
    var cmds := [WriteCommand];
    assert cmds[1..] == [];
    assert RunLoop(p.device, h + s.sent + [WriteCommand], cmds[1..], true) == Batch([], [], None);
  }

  /**
   * `load_config` gets the connection, then passes the command list
   * unchanged to `edit_config` with `commit=True`; a plugin error is not
   * caught and ends the module run. A failure to connect is the result, and
   * then nothing more is sent.
   */
  lemma {:induction false} LoadConfigForwards(p: Plugin, c: Cache, commands: seq<Command>, h: seq<Command>)
    ensures var a := LoadConfigStep(p, c, commands, h);
      var s := ConnectStep(p, c, h);
      && a.cache == s.cache
      && (s.result.Failure? ==> a == Step(Failure(s.result.error), s.cache, s.sent))
      && (s.result.Success? ==>
            var x := EditConfigRun(p.device, h + s.sent, commands, true);
            && a.sent == s.sent + x.sent
            && (a.result.Success? <==> x.result.Success?)
            && (x.result.Failure? ==> a.result.error == Uncaught(x.result.error)))
      && (c.connected ==> a.sent == EditConfigRun(p.device, h, commands, true).sent && a.cache == c)
  {
    if c.connected {
      assert h + [] == h;
      assert [] + EditConfigRun(p.device, h, commands, true).sent == EditConfigRun(p.device, h, commands, true).sent;
    }
  }

  // ---------------------------------------------------------------------------
  // The objects

  /** `Connection(module._socket_path)`: a proxy whose calls run in the plugin. */
  class Connection {
    const plugin: Cliconf

    constructor (plugin: Cliconf)
      ensures this.plugin == plugin
    {
      this.plugin := plugin;
    }
  }

  /** The module object, with the two attributes the helpers cache on it. */
  class Module {
    /** The plugin every `Connection` made from this module's socket reaches. */
    const plugin: Cliconf
    /** `_updu_capabilities`, when set. */
    var capabilities: Option<Capabilities>
    /** `_updu_connection`, when set. */
    var connection: Connection?

    ghost predicate Valid()
      reads this, connection
    {
      connection != null ==> connection.plugin == plugin
    }

    /** The cache attributes as a value. */
    function CacheState(): Cache
      reads this
    {
      Cache(capabilities, connection != null)
    }

    /** The plugin as the specification functions see it. */
    function View(): Plugin {
      Plugin(plugin.session.device, plugin.baseRpc, plugin.networkApi)
    }

    constructor (plugin: Cliconf)
      ensures this.plugin == plugin && Valid() && CacheState() == Fresh
    {
      this.plugin := plugin;
      capabilities := None;
      connection := null;
    }

    /** `get_capabilities(module)`. */
    method GetCapabilities() returns (r: Result<Capabilities, ModuleFailure>)
      modifies this, plugin.session
      ensures var a := CapabilitiesStep(View(), old(CacheState()), old(plugin.session.sent));
        && r == a.result && CacheState() == a.cache
        && plugin.session.sent == old(plugin.session.sent) + a.sent
      ensures connection == old(connection)
    {
      if capabilities.Some? {
        assert plugin.session.sent + [] == plugin.session.sent;
        return Success(capabilities.value);
      }
      var doc := plugin.GetCapabilities();
      if doc.Failure? {
        return Failure(Failed(doc.error));
      }
      capabilities := Some(doc.value);
      r := Success(doc.value);
    }

    /** `get_connection(module)`: the cached connection, or a new one when the document names `cliconf`. */
    method GetConnection() returns (r: Result<Connection, ModuleFailure>)
      requires Valid()
      modifies this, plugin.session
      ensures Valid()
      ensures var a := ConnectStep(View(), old(CacheState()), old(plugin.session.sent));
        && (r.Success? <==> a.result.Success?)
        && (r.Failure? ==> r.error == a.result.error)
        && CacheState() == a.cache
        && plugin.session.sent == old(plugin.session.sent) + a.sent
      ensures r.Success? ==> r.value == connection && r.value.plugin == plugin
      ensures old(connection) != null ==> r == Success(old(connection)) && connection == old(connection)
      ensures r.Success? && old(connection) == null ==> fresh(r.value)
    {
      if connection != null {
        assert plugin.session.sent + [] == plugin.session.sent;
        return Success(connection);
      }
      var doc := GetCapabilities();
      if doc.Failure? {
        return Failure(doc.error);
      }
      if doc.value.networkApi == Some("cliconf") {
        connection := new Connection(plugin);
        r := Success(connection);
      } else {
        r := Failure(InvalidConnectionType(doc.value.networkApi));
      }
    }

    /** `run_commands(module, commands, check_rc)`. */
    method RunCommands(commands: Option<seq<Command>>, checkRc: bool) returns (r: Result<seq<string>, ModuleFailure>)
      requires Valid()
      modifies this, plugin.session
      ensures Valid()
      ensures var a := RunCommandsStep(View(), old(CacheState()), commands, checkRc, old(plugin.session.sent));
        && r == a.result && CacheState() == a.cache
        && plugin.session.sent == old(plugin.session.sent) + a.sent
    {
      ghost var h := plugin.session.sent;
      var conn := GetConnection();
      if conn.Failure? {
        return Failure(conn.error);
      }
      ghost var hc := plugin.session.sent;
      var responses := conn.value.plugin.RunCommands(commands, checkRc);
      Assoc(h, hc[|h|..], plugin.session.sent[|hc|..]);
      if responses.Failure? {
        return Failure(Failed(responses.error));
      }
      r := Success(responses.value);
    }

    /** `write_config(module)`. */
    method WriteConfig() returns (r: Result<seq<string>, ModuleFailure>)
      requires Valid()
      modifies this, plugin.session
      ensures Valid()
      ensures var a := WriteConfigStep(View(), old(CacheState()), old(plugin.session.sent));
        && r == a.result && CacheState() == a.cache
        && plugin.session.sent == old(plugin.session.sent) + a.sent
    {
      r := RunCommands(Some([WriteCommand]), true);
    }

    /** `load_config(module, commands)`. */
    method LoadConfig(commands: seq<Command>) returns (r: Result<(), ModuleFailure>)
      requires Valid()
      modifies this, plugin.session
      ensures Valid()
      ensures var a := LoadConfigStep(View(), old(CacheState()), commands, old(plugin.session.sent));
        && r == a.result && CacheState() == a.cache
        && plugin.session.sent == old(plugin.session.sent) + a.sent
    {
      ghost var h := plugin.session.sent;
      var conn := GetConnection();
      if conn.Failure? {
        return Failure(conn.error);
      }
      ghost var hc := plugin.session.sent;
      var resp := conn.value.plugin.EditConfig(commands, true);
      Assoc(h, hc[|h|..], plugin.session.sent[|hc|..]);
      if resp.Failure? {
        return Failure(Uncaught(resp.error));
      }
      r := Success(());
    }
  }
}
