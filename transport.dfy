/**
 * The command/response transport the plugins sit on. The host framework's
 * `send_command` is an oracle: the device's reply to a command may depend on
 * every command sent before it in the session, and the session records what
 * was sent, in order.
 */
module Transport {
  import opened Wrappers

  /**
   * One CLI command as `send_command` receives it: the text, an optional
   * prompt/answer pair for an interactive confirmation, the send-only,
   * trailing-newline and check-all flags, and the `output` key a caller may
   * attach to a command mapping ("" when it is absent or empty).
   */
  datatype Command = Command(
    text: string,
    prompt: Option<string>,
    answer: Option<string>,
    sendOnly: bool,
    newline: bool,
    checkAll: bool,
    output: string)

  /** A bare string line, as `{"command": line}` turns it into a command mapping. */
  function Line(text: string): Command {
    Command(text, None, None, false, true, false, "")
  }

  /** What the transport gives back: the device's text, or a connection failure and its message. */
  datatype Reply = Output(text: string) | ConnFailure(err: string)

  /** The result of an exchange together with the commands it sent, in order. */
  datatype Exchange<+T, +E> = Exchange(result: Result<T, E>, sent: seq<Command>)

  /** A session with one device. */
  class Session {
    /** The device's reply to a command, given every command sent before it. */
    const device: (seq<Command>, Command) -> Reply
    /** Every command sent so far in this session. */
    var sent: seq<Command>

    constructor (device: (seq<Command>, Command) -> Reply)
      ensures this.device == device && sent == []
    {
      this.device := device;
      sent := [];
    }

    /** `send_command`: transmit one command and wait for the device's reply. */
    method Send(c: Command) returns (reply: Reply)
      modifies this
      ensures sent == old(sent) + [c]
      ensures reply == device(old(sent), c)
    {
      reply := device(sent, c);
      sent := sent + [c];
    }
  }
}
