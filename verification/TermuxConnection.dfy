/** The Termux connection manager. Every coroutine is cut at its awaits: `execute` becomes a start, one of two ends of
    the send, and a wake-up by result, timeout or cancellation, so that any interleaving is a sequence of events. */
module TermuxConnection {
  import opened Prelude
  import opened CappedOutput
  import opened TermuxPairing
  import opened TermuxMessages

  type Transport = nat

  datatype ExecutionStatus = SUCCEEDED | FAILED

  datatype ExecutionResult = ExecutionResult(
    status: ExecutionStatus,
    exitCode: Option<Wire>,
    stdout: Option<string>,
    stderr: Option<string>,
    stdoutTruncated: bool,
    stderrTruncated: bool,
    timedOut: bool)

  const LOST := ExecutionResult(FAILED, None, None, Some("Connection to the device was lost mid-command."), false,
                                false, false)

  // --- one command -------------------------------------------------------------------------------------------------

  datatype Command = Command(
    device: DeviceId,
    maxStdout: Option<int>,
    maxStderr: Option<int>,
    out: Stream,
    err: Stream,
    future: Option<ExecutionResult>)

  function Resolved(c: Command, status: ExecutionStatus, exitCode: Option<Wire>, extraStderr: string): Command {
    if c.future.Some? then c
    else
      c.(future := Some(ExecutionResult(status, exitCode, Some(Text(c.out)), Some(Text(c.err) + extraStderr),
                                        c.out.truncated, c.err.truncated, false)))
  }

  function Told(c: Command, m: Message): Command
    requires m.Message?
  {
    match m.kind
    case STDOUT => c.(out := Accept(c.maxStdout, c.out, m.data))
    case STDERR => c.(err := Accept(c.maxStderr, c.err, m.data))
    case COMMAND_COMPLETED => Resolved(c, SUCCEEDED, CompletedExit(m.exitCode), "")
    case COMMAND_FAILED => Resolved(c, FAILED, FailedExit(m.exitCode), m.errorMessage)
    case _ => c
  }

  function Lost(c: Command): Command {
    if c.future.Some? then c else c.(future := Some(LOST))
  }

  function Partial(c: Command): ExecutionResult {
    ExecutionResult(FAILED, None, Some(Text(c.out)), Some(Text(c.err)), c.out.truncated, c.err.truncated, true)
  }

  /** Where an `execute` call stands. */
  datatype Stage =
    | Sending
    | SendFailed
    | Waiting
    | Returned(result: ExecutionResult)
    | TimedOut(result: ExecutionResult)
    | Cancelled

  /** A started command: its object, the stage of its call, and whether `_pending` still lists it. */
  datatype Slot = Slot(command: Command, stage: Stage, listed: bool)

  function NewSlot(d: DeviceId, maxStdout: Option<int>, maxStderr: Option<int>): Slot {
    Slot(Command(d, maxStdout, maxStderr, EMPTY, EMPTY, None), Sending, true)
  }

  // --- the manager -------------------------------------------------------------------------------------------------

  datatype Hub = Hub(pairing: Pairings, transports: map<DeviceId, Transport>, slots: map<CommandId, Slot>)

  datatype Event =
    | Register(device: DeviceId, code: string, expiresAt: Time)
    | Confirm(device: DeviceId, code: string, token: string, now: Time)
    | Revoke(device: DeviceId)
    | Connect(device: DeviceId, token: string, transport: Transport)
    | Disconnect(device: DeviceId)
    | Inbound(device: DeviceId, message: Message)
    | Start(command: CommandId, device: DeviceId, maxStdout: Option<int>, maxStderr: Option<int>)
    | SendFails(command: CommandId)
    | Sent(command: CommandId)
    | Resume(command: CommandId)
    | Timeout(command: CommandId)
    | Cancel(command: CommandId)

  function DropDevice(slots: map<CommandId, Slot>, d: DeviceId): map<CommandId, Slot> {
    map c | c in slots ::
      if slots[c].listed && slots[c].command.device == d
      then Dropped(slots[c])
      else slots[c]
  }

  function ListedOf(slots: map<CommandId, Slot>, d: DeviceId): set<CommandId> {
    set c | c in slots && slots[c].listed && slots[c].command.device == d
  }

  function Dropped(slot: Slot): Slot {
    Slot(Lost(slot.command), slot.stage, false)
  }

  lemma DropOne(slots: map<CommandId, Slot>, c: CommandId, d: DeviceId)
    requires c in ListedOf(slots, d)
    ensures var after := slots[c := Dropped(slots[c])];
            DropDevice(after, d) == DropDevice(slots, d) && ListedOf(after, d) == ListedOf(slots, d) - {c}
  {
  }

  lemma DropNone(slots: map<CommandId, Slot>, d: DeviceId)
    requires ListedOf(slots, d) == {}
    ensures DropDevice(slots, d) == slots
  {
    forall c | c in slots
      ensures DropDevice(slots, d)[c] == slots[c]
    {
      assert c !in ListedOf(slots, d);
    }
  }

  function Settled(s: Slot, stage: Stage): Slot {
    s.(stage := stage, listed := false)
  }

  /** The effect of one event. An event whose subject is absent or not at the matching await changes nothing. */
  function Next(h: Hub, e: Event): Hub {
    Hub(NextPairing(h.pairing, e), NextTransports(h, e), NextSlots(h, e))
  }

  function NextPairing(p: Pairings, e: Event): Pairings {
    match e
    case Register(d, code, expiresAt) => Registered(p, d, code, expiresAt)
    case Confirm(d, code, token, now) => Confirmed(p, d, code, token, now).after
    case Revoke(d) => Revoked(p, d).after
    case Connect(d, token, t) => if Authentication(p, d, token).Some? then p else MarkedConnected(p, d).after
    case Disconnect(d) => MarkedDisconnected(p, d).after
    case _ => p
  }

  function NextTransports(h: Hub, e: Event): map<DeviceId, Transport> {
    match e
    case Connect(d, token, t) =>
      if Authentication(h.pairing, d, token).Some? then h.transports else h.transports[d := t]
    case Disconnect(d) => h.transports - {d}
    case _ => h.transports
  }

  function NextSlots(h: Hub, e: Event): map<CommandId, Slot> {
    match e
    case Disconnect(d) => if d in h.pairing.devices then DropDevice(h.slots, d) else h.slots
    case Inbound(d, m) =>
      if m.Message? && m.commandId.Id? && m.commandId.id in h.slots
      then
        var s := h.slots[m.commandId.id];
        if s.listed && s.command.device == d
        then h.slots[m.commandId.id := s.(command := Told(s.command, m))]
        else h.slots
      else h.slots
    case Start(c, d, maxOut, maxErr) =>
      if d in h.transports then h.slots[c := NewSlot(d, maxOut, maxErr)] else h.slots
    case SendFails(c) =>
      if c in h.slots && h.slots[c].stage.Sending?
      then h.slots[c := h.slots[c].(stage := SendFailed)] else h.slots
    case Sent(c) =>
      if c in h.slots && h.slots[c].stage.Sending?
      then h.slots[c := h.slots[c].(stage := Waiting)] else h.slots
    case Resume(c) =>
      if c in h.slots && h.slots[c].stage.Waiting? && h.slots[c].command.future.Some?
      then h.slots[c := Settled(h.slots[c], Returned(h.slots[c].command.future.value))] else h.slots
    case Timeout(c) =>
      if c in h.slots && h.slots[c].stage.Waiting?
      then h.slots[c := Settled(h.slots[c], TimedOut(Partial(h.slots[c].command)))] else h.slots
    case Cancel(c) =>
      if c in h.slots && h.slots[c].stage.Waiting?
      then h.slots[c := Settled(h.slots[c], Cancelled)] else h.slots
    case _ => h.slots
  }

  /** A message that raises, or names no command, changes nothing. */
  lemma UnaddressedChangesNothing(h: Hub, d: DeviceId, m: Message)
    ensures ReplyTo(m) != Handled || m.commandId.NoId? ==> Next(h, Inbound(d, m)) == h
  {
  }

  // --- the objects -------------------------------------------------------------------------------------------------

  class PendingCommand {
    ghost const id: CommandId
    const device: DeviceId
    const maxStdoutBytes: Option<int>
    const maxStderrBytes: Option<int>
    var stdoutChunks: seq<string>
    var stderrChunks: seq<string>
    var stdoutBytes: nat
    var stderrBytes: nat
    var stdoutTruncated: bool
    var stderrTruncated: bool
    var future: Option<ExecutionResult>

    constructor (ghost id: CommandId, device: DeviceId, maxStdoutBytes: Option<int>, maxStderrBytes: Option<int>)
      ensures this.id == id
      ensures Value() == NewSlot(device, maxStdoutBytes, maxStderrBytes).command
    {
      this.id := id;
      this.device := device;
      this.maxStdoutBytes, this.maxStderrBytes := maxStdoutBytes, maxStderrBytes;
      stdoutChunks, stderrChunks := [], [];
      stdoutBytes, stderrBytes := 0, 0;
      stdoutTruncated, stderrTruncated := false, false;
      future := None;
    }

    function Value(): Command
      reads this
    {
      Command(device, maxStdoutBytes, maxStderrBytes,
              Stream(stdoutChunks, stdoutBytes, stdoutTruncated),
              Stream(stderrChunks, stderrBytes, stderrTruncated),
              future)
    }

    method Append(kind: MessageType, text: string)
      requires kind == STDOUT || kind == STDERR
      modifies this
      ensures kind == STDOUT ==>
                Value() == old(Value()).(out := Accept(maxStdoutBytes, old(Value()).out, text))
      ensures kind == STDERR ==>
                Value() == old(Value()).(err := Accept(maxStderrBytes, old(Value()).err, text))
    {
      var kept := text;
      var cap := if kind == STDOUT then maxStdoutBytes else maxStderrBytes;
      if cap.Some? {
        var used := if kind == STDOUT then stdoutBytes else stderrBytes;
        var remaining := cap.value - used;
        if remaining <= 0 {
          if kind == STDOUT {
            stdoutTruncated := true;
          } else {
            stderrTruncated := true;
          }
          return;
        }
        if |Utf8.Encode(text)| > remaining {
          kept := Utf8.Decode(Utf8.Encode(text)[..remaining]);
          if kind == STDOUT {
            stdoutTruncated := true;
          } else {
            stderrTruncated := true;
          }
        }
      }
      var added := |Utf8.Encode(kept)|;
      if kind == STDOUT {
        stdoutChunks := stdoutChunks + [kept];
        stdoutBytes := stdoutBytes + added;
      } else {
        stderrChunks := stderrChunks + [kept];
        stderrBytes := stderrBytes + added;
      }
    }
  }

  import Utf8

  class TermuxConnectionManager {
    const pairing: PairingService
    var transports: map<DeviceId, Transport>
    var pending: map<CommandId, PendingCommand>

    // Every command ever started: its object (held by the suspended `execute` call) and its abstract value.
    ghost var commands: map<CommandId, PendingCommand>
    ghost var slots: map<CommandId, Slot>

    constructor (pairing: PairingService)
      ensures Valid() && this.pairing == pairing && fresh(this)
      ensures Value() == Hub(pairing.Value(), map[], map[])
    {
      this.pairing := pairing;
      transports, pending, commands, slots := map[], map[], map[], map[];
    }

    ghost predicate Tied(c: CommandId)
      requires c in commands && c in slots
      reads this, commands[c]
    {
      && commands[c].id == c
      && slots[c].command == commands[c].Value()
      && (slots[c].listed <==> c in pending)
      && (c in pending ==> pending[c] == commands[c])
    }

    ghost predicate Valid()
      reads this, commands.Values
    {
      && slots.Keys == commands.Keys
      && pending.Keys <= commands.Keys
      && forall c :: c in commands ==> Tied(c)
    }

    ghost function Value(): Hub
      reads this, pairing
    {
      Hub(pairing.Value(), transports, slots)
    }

    method HandleConnect(d: DeviceId, token: string, transport: Transport) returns (error: Option<PairingError>)
      requires Valid()
      modifies this`transports, pairing
      ensures Valid()
      ensures Value() == Next(old(Value()), Connect(d, token, transport))
      ensures error == Authentication(old(pairing.Value()), d, token)
    {
      error := pairing.Authenticate(d, token);
      if error.Some? {
        return;
      }
      transports := transports[d := transport];
      error := pairing.MarkConnected(d);
    }

    /** `error` is the exception `mark_disconnected` raises for an unknown device, after the transport is gone. */
    method HandleDisconnect(d: DeviceId) returns (error: Option<PairingError>)
      requires Valid()
      modifies this`transports, this`pending, this`slots, pairing, commands.Values
      ensures Valid()
      ensures Value() == Next(old(Value()), Disconnect(d))
      ensures error == if d in old(pairing.devices) then None else Some(DeviceNotRegistered)
    {
      transports := transports - {d};
      error := pairing.MarkDisconnected(d);
      if error.Some? {
        return;
      }
      FailLost(d);
    }

    /** The loop of `handle_disconnect` over the pending commands of the lost device. */
    method FailLost(d: DeviceId)
      requires Valid()
      modifies this`pending, this`slots, commands.Values
      ensures Valid() && slots == DropDevice(old(slots), d)
    {
      var lost := set c | c in pending && pending[c].device == d;
      LostExactly(d, lost);
      while lost != {}
        invariant Valid() && commands == old(commands) && lost == ListedOf(slots, d)
        invariant DropDevice(slots, d) == DropDevice(old(slots), d)
      {
        var c :| c in lost;
        DropOne(slots, c, d);
        assert Tied(c);
        FailOne(c);
        lost := lost - {c};
      }
      DropNone(slots, d);
    }

    lemma LostExactly(d: DeviceId, lost: set<CommandId>)
      requires Valid() && lost == set c | c in pending && pending[c].device == d
      ensures lost == ListedOf(slots, d)
    {
      forall c | c in slots
        ensures c in lost <==> c in ListedOf(slots, d)
      {
        assert Tied(c);
      }
    }

    method FailOne(c: CommandId)
      requires Valid() && c in pending
      modifies this`pending, this`slots, commands[c]
      ensures Valid() && pending == old(pending) - {c}
      ensures slots == old(slots)[c := Dropped(old(slots)[c])]
    {
      var command := pending[c];
      pending := pending - {c};
      if command.future.None? {
        command.future := Some(LOST);
      }
      slots := slots[c := Dropped(slots[c])];
    }

    /** `c` is the fresh command id. No object is returned, and nothing is done, when the device is not connected. */
    method ExecuteStart(c: CommandId, d: DeviceId, maxStdout: Option<int>, maxStderr: Option<int>)
      returns (command: PendingCommand?)
      requires Valid() && c !in commands
      modifies this`pending, this`commands, this`slots
      ensures Valid()
      ensures command == null <==> d !in transports
      ensures command == null ==> commands == old(commands)
      ensures command != null ==> fresh(command) && commands == old(commands)[c := command]
      ensures Value() == Next(old(Value()), Start(c, d, maxStdout, maxStderr))
    {
      if d !in transports {
        return null;
      }
      command := new PendingCommand(c, d, maxStdout, maxStderr);
      pending := pending[c := command];
      commands := commands[c := command];
      slots := slots[c := NewSlot(d, maxStdout, maxStderr)];
    }

    /** The send raised: the call is over, and its entry stays in `pending`. */
    ghost method ExecuteSendFails(c: CommandId)
      requires Valid() && c in commands && slots[c].stage == Sending
      modifies this`slots
      ensures Valid()
      ensures Value() == Next(old(Value()), SendFails(c))
    {
      slots := slots[c := slots[c].(stage := SendFailed)];
    }

    ghost method ExecuteSent(c: CommandId)
      requires Valid() && c in commands && slots[c].stage == Sending
      modifies this`slots
      ensures Valid()
      ensures Value() == Next(old(Value()), Sent(c))
    {
      slots := slots[c := slots[c].(stage := Waiting)];
    }

    method ExecuteResume(c: CommandId, command: PendingCommand) returns (result: ExecutionResult)
      requires Valid() && c in commands && commands[c] == command
      requires slots[c].stage == Waiting && command.future.Some?
      modifies this`pending, this`slots
      ensures Valid()
      ensures Value() == Next(old(Value()), Resume(c)) && slots[c].stage == Returned(result)
    {
      result := command.future.value;
      Settle(c, Returned(result));
    }

    method ExecuteTimeout(c: CommandId, command: PendingCommand) returns (result: ExecutionResult)
      requires Valid() && c in commands && commands[c] == command && slots[c].stage == Waiting
      modifies this`pending, this`slots
      ensures Valid()
      ensures Value() == Next(old(Value()), Timeout(c)) && slots[c].stage == TimedOut(result)
    {
      result := ExecutionResult(
        FAILED, None, Some(Concat(command.stdoutChunks)), Some(Concat(command.stderrChunks)),
        command.stdoutTruncated, command.stderrTruncated, true);
      Settle(c, TimedOut(result));
    }

    method ExecuteCancelled(c: CommandId)
      requires Valid() && c in commands && slots[c].stage == Waiting
      modifies this`pending, this`slots
      ensures Valid()
      ensures Value() == Next(old(Value()), Cancel(c))
    {
      Settle(c, Cancelled);
    }

    /** The end of the `try` block: whatever happened, the entry is popped. */
    method Settle(c: CommandId, ghost stage: Stage)
      requires Valid() && c in commands
      modifies this`pending, this`slots
      ensures Valid()
      ensures slots == old(slots)[c := Settled(old(slots)[c], stage)]
    {
      pending := pending - {c};
      slots := slots[c := Settled(slots[c], stage)];
    }

    /** `w` is whatever the device sent. */
    method HandleInboundMessage(d: DeviceId, w: Wire, python: Python) returns (reply: Reply)
      requires Valid()
      modifies this`slots, commands.Values
      ensures Valid()
      ensures Value() == Next(old(Value()), Inbound(d, Read(python, w)))
      ensures reply == ReplyTo(Read(python, w))
    {
      hide Next, Valid, Told, TextOf, ExitOf;
      UnaddressedChangesNothing(Value(), d, Read(python, w));
      if !w.WObject? || "type" !in w.fields {
        return MalformedMessage;
      }
      var kind := w.fields["type"];
      var id := Field(w.fields, "commandId");
      if kind.WList? || kind.WObject? {
        return TypeError;
      }
      if kind in COMMAND_MESSAGES && !Truthy(id) {
        return MalformedMessage;
      }
      if !Truthy(id) {
        return Handled;
      }
      if !id.WText? {
        return AttributeError;
      }
      var parsed := python.uuid(id.text);
      if parsed.None? {
        return ValueError;
      }
      Deliver(d, parsed.value, w.fields, python);
      return Handled;
    }

    /** From the lookup on. */
    method Deliver(d: DeviceId, c: CommandId, fields: map<string, Wire>, python: Python)
      requires Valid()
      requires "type" in fields && Hashable(fields["type"]) && IdOf(python, Field(fields, "commandId")) == Id(c)
      modifies this`slots, commands.Values
      ensures Valid()
      ensures Value() == Next(old(Value()), Inbound(d, Read(python, WObject(fields))))
    {
      hide KindOf, IdOf, ExitOf, TextOf, Told;
      ghost var m := Read(python, WObject(fields));
      if c !in pending || pending[c].device != d {
        return;
      }
      Dispatch(pending[c], fields, python);
      slots := slots[c := slots[c].(command := Told(slots[c].command, m))];
    }

    /** The branches of `handle_inbound_message` on the message type. */
    method Dispatch(command: PendingCommand, fields: map<string, Wire>, python: Python)
      requires "type" in fields && Hashable(fields["type"])
      modifies command
      ensures command.Value() == Told(old(command.Value()), Read(python, WObject(fields)))
    {
      var kind := fields["type"];
      if kind == WText("stdout") {
        command.Append(STDOUT, TextOf(python, fields, "data"));
      } else if kind == WText("stderr") {
        command.Append(STDERR, TextOf(python, fields, "data"));
      } else if kind == WText("command_completed") {
        var exitCode := if "exitCode" in fields then Passed(fields["exitCode"]) else Some(WNumber(0.0));
        Resolve(command, SUCCEEDED, exitCode, "");
      } else if kind == WText("command_failed") {
        Resolve(command, FAILED, Passed(Field(fields, "exitCode")), TextOf(python, fields, "errorMessage"));
      }
    }

    method Resolve(command: PendingCommand, status: ExecutionStatus, exitCode: Option<Wire>, extraStderr: string)
      modifies command
      ensures command.Value() == Resolved(old(command.Value()), status, exitCode, extraStderr)
    {
      if command.future.Some? {
        return;
      }
      var stderr := Concat(command.stderrChunks) + extraStderr;
      command.future := Some(ExecutionResult(
        status, exitCode, Some(Concat(command.stdoutChunks)), Some(stderr),
        command.stdoutTruncated, command.stderrTruncated, false));
    }
  }
}
