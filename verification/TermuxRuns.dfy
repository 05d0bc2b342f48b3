/** What the Termux hub guarantees over whole runs: any number of devices, any interleaving of connects, disconnects,
    messages, timeouts and cancellations. */
module TermuxRuns {
  import opened Prelude
  import opened CappedOutput
  import opened TermuxPairing
  import opened TermuxMessages
  import opened TermuxConnection

  const NO_HUB := Hub(NO_PAIRINGS, map[], map[])

  /** New device and command ids are fresh (`uuid4`). */
  predicate Fresh(h: Hub, e: Event) {
    match e
    case Register(d, _, _) => d !in h.pairing.devices
    case Start(c, _, _, _) => c !in h.slots
    case _ => true
  }

  function Run(h: Hub, es: seq<Event>): Hub {
    if es == [] then h else Next(Run(h, es[..|es| - 1]), es[|es| - 1])
  }

  predicate FreshRun(h: Hub, es: seq<Event>) {
    es == [] || (FreshRun(h, es[..|es| - 1]) && Fresh(Run(h, es[..|es| - 1]), es[|es| - 1]))
  }

  // --- pairing and connectivity ------------------------------------------------------------------------------------

  predicate HoldsToken(s: DeviceState) {
    s == AUTHORIZED || s == CONNECTED || s == DISCONNECTED
  }

  predicate SoundDevice(p: Pairings, d: DeviceId) {
    && (d in p.tokens <==> d in p.devices && HoldsToken(p.devices[d]))
    && (d in p.codes ==> d in p.devices && p.devices[d] == PAIRING_REQUIRED)
  }

  ghost predicate Sound(h: Hub) {
    && (forall d :: SoundDevice(h.pairing, d))
    && (forall d :: d in h.pairing.devices && h.pairing.devices[d] == CONNECTED ==> d in h.transports)
    && (forall d :: d in h.transports ==> d in h.pairing.devices)
    && (forall c :: c in h.slots ==> h.slots[c].command.device in h.pairing.devices)
  }

  lemma NextSoundDevice(p: Pairings, e: Event, d: DeviceId)
    requires SoundDevice(p, d)
    requires e.Register? ==> e.device !in p.devices
    ensures SoundDevice(NextPairing(p, e), d)
    ensures d in p.devices ==> d in NextPairing(p, e).devices
  {
  }

  lemma NextSound(h: Hub, e: Event)
    requires Sound(h) && Fresh(h, e)
    ensures Sound(Next(h, e))
  {
    forall d
      ensures SoundDevice(NextPairing(h.pairing, e), d)
      ensures d in h.pairing.devices ==> d in NextPairing(h.pairing, e).devices
    {
      assert SoundDevice(h.pairing, d);
      NextSoundDevice(h.pairing, e, d);
    }
    NextSoundTransports(h, e);
    NextSoundSlots(h, e);
    hide NextPairing, NextTransports, NextSlots;
  }

  lemma NextSoundTransports(h: Hub, e: Event)
    requires Sound(h) && Fresh(h, e)
    ensures forall d :: d in Next(h, e).pairing.devices && Next(h, e).pairing.devices[d] == CONNECTED ==>
                          d in Next(h, e).transports
    ensures forall d :: d in Next(h, e).transports ==> d in Next(h, e).pairing.devices
  {
    hide NextSlots, SoundDevice;
  }

  lemma NextSoundSlots(h: Hub, e: Event)
    requires Sound(h) && Fresh(h, e)
    ensures forall c :: c in NextSlots(h, e) ==> NextSlots(h, e)[c].command.device in h.pairing.devices
  {
    hide SoundDevice;
  }

  /** In every reachable state a token is stored exactly for the AUTHORIZED, CONNECTED and DISCONNECTED devices, a
      pending code means PAIRING_REQUIRED without a token, and a CONNECTED device has a transport. */
  lemma {:induction false} RunSound(h: Hub, es: seq<Event>)
    requires Sound(h) && FreshRun(h, es)
    ensures Sound(Run(h, es))
    ensures forall d :: d in Run(h, es).pairing.codes ==> d !in Run(h, es).pairing.tokens
  {
    if es != [] {
      RunSound(h, es[..|es| - 1]);
      NextSound(Run(h, es[..|es| - 1]), es[|es| - 1]);
      hide Next;
    }
    forall d | d in Run(h, es).pairing.codes
      ensures d !in Run(h, es).pairing.tokens
    {
      assert SoundDevice(Run(h, es).pairing, d);
    }
  }

  /** In every reachable state a token authenticates a device exactly if its hash is the one stored for it; the states
      need not be asked. */
  lemma AuthenticatedExactly(es: seq<Event>, d: DeviceId, token: string)
    requires FreshRun(NO_HUB, es)
    ensures var p := Run(NO_HUB, es).pairing;
            Authentication(p, d, token).None? <==> d in p.tokens && p.tokens[d] == Digest(token)
  {
    hide Next;
    RunSound(NO_HUB, es);
    assert SoundDevice(Run(NO_HUB, es).pairing, d);
  }

  /** REVOKED is absorbing, and no token authenticates a revoked device again. */
  lemma {:induction false} RevokedForever(h: Hub, es: seq<Event>, d: DeviceId)
    requires FreshRun(h, es)
    requires SoundDevice(h.pairing, d) && d in h.pairing.devices && h.pairing.devices[d] == REVOKED
    ensures d in Run(h, es).pairing.devices && Run(h, es).pairing.devices[d] == REVOKED
    ensures SoundDevice(Run(h, es).pairing, d)
    ensures forall token :: Authentication(Run(h, es).pairing, d, token) == Some(RevokedDevice)
  {
    if es != [] {
      var init := es[..|es| - 1];
      RevokedForever(h, init, d);
      hide NextTransports, NextSlots;
    }
  }

  predicate Pairs(p: Pairings, e: Event, d: DeviceId) {
    e.Confirm? && e.device == d && Confirmed(p, d, e.code, e.token, e.now).error.None?
  }

  lemma PairsStep(p: Pairings, e: Event, d: DeviceId)
    requires SoundDevice(p, d)
    requires e.Register? ==> e.device !in p.devices
    ensures var q := NextPairing(p, e);
            var pairs := if Pairs(p, e, d) then 1 else 0;
            && (d in p.devices ==> pairs + (if d in q.codes then 1 else 0) <= (if d in p.codes then 1 else 0))
            && (d !in p.devices ==> pairs == 0)
            && (d in p.devices ==> d in q.devices)
            && (d !in q.devices ==> d !in q.codes)
  {
  }

  /** How often the run pairs device `d`. */
  function PairingCount(h: Hub, es: seq<Event>, d: DeviceId): nat {
    if es == [] then 0
    else
      var init := es[..|es| - 1];
      PairingCount(h, init, d) + (if Pairs(Run(h, init).pairing, es[|es| - 1], d) then 1 else 0)
  }

  /** A device is paired at most once in its life; while its code is pending it has not been paired. */
  lemma {:induction false} PairedAtMostOnce(es: seq<Event>, d: DeviceId)
    requires FreshRun(NO_HUB, es)
    ensures var p := Run(NO_HUB, es).pairing;
            && PairingCount(NO_HUB, es, d) + (if d in p.codes then 1 else 0) <= 1
            && (d !in p.devices ==> PairingCount(NO_HUB, es, d) == 0)
  {
    if es != [] {
      PairedAtMostOnce(es[..|es| - 1], d);
      RunSound(NO_HUB, es[..|es| - 1]);
      assert SoundDevice(Run(NO_HUB, es[..|es| - 1]).pairing, d);
      PairsStep(Run(NO_HUB, es[..|es| - 1]).pairing, es[|es| - 1], d);
      hide NextPairing, NextTransports, NextSlots, Sound, Pairs;
    }
  }

  predicate IssuedBy(es: seq<Event>, i: nat, d: DeviceId, code: Digest, expiresAt: Time) {
    i < |es| && es[i].Register? && es[i].device == d && Digest(es[i].code) == code && es[i].expiresAt == expiresAt
  }

  predicate GrantedBy(es: seq<Event>, i: nat, j: nat, d: DeviceId, token: Digest) {
    && i < j < |es|
    && es[j].Confirm? && es[j].device == d && Digest(es[j].token) == token
    && es[i].Register? && es[i].device == d && es[i].code == es[j].code && es[j].now <= es[i].expiresAt
  }

  /** A stored token was handed out by a confirmation that presented, in time, the code of the device's registration. */
  lemma {:induction false} TokensAreGranted(es: seq<Event>, d: DeviceId)
    requires FreshRun(NO_HUB, es)
    ensures var p := Run(NO_HUB, es).pairing;
            && (d in p.codes ==> exists i :: IssuedBy(es, i, d, p.codes[d].digest, p.codes[d].expiresAt))
            && (d in p.tokens ==> exists i, j :: GrantedBy(es, i, j, d, p.tokens[d]))
  {
    if es != [] {
      var n := |es| - 1;
      var init, e := es[..n], es[n];
      TokensAreGranted(init, d);
      var p, q := Run(NO_HUB, init).pairing, Run(NO_HUB, es).pairing;
      if d in p.codes {
        var i :| IssuedBy(init, i, d, p.codes[d].digest, p.codes[d].expiresAt);
        assert IssuedBy(es, i, d, p.codes[d].digest, p.codes[d].expiresAt);
        if Pairs(Run(NO_HUB, init).pairing, e, d) {
          assert GrantedBy(es, i, n, d, q.tokens[d]);
        }
      }
      if d in p.tokens {
        var i, j :| GrantedBy(init, i, j, d, p.tokens[d]);
        assert GrantedBy(es, i, j, d, p.tokens[d]);
      }
      if e.Register? && e.device == d {
        assert IssuedBy(es, n, d, q.codes[d].digest, q.codes[d].expiresAt);
      }
    }
  }

  // --- isolation ---------------------------------------------------------------------------------------------------

  /** The events that concern command `c` of device `d`. */
  predicate Own(e: Event, c: CommandId, d: DeviceId) {
    match e
    case Inbound(d', m) => d' == d && Addresses(m, c)
    case Disconnect(d') => d' == d
    case SendFails(c') => c' == c
    case Sent(c') => c' == c
    case Resume(c') => c' == c
    case Timeout(c') => c' == c
    case Cancel(c') => c' == c
    case _ => false
  }

  function OwnEvents(es: seq<Event>, c: CommandId, d: DeviceId): (own: seq<Event>)
    ensures forall i :: 0 <= i < |own| ==> Own(own[i], c, d)
  {
    if es == [] then []
    else
      OwnEvents(es[..|es| - 1], c, d) + (if Own(es[|es| - 1], c, d) then [es[|es| - 1]] else [])
  }

  /** One command with its own events only: no pairing, no transport, no other command. */
  function SoloNext(s: Slot, e: Event): Slot {
    match e
    case Inbound(_, m) => if s.listed && m.Message? then s.(command := Told(s.command, m)) else s
    case Disconnect(_) => if s.listed then Slot(Lost(s.command), s.stage, false) else s
    case SendFails(_) => if s.stage == Sending then s.(stage := SendFailed) else s
    case Sent(_) => if s.stage == Sending then s.(stage := Waiting) else s
    case Resume(_) =>
      if s.stage == Waiting && s.command.future.Some?
      then s.(stage := Returned(s.command.future.value), listed := false) else s
    case Timeout(_) =>
      if s.stage == Waiting then s.(stage := TimedOut(Partial(s.command)), listed := false) else s
    case Cancel(_) => if s.stage == Waiting then s.(stage := Cancelled, listed := false) else s
    case _ => s
  }

  function SoloRun(s: Slot, es: seq<Event>): Slot {
    if es == [] then s else SoloNext(SoloRun(s, es[..|es| - 1]), es[|es| - 1])
  }

  lemma NextOnSlot(h: Hub, e: Event, c: CommandId)
    requires Sound(h) && Fresh(h, e) && c in h.slots
    ensures c in Next(h, e).slots
    ensures Next(h, e).slots[c] ==
            if Own(e, c, h.slots[c].command.device) then SoloNext(h.slots[c], e) else h.slots[c]
  {
    hide Told, Partial;
  }

  lemma SoloKeepsDevice(s: Slot, e: Event)
    ensures SoloNext(s, e).command.device == s.command.device
    ensures SoloNext(s, e).command.maxStdout == s.command.maxStdout
    ensures SoloNext(s, e).command.maxStderr == s.command.maxStderr
    ensures s.command.future.Some? ==> SoloNext(s, e).command.future == s.command.future
  {
  }

  /** Whatever else happens, a command's object, call and listing are the fold of its own events. */
  lemma {:induction false} Isolation(h: Hub, es: seq<Event>, c: CommandId)
    requires Sound(h) && FreshRun(h, es) && c in h.slots
    ensures c in Run(h, es).slots
    ensures Run(h, es).slots[c] == SoloRun(h.slots[c], OwnEvents(es, c, h.slots[c].command.device))
    ensures Run(h, es).slots[c].command.device == h.slots[c].command.device
  {
    if es != [] {
      var init, e, d := es[..|es| - 1], es[|es| - 1], h.slots[c].command.device;
      Isolation(h, init, c);
      RunSound(h, init);
      NextOnSlot(Run(h, init), e, c);
      var own := OwnEvents(init, c, d);
      SoloKeepsDevice(SoloRun(h.slots[c], own), e);
      if Own(e, c, d) {
        assert (own + [e])[..|own|] == own;
      } else {
        assert own + [] == own;
      }
    }
  }

  /** A future is set at most once: once set, no run changes it. */
  lemma {:induction false} FutureSetOnce(h: Hub, es: seq<Event>, c: CommandId)
    requires Sound(h) && FreshRun(h, es) && c in h.slots && h.slots[c].command.future.Some?
    ensures c in Run(h, es).slots && Run(h, es).slots[c].command.future == h.slots[c].command.future
  {
    if es != [] {
      var init := es[..|es| - 1];
      FutureSetOnce(h, init, c);
      RunSound(h, init);
      NextOnSlot(Run(h, init), es[|es| - 1], c);
      SoloKeepsDevice(Run(h, init).slots[c], es[|es| - 1]);
    }
  }

  // --- messages that raise -----------------------------------------------------------------------------------------

  /** The run without the messages that raised. */
  function Understood(es: seq<Event>): seq<Event> {
    if es == [] then []
    else
      var e := es[|es| - 1];
      Understood(es[..|es| - 1]) + (if e.Inbound? && ReplyTo(e.message) != Handled then [] else [e])
  }

  lemma {:induction false} RaisingMessagesChangeNothing(h: Hub, es: seq<Event>)
    ensures Run(h, es) == Run(h, Understood(es))
  {
    hide Next, ReplyTo;
    if es != [] {
      var init, e := es[..|es| - 1], es[|es| - 1];
      RaisingMessagesChangeNothing(h, init);
      var kept := Understood(init);
      if e.Inbound? && ReplyTo(e.message) != Handled {
        UnaddressedChangesNothing(Run(h, init), e.device, e.message);
        assert kept + [] == kept;
      } else {
        assert (kept + [e])[..|kept|] == kept;
      }
    }
  }

  /** The gateway hands over one value after the other. What MalformedMessageError it gets it logs; any other exception
      ends its loop, and the device is disconnected. */
  function Served(h: Hub, d: DeviceId, python: Python, ws: seq<Wire>): Hub
    decreases |ws|
  {
    if ws == [] then h
    else
      var m := Read(python, ws[0]);
      var next := Next(h, Inbound(d, m));
      if Escapes(ReplyTo(m)) then Next(next, Disconnect(d)) else Served(next, d, python, ws[1..])
  }

  /** A device stays connected exactly as long as it sends nothing that raises another exception; the first such value
      takes the connection down and no command of the device is pending any more. */
  lemma {:induction false} ConnectionSurvivesExactly(h: Hub, d: DeviceId, python: Python, ws: seq<Wire>)
    requires Sound(h) && d in h.transports
    ensures var end := Served(h, d, python, ws);
            && (d in end.transports <==> forall w :: w in ws ==> !Escapes(ReplyTo(Read(python, w))))
            && (d !in end.transports ==> ListedOf(end.slots, d) == {})
    decreases |ws|
  {
    hide Next, Read, ReplyTo, Escapes, Sound;
    if ws != [] {
      var m := Read(python, ws[0]);
      var next := Next(h, Inbound(d, m));
      InboundKeepsTransports(h, d, m);
      NextSound(h, Inbound(d, m));
      assert ws[0] in ws;
      if Escapes(ReplyTo(m)) {
        DisconnectDrops(next, d);
      } else {
        ConnectionSurvivesExactly(next, d, python, ws[1..]);
        assert forall w :: w in ws <==> w == ws[0] || w in ws[1..];
      }
    }
  }

  lemma InboundKeepsTransports(h: Hub, d: DeviceId, m: Message)
    ensures Next(h, Inbound(d, m)).transports == h.transports && Fresh(h, Inbound(d, m))
  {
  }

  lemma DisconnectDrops(h: Hub, d: DeviceId)
    requires Sound(h) && d in h.transports
    ensures d !in Next(h, Disconnect(d)).transports && ListedOf(Next(h, Disconnect(d)).slots, d) == {}
  {
    hide Lost;
  }

  // --- what a command returns --------------------------------------------------------------------------------------

  /** The texts of the messages of one kind, in order of arrival. */
  function Texts(es: seq<Event>, kind: MessageType): seq<string> {
    if es == [] then []
    else
      var e := es[|es| - 1];
      Texts(es[..|es| - 1], kind) +
      (if e.Inbound? && e.message.Message? && e.message.kind == kind then [e.message.data] else [])
  }

  /** A terminal event: completion, failure, or loss of the connection. */
  predicate Ends(e: Event) {
    || e.Disconnect?
    || (e.Inbound? && e.message.Message? && (e.message.kind == COMMAND_COMPLETED || e.message.kind == COMMAND_FAILED))
  }

  predicate FirstEnd(es: seq<Event>, i: nat) {
    i < |es| && Ends(es[i]) && forall j :: 0 <= j < i ==> !Ends(es[j])
  }

  /** The output of a stream: one cut and one decoding of everything that was sent on it. */
  function Output(cap: Option<int>, es: seq<Event>, kind: MessageType): string {
    OneShot(cap, Concat(Texts(es, kind)))
  }

  /** The result a terminal event `e` gives after the own events `before`. */
  function ResultOf(maxStdout: Option<int>, maxStderr: Option<int>, before: seq<Event>, e: Event): ExecutionResult {
    if !e.Inbound? || !e.message.Message? then LOST
    else
      var completed := e.message.kind == COMMAND_COMPLETED;
      ExecutionResult(
        if completed then SUCCEEDED else FAILED,
        if completed then CompletedExit(e.message.exitCode) else FailedExit(e.message.exitCode),
        Some(Output(maxStdout, before, STDOUT)),
        Some(Output(maxStderr, before, STDERR) + (if completed then "" else e.message.errorMessage)),
        Overflowed(maxStdout, Texts(before, STDOUT)),
        Overflowed(maxStderr, Texts(before, STDERR)),
        false)
  }

  /** The partial output a timeout reports after the own events `before`. */
  function TimeoutResult(maxStdout: Option<int>, maxStderr: Option<int>, before: seq<Event>): ExecutionResult {
    var heard := Heard(before);
    ExecutionResult(
      FAILED, None,
      Some(Output(maxStdout, heard, STDOUT)), Some(Output(maxStderr, heard, STDERR)),
      Overflowed(maxStdout, Texts(heard, STDOUT)), Overflowed(maxStderr, Texts(heard, STDERR)),
      true)
  }

  /** The events up to the first disconnect, after which nothing reaches the command any more. */
  function Heard(es: seq<Event>): seq<Event> {
    if es == [] then []
    else
      var init := es[..|es| - 1];
      if Disconnected(init) || es[|es| - 1].Disconnect? then Heard(init) else es
  }

  predicate Disconnected(es: seq<Event>) {
    exists i :: 0 <= i < |es| && es[i].Disconnect?
  }

  predicate Open(stage: Stage) {
    stage.Sending? || stage.SendFailed? || stage.Waiting?
  }

  ghost predicate Streams(c: Command, es: seq<Event>) {
    && c.out == AcceptAll(c.maxStdout, Texts(es, STDOUT))
    && c.err == AcceptAll(c.maxStderr, Texts(es, STDERR))
  }

  ghost predicate ResolvedBy(maxStdout: Option<int>, maxStderr: Option<int>, es: seq<Event>, r: ExecutionResult) {
    exists i: nat :: FirstEnd(es, i) && r == ResultOf(maxStdout, maxStderr, es[..i], es[i])
  }

  ghost predicate TimedOutBy(maxStdout: Option<int>, maxStderr: Option<int>, es: seq<Event>, r: ExecutionResult) {
    exists j :: 0 <= j < |es| && es[j].Timeout? && r == TimeoutResult(maxStdout, maxStderr, es[..j])
  }

  ghost predicate StreamsExplained(s: Slot, es: seq<Event>) {
    Open(s.stage) ==> (s.listed <==> !Disconnected(es)) && Streams(s.command, Heard(es))
  }

  predicate NothingEnded(s: Slot, es: seq<Event>) {
    Open(s.stage) && s.command.future.None? ==> forall i :: 0 <= i < |es| ==> !Ends(es[i])
  }

  ghost predicate FutureExplained(s: Slot, es: seq<Event>) {
    s.command.future.Some? ==> ResolvedBy(s.command.maxStdout, s.command.maxStderr, es, s.command.future.value)
  }

  ghost predicate TimeoutExplained(s: Slot, es: seq<Event>) {
    s.stage.TimedOut? ==> TimedOutBy(s.command.maxStdout, s.command.maxStderr, es, s.stage.result)
  }

  predicate StageSound(s: Slot) {
    && (s.stage.Returned? ==> s.command.future == Some(s.stage.result))
    && (!Open(s.stage) ==> !s.listed)
  }

  ghost predicate Explained(s: Slot, es: seq<Event>) {
    && StreamsExplained(s, es) && NothingEnded(s, es) && FutureExplained(s, es) && TimeoutExplained(s, es)
    && StageSound(s)
  }

  lemma StreamText(cap: Option<int>, es: seq<Event>, kind: MessageType)
    ensures Text(AcceptAll(cap, Texts(es, kind))) == Output(cap, es, kind)
    ensures AcceptAll(cap, Texts(es, kind)).truncated <==> Overflowed(cap, Texts(es, kind))
  {
    AcceptAllIsOneShot(cap, Texts(es, kind));
    TruncatedExactly(cap, Texts(es, kind));
  }

  lemma StreamStep(cap: Option<int>, es: seq<Event>, e: Event, kind: MessageType)
    ensures AcceptAll(cap, Texts(es + [e], kind)) ==
            if e.Inbound? && e.message.Message? && e.message.kind == kind
            then Accept(cap, AcceptAll(cap, Texts(es, kind)), e.message.data)
            else AcceptAll(cap, Texts(es, kind))
  {
    assert (es + [e])[..|es|] == es;
    var texts := Texts(es, kind);
    if e.Inbound? && e.message.Message? && e.message.kind == kind {
      assert (texts + [e.message.data])[..|texts|] == texts;
    } else {
      assert texts + [] == texts;
    }
  }

  lemma StreamsStep(c: Command, es: seq<Event>, e: Event)
    requires Streams(c, es)
    requires e.Inbound? ==> e.message.Message?
    ensures Streams(if e.Inbound? then Told(c, e.message) else c, es + [e])
  {
    StreamStep(c.maxStdout, es, e, STDOUT);
    StreamStep(c.maxStderr, es, e, STDERR);
    hide Accept, AcceptAll, Texts;
  }

  lemma ResolvedByMore(maxStdout: Option<int>, maxStderr: Option<int>, es: seq<Event>, e: Event, r: ExecutionResult)
    requires ResolvedBy(maxStdout, maxStderr, es, r)
    ensures ResolvedBy(maxStdout, maxStderr, es + [e], r)
  {
    hide ResultOf;
    var i: nat :| FirstEnd(es, i) && r == ResultOf(maxStdout, maxStderr, es[..i], es[i]);
    assert (es + [e])[..i] == es[..i] && FirstEnd(es + [e], i);
  }

  lemma TimedOutByMore(maxStdout: Option<int>, maxStderr: Option<int>, es: seq<Event>, e: Event, r: ExecutionResult)
    requires TimedOutBy(maxStdout, maxStderr, es, r)
    ensures TimedOutBy(maxStdout, maxStderr, es + [e], r)
  {
    hide TimeoutResult;
    var j :| 0 <= j < |es| && es[j].Timeout? && r == TimeoutResult(maxStdout, maxStderr, es[..j]);
    assert (es + [e])[..j] == es[..j] && (es + [e])[j] == es[j];
  }

  lemma HeardStep(es: seq<Event>, e: Event)
    ensures Disconnected(es + [e]) <==> Disconnected(es) || e.Disconnect?
    ensures Heard(es + [e]) == if Disconnected(es) || e.Disconnect? then Heard(es) else es + [e]
    ensures !Disconnected(es) ==> Heard(es) == es
  {
    assert (es + [e])[..|es|] == es;
    if e.Disconnect? {
      assert (es + [e])[|es|].Disconnect?;
    }
    if Disconnected(es) {
      var i :| 0 <= i < |es| && es[i].Disconnect?;
      assert (es + [e])[i].Disconnect?;
    } else {
      HeardAll(es);
    }
  }

  lemma {:induction false} HeardAll(es: seq<Event>)
    requires !Disconnected(es)
    ensures Heard(es) == es
  {
    if es != [] {
      var init := es[..|es| - 1];
      assert forall i :: 0 <= i < |init| ==> init[i] == es[i];
      HeardAll(init);
    }
  }

  lemma EndResult(c: Command, es: seq<Event>, e: Event)
    requires Streams(c, es) && c.future.None? && Ends(e)
    ensures (if e.Disconnect? then Lost(c) else Told(c, e.message)).future ==
            Some(ResultOf(c.maxStdout, c.maxStderr, es, e))
  {
    StreamText(c.maxStdout, es, STDOUT);
    StreamText(c.maxStderr, es, STDERR);
    hide AcceptAll, Overflowed, Text, Output, Texts;
    assert Output(c.maxStderr, es, STDERR) + "" == Output(c.maxStderr, es, STDERR);
  }

  // One lemma for each clause.

  lemma StreamsStay(s: Slot, es: seq<Event>, e: Event)
    requires StreamsExplained(s, es) && StageSound(s)
    requires e.Inbound? ==> e.message.Message?
    ensures StreamsExplained(SoloNext(s, e), es + [e])
  {
    hide Streams, Heard, Disconnected, Told, Lost, Partial;
    if Open(s.stage) {
      HeardStep(es, e);
      if !Disconnected(es) {
        StreamsStep(s.command, es, e);
        LostStreams(s.command, es);
      }
    }
  }

  lemma LostStreams(c: Command, es: seq<Event>)
    requires Streams(c, es)
    ensures Streams(Lost(c), es)
  {
    hide AcceptAll, Texts;
  }

  lemma NothingEndedStays(s: Slot, es: seq<Event>, e: Event)
    requires StreamsExplained(s, es) && NothingEnded(s, es)
    requires e.Inbound? ==> e.message.Message?
    ensures NothingEnded(SoloNext(s, e), es + [e])
  {
    hide Streams, Heard, Accept, Partial;
    SoloKeepsDevice(s, e);
    if Disconnected(es) {
      var i :| 0 <= i < |es| && es[i].Disconnect?;
      assert Ends(es[i]);
    }
  }

  lemma FutureComesFromEnd(s: Slot, e: Event)
    requires s.command.future.None? && SoloNext(s, e).command.future.Some?
    ensures s.listed && Ends(e)
    ensures SoloNext(s, e).command.future ==
        (if e.Disconnect? then Lost(s.command) else Told(s.command, e.message)).future
  {
    hide Partial, Accept, Text;
  }

  /** A terminal event reaching a listed, unresolved command resolves it with the closed-form result. */
  lemma FutureStays(s: Slot, es: seq<Event>, e: Event)
    requires Explained(s, es)
    ensures FutureExplained(SoloNext(s, e), es + [e])
  {
    hide SoloNext, Streams, Heard, ResultOf, Told, Lost, ResolvedBy, Disconnected;
    SoloKeepsDevice(s, e);
    var c, u := s.command, SoloNext(s, e).command;
    if c.future.Some? {
      ResolvedByMore(c.maxStdout, c.maxStderr, es, e, c.future.value);
    } else if u.future.Some? {
      FutureComesFromEnd(s, e);
      HeardStep(es, e);
      EndResult(c, es, e);
      EndResolves(c.maxStdout, c.maxStderr, es, e);
    }
  }

  lemma EndResolves(maxStdout: Option<int>, maxStderr: Option<int>, es: seq<Event>, e: Event)
    requires Ends(e) && forall i :: 0 <= i < |es| ==> !Ends(es[i])
    ensures ResolvedBy(maxStdout, maxStderr, es + [e], ResultOf(maxStdout, maxStderr, es, e))
  {
    hide ResultOf, Ends;
    var all := es + [e];
    assert all[..|es|] == es && all[|es|] == e && FirstEnd(all, |es|);
    assert ResultOf(maxStdout, maxStderr, es, e) == ResultOf(maxStdout, maxStderr, all[..|es|], all[|es|]);
  }

  lemma PartialResult(c: Command, es: seq<Event>)
    requires Streams(c, Heard(es))
    ensures Partial(c) == TimeoutResult(c.maxStdout, c.maxStderr, es)
  {
    hide AcceptAll, Output, Overflowed, Text, Heard, Texts;
    StreamText(c.maxStdout, Heard(es), STDOUT);
    StreamText(c.maxStderr, Heard(es), STDERR);
  }

  lemma TimeoutStays(s: Slot, es: seq<Event>, e: Event)
    requires StreamsExplained(s, es) && TimeoutExplained(s, es)
    ensures TimeoutExplained(SoloNext(s, e), es + [e])
  {
    hide Streams, Heard, TimeoutResult, Partial, Told, Lost, TimedOutBy;
    SoloKeepsDevice(s, e);
    var c := s.command;
    if s.stage.TimedOut? {
      TimedOutByMore(c.maxStdout, c.maxStderr, es, e, s.stage.result);
    } else if e.Timeout? && s.stage.Waiting? {
      PartialResult(c, es);
      TimesOutNow(c.maxStdout, c.maxStderr, es, e);
    }
  }

  lemma TimesOutNow(maxStdout: Option<int>, maxStderr: Option<int>, es: seq<Event>, e: Event)
    requires e.Timeout?
    ensures TimedOutBy(maxStdout, maxStderr, es + [e], TimeoutResult(maxStdout, maxStderr, es))
  {
    hide TimeoutResult;
    var all := es + [e];
    assert all[..|es|] == es && all[|es|].Timeout?;
    assert TimeoutResult(maxStdout, maxStderr, es) == TimeoutResult(maxStdout, maxStderr, all[..|es|]);
  }

  lemma StageStays(s: Slot, e: Event)
    requires StageSound(s)
    ensures StageSound(SoloNext(s, e))
  {
    hide Told, Lost, Partial;
    SoloKeepsDevice(s, e);
  }

  lemma ExplainedStep(s: Slot, es: seq<Event>, e: Event)
    requires Explained(s, es)
    requires e.Inbound? ==> e.message.Message?
    ensures Explained(SoloNext(s, e), es + [e])
  {
    hide SoloNext, StreamsExplained, NothingEnded, FutureExplained, TimeoutExplained, StageSound;
    StreamsStay(s, es, e);
    NothingEndedStays(s, es, e);
    FutureStays(s, es, e);
    TimeoutStays(s, es, e);
    StageStays(s, e);
  }

  lemma {:induction false} SoloExplained(s: Slot, es: seq<Event>, c: CommandId, d: DeviceId)
    requires Explained(s, [])
    requires forall i :: 0 <= i < |es| ==> Own(es[i], c, d)
    ensures Explained(SoloRun(s, es), es)
    ensures SoloRun(s, es).command.maxStdout == s.command.maxStdout
    ensures SoloRun(s, es).command.maxStderr == s.command.maxStderr
  {
    hide Explained, SoloNext;
    if es != [] {
      var init, e := es[..|es| - 1], es[|es| - 1];
      SoloExplained(s, init, c, d);
      ExplainedStep(SoloRun(s, init), init, e);
      SoloKeepsDevice(SoloRun(s, init), e);
      assert init + [e] == es;
    }
  }

  /** In every interleaving, a call that returns reports the closed form of its own messages up to the first terminal
      event: one cut and one decoding per stream, exact truncation flags, that event's exit code. A call that times out
      reports the closed form of what its device sent before. Only calls that are still open, or whose send failed,
      are listed in `_pending`. */
  lemma CommandOutcome(h: Hub, c: CommandId, d: DeviceId, maxStdout: Option<int>, maxStderr: Option<int>,
                       es: seq<Event>)
    requires Sound(h) && c !in h.slots && d in h.transports
    requires FreshRun(Next(h, Start(c, d, maxStdout, maxStderr)), es)
    ensures var after := Run(Next(h, Start(c, d, maxStdout, maxStderr)), es);
            var own := OwnEvents(es, c, d);
            && c in after.slots
            && var stage := after.slots[c].stage;
            && (stage.Returned? ==>
                  exists i: nat :: FirstEnd(own, i) && stage.result == ResultOf(maxStdout, maxStderr, own[..i], own[i]))
            && (stage.TimedOut? ==>
                  exists j :: 0 <= j < |own| && own[j].Timeout?
                      && stage.result == TimeoutResult(maxStdout, maxStderr, own[..j]))
            && (after.slots[c].listed ==> Open(stage) && !Disconnected(own))
            && var future := after.slots[c].command.future;
               && (future.Some? ==>
                     exists i: nat :: FirstEnd(own, i)
                         && future.value == ResultOf(maxStdout, maxStderr, own[..i], own[i]))
               && (Open(stage) && future.None? ==> forall i :: 0 <= i < |own| ==> !Ends(own[i]))
  {
    var start := Start(c, d, maxStdout, maxStderr);
    var own := OwnEvents(es, c, d);
    NextSound(h, start);
    Isolation(Next(h, start), es, c);
    StartExplained(d, maxStdout, maxStderr);
    SoloExplained(NewSlot(d, maxStdout, maxStderr), own, c, d);
    hide Next, SoloRun, FirstEnd, ResultOf, TimeoutResult, Heard, Streams;
  }

  lemma StartExplained(d: DeviceId, maxStdout: Option<int>, maxStderr: Option<int>)
    ensures Explained(NewSlot(d, maxStdout, maxStderr), [])
  {
  }
}
