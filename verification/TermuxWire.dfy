/** The Termux connection in terms of what travels over it: the JSON values a device sends, with the message types
    written out. */
module TermuxWire {
  import opened Prelude
  import opened CappedOutput
  import opened TermuxPairing
  import opened TermuxMessages
  import opened TermuxConnection
  import opened TermuxRuns

  // --- A value and the command it is about -------------------------------------------------------------------------

  /** The value is a message, and its command id is a text that reads as `c`. */
  predicate Names(python: Python, w: Wire, c: CommandId) {
    && w.WObject? && "type" in w.fields && "commandId" in w.fields
    && w.fields["commandId"].WText? && w.fields["commandId"].text != ""
    && python.uuid(w.fields["commandId"].text) == Some(c)
  }

  predicate IsOfType(w: Wire, t: string) {
    w.WObject? && "type" in w.fields && w.fields["type"] == WText(t)
  }

  /** The text under `key`, printed if it is none, empty if there is nothing. */
  function Printed(python: Python, w: Wire, key: string): string {
    if !w.WObject? || key !in w.fields then ""
    else if w.fields[key].WText? then w.fields[key].text
    else python.str(w.fields[key])
  }

  /** The exit code of a command that completed: the one given, `None` for null, zero if none is given. */
  function CompletedWith(w: Wire): Option<Wire> {
    if !w.WObject? || "exitCode" !in w.fields then Some(WNumber(0.0))
    else if w.fields["exitCode"].WNull? then None
    else Some(w.fields["exitCode"])
  }

  /** That of one that failed: the one given, if any. */
  function FailedWith(w: Wire): Option<Wire> {
    if !w.WObject? || "exitCode" !in w.fields || w.fields["exitCode"].WNull? then None else Some(w.fields["exitCode"])
  }

  lemma NamesAddresses(python: Python, w: Wire, c: CommandId)
    ensures Names(python, w, c) <==> Addresses(Read(python, w), c)
  {
    hide KindOf, ExitOf, TextOf;
  }

  lemma TypesDiffer()
    ensures "stdout" != "stderr" && "stdout" != "command_completed" && "stdout" != "command_failed"
    ensures "stderr" != "command_completed" && "stderr" != "command_failed" && "command_completed" != "command_failed"
  {
    assert "stdout"[3] == 'o' && "stderr"[3] == 'e';
  }

  /** What the handler reads off a message. */
  lemma ReadMeans(python: Python, w: Wire)
    requires Typed(w)
    ensures var m := Read(python, w);
            && m.Message?
            && (m.kind == STDOUT <==> IsOfType(w, "stdout")) && (m.kind == STDERR <==> IsOfType(w, "stderr"))
            && (m.kind == COMMAND_COMPLETED <==> IsOfType(w, "command_completed"))
            && (m.kind == COMMAND_FAILED <==> IsOfType(w, "command_failed"))
            && m.data == Printed(python, w, "data") && m.errorMessage == Printed(python, w, "errorMessage")
            && CompletedExit(m.exitCode) == CompletedWith(w) && FailedExit(m.exitCode) == FailedWith(w)
  {
    hide IdOf;
    TypesDiffer();
  }

  /** A message of its device about a command that is listed and not resolved. `stdout` and `stderr` extend their own
      stream by the data, under its cap; `command_completed` resolves it SUCCEEDED, `command_failed` FAILED, each with
      its exit code, all output so far, and the latter with its error text after stderr; any other type changes
      nothing. */
  lemma MessageMeans(h: Hub, d: DeviceId, w: Wire, python: Python, c: CommandId)
    requires c in h.slots && h.slots[c].listed && h.slots[c].command.device == d && h.slots[c].command.future.None?
    requires Names(python, w, c)
    ensures var was, h' := h.slots[c].command, Next(h, Inbound(d, Read(python, w)));
            && h'.slots.Keys == h.slots.Keys && h'.pairing == h.pairing && h'.transports == h.transports
            && (forall o :: o in h.slots && o != c ==> h'.slots[o] == h.slots[o])
            && h'.slots[c] == h.slots[c].(command := h'.slots[c].command)
            && var now := h'.slots[c].command;
               && (IsOfType(w, "stdout") ==>
                     now == was.(out := Accept(was.maxStdout, was.out, Printed(python, w, "data"))))
               && (IsOfType(w, "stderr") ==>
                     now == was.(err := Accept(was.maxStderr, was.err, Printed(python, w, "data"))))
               && (IsOfType(w, "command_completed") ==>
                     now == was.(future := Some(ExecutionResult(
                       SUCCEEDED, CompletedWith(w), Some(Text(was.out)), Some(Text(was.err)),
                       was.out.truncated, was.err.truncated, false))))
               && (IsOfType(w, "command_failed") ==>
                     now == was.(future := Some(ExecutionResult(
                       FAILED, FailedWith(w), Some(Text(was.out)),
                       Some(Text(was.err) + Printed(python, w, "errorMessage")),
                       was.out.truncated, was.err.truncated, false))))
               && (now != was ==> IsOfType(w, "stdout") || IsOfType(w, "stderr") || IsOfType(w, "command_completed")
                                  || IsOfType(w, "command_failed"))
  {
    hide Accept, Text, Read, Printed, IsOfType, CompletedWith, FailedWith, CompletedExit, FailedExit;
    TypedIfNames(python, w, c);
    ReadMeans(python, w);
    NamesAddresses(python, w, c);
    InboundMeans(h, d, Read(python, w), c);
    ToldMeans(h.slots[c].command, Read(python, w));
  }

  lemma TypedIfNames(python: Python, w: Wire, c: CommandId)
    requires Names(python, w, c)
    ensures Typed(w)
  {
  }

  lemma InboundMeans(h: Hub, d: DeviceId, m: Message, c: CommandId)
    requires c in h.slots && h.slots[c].listed && h.slots[c].command.device == d && Addresses(m, c)
    ensures Next(h, Inbound(d, m)) == h.(slots := h.slots[c := h.slots[c].(command := Told(h.slots[c].command, m))])
  {
    hide Told;
  }

  lemma ToldMeans(c: Command, m: Message)
    requires m.Message? && c.future.None?
    ensures m.kind == STDOUT ==> Told(c, m) == c.(out := Accept(c.maxStdout, c.out, m.data))
    ensures m.kind == STDERR ==> Told(c, m) == c.(err := Accept(c.maxStderr, c.err, m.data))
    ensures m.kind == COMMAND_COMPLETED ==>
              Told(c, m) == c.(future := Some(ExecutionResult(
                SUCCEEDED, CompletedExit(m.exitCode), Some(Text(c.out)), Some(Text(c.err)),
                c.out.truncated, c.err.truncated, false)))
    ensures m.kind == COMMAND_FAILED ==>
              Told(c, m) == c.(future := Some(ExecutionResult(
                FAILED, FailedExit(m.exitCode), Some(Text(c.out)), Some(Text(c.err) + m.errorMessage),
                c.out.truncated, c.err.truncated, false)))
    ensures m.kind in {OTHER, UNHASHABLE} ==> Told(c, m) == c
  {
    hide Accept, Text;
    assert Text(c.err) + "" == Text(c.err);
  }

  // --- Runs over JSON values ---------------------------------------------------------------------------------------

  /** A device sends a value, or something else happens. */
  datatype Happening = Says(device: DeviceId, value: Wire) | Does(event: Event)

  predicate Plain(hs: seq<Happening>) {
    forall x :: x in hs && x.Does? ==> !x.event.Inbound?
  }

  function AsEvent(python: Python, x: Happening): Event {
    match x
    case Says(d, w) => Inbound(d, Read(python, w))
    case Does(e) => e
  }

  function AsEvents(python: Python, hs: seq<Happening>): (es: seq<Event>)
    ensures |es| == |hs| && forall i :: 0 <= i < |hs| ==> es[i] == AsEvent(python, hs[i])
  {
    seq(|hs|, i requires 0 <= i < |hs| => AsEvent(python, hs[i]))
  }

  /** What concerns command `c` of device `d`: messages of the device that name it, the device's disconnects, and its
      own call. */
  predicate Concerns(python: Python, x: Happening, c: CommandId, d: DeviceId) {
    match x
    case Says(d', w) => d' == d && Names(python, w, c)
    case Does(e) =>
      || e == Disconnect(d) || e == SendFails(c) || e == Sent(c) || e == Resume(c) || e == Timeout(c) || e == Cancel(c)
  }

  function Concerning(python: Python, hs: seq<Happening>, c: CommandId, d: DeviceId): seq<Happening> {
    if hs == [] then []
    else
      Concerning(python, hs[..|hs| - 1], c, d)
      + if Concerns(python, hs[|hs| - 1], c, d) then [hs[|hs| - 1]] else []
  }

  lemma OwnConcerns(python: Python, x: Happening, c: CommandId, d: DeviceId)
    requires x.Does? ==> !x.event.Inbound?
    ensures Own(AsEvent(python, x), c, d) <==> Concerns(python, x, c, d)
  {
    hide Read, Names;
    if x.Says? {
      NamesAddresses(python, x.value, c);
    }
  }

  lemma {:induction false} OwnAreConcerning(python: Python, hs: seq<Happening>, c: CommandId, d: DeviceId)
    requires Plain(hs)
    ensures OwnEvents(AsEvents(python, hs), c, d) == AsEvents(python, Concerning(python, hs, c, d))
    ensures Plain(Concerning(python, hs, c, d))
  {
    hide Own, Concerns, AsEvent;
    if hs != [] {
      var init, x := hs[..|hs| - 1], hs[|hs| - 1];
      assert x in hs && forall y :: y in init ==> y in hs;
      OwnAreConcerning(python, init, c, d);
      OwnConcerns(python, x, c, d);
      assert AsEvents(python, hs)[..|hs| - 1] == AsEvents(python, init);
      var own := Concerning(python, init, c, d);
      assert AsEvents(python, own + [x]) == AsEvents(python, own) + [AsEvent(python, x)];
      assert own + [] == own && AsEvents(python, own) + [] == AsEvents(python, own);
    }
  }

  // --- What a command returns --------------------------------------------------------------------------------------

  /** The data of the messages of one type, in order of arrival. */
  function DataOf(python: Python, own: seq<Happening>, t: string): seq<string> {
    if own == [] then []
    else
      var x := own[|own| - 1];
      DataOf(python, own[..|own| - 1], t)
      + if x.Says? && IsOfType(x.value, t) then [Printed(python, x.value, "data")] else []
  }

  /** The connection is lost, or a message says that the command completed or failed. */
  predicate IsFinal(x: Happening) {
    match x
    case Says(_, w) => IsOfType(w, "command_completed") || IsOfType(w, "command_failed")
    case Does(e) => e.Disconnect?
  }

  predicate FirstFinal(own: seq<Happening>, i: nat) {
    i < |own| && IsFinal(own[i]) && forall j :: 0 <= j < i ==> !IsFinal(own[j])
  }

  /** The result when `x` comes after `before`: on a loss, that message and nothing else; otherwise all that was sent on
      each stream, cut once at its cap and decoded. */
  function ResultAt(
    python: Python, maxStdout: Option<int>, maxStderr: Option<int>, before: seq<Happening>,
    x: Happening): ExecutionResult
  {
    var out, err := DataOf(python, before, "stdout"), DataOf(python, before, "stderr");
    match x
    case Does(_) =>
      ExecutionResult(FAILED, None, None, Some("Connection to the device was lost mid-command."), false, false, false)
    case Says(_, w) =>
      if IsOfType(w, "command_completed") then
        ExecutionResult(SUCCEEDED, CompletedWith(w), Some(OneShot(maxStdout, Concat(out))),
                        Some(OneShot(maxStderr, Concat(err))), Overflowed(maxStdout, out), Overflowed(maxStderr, err),
                        false)
      else
        ExecutionResult(FAILED, FailedWith(w), Some(OneShot(maxStdout, Concat(out))),
                        Some(OneShot(maxStderr, Concat(err)) + Printed(python, w, "errorMessage")),
                        Overflowed(maxStdout, out), Overflowed(maxStderr, err), false)
  }

  predicate SomeLoss(own: seq<Happening>) {
    exists i :: 0 <= i < |own| && own[i].Does? && own[i].event.Disconnect?
  }

  /** What came before the connection was lost. */
  function BeforeLoss(own: seq<Happening>): seq<Happening> {
    if SomeLoss(own) then BeforeLoss(own[..|own| - 1]) else own
  }

  /** The partial result of a call that times out after `before`. */
  function TimeoutAt(
    python: Python, maxStdout: Option<int>, maxStderr: Option<int>, before: seq<Happening>): ExecutionResult
  {
    var heard := BeforeLoss(before);
    var out, err := DataOf(python, heard, "stdout"), DataOf(python, heard, "stderr");
    ExecutionResult(FAILED, None, Some(OneShot(maxStdout, Concat(out))), Some(OneShot(maxStderr, Concat(err))),
                    Overflowed(maxStdout, out), Overflowed(maxStderr, err), true)
  }

  /** Every happening is about the command. */
  predicate AllConcern(python: Python, own: seq<Happening>, c: CommandId, d: DeviceId) {
    forall i :: 0 <= i < |own| ==> Concerns(python, own[i], c, d)
  }

  lemma {:induction false} ConcerningConcern(python: Python, hs: seq<Happening>, c: CommandId, d: DeviceId)
    ensures AllConcern(python, Concerning(python, hs, c, d), c, d)
  {
    hide Concerns;
    if hs != [] {
      ConcerningConcern(python, hs[..|hs| - 1], c, d);
    }
  }

  lemma ConcernReads(python: Python, x: Happening, c: CommandId, d: DeviceId)
    requires Concerns(python, x, c, d)
    ensures x.Says? ==> Typed(x.value)
    ensures x.Does? ==> !x.event.Inbound?
    ensures IsFinal(x) <==> Ends(AsEvent(python, x))
  {
    hide Read, IsOfType;
    if x.Says? {
      TypedIfNames(python, x.value, c);
      ReadMeans(python, x.value);
    }
  }

  lemma {:induction false} TextsAreData(python: Python, own: seq<Happening>, c: CommandId, d: DeviceId)
    requires AllConcern(python, own, c, d)
    ensures Texts(AsEvents(python, own), STDOUT) == DataOf(python, own, "stdout")
    ensures Texts(AsEvents(python, own), STDERR) == DataOf(python, own, "stderr")
  {
    hide Concerns, Read, IsOfType, Printed;
    if own != [] {
      var init, x := own[..|own| - 1], own[|own| - 1];
      TextsAreData(python, init, c, d);
      ConcernReads(python, x, c, d);
      if x.Says? {
        ReadMeans(python, x.value);
      }
      assert AsEvents(python, own)[..|own| - 1] == AsEvents(python, init);
    }
  }

  lemma ResultsAgree(
    python: Python, maxStdout: Option<int>, maxStderr: Option<int>, before: seq<Happening>, x: Happening, c: CommandId,
    d: DeviceId)
    requires AllConcern(python, before, c, d) && Concerns(python, x, c, d) && IsFinal(x)
    ensures ResultOf(maxStdout, maxStderr, AsEvents(python, before), AsEvent(python, x)) ==
            ResultAt(python, maxStdout, maxStderr, before, x)
  {
    hide AllConcern, Read, IsOfType, Printed, OneShot, Overflowed, Texts, DataOf, CompletedExit, FailedExit,
         CompletedWith, FailedWith;
    TextsAreData(python, before, c, d);
    ConcernReads(python, x, c, d);
    if x.Says? {
      ReadMeans(python, x.value);
      OneType(x.value);
      assert OneShot(maxStderr, Concat(DataOf(python, before, "stderr"))) + "" ==
             OneShot(maxStderr, Concat(DataOf(python, before, "stderr")));
    }
  }

  lemma OneType(w: Wire)
    ensures !(IsOfType(w, "command_completed") && IsOfType(w, "command_failed"))
  {
    TypesDiffer();
  }

  lemma {:induction false} HeardAgree(python: Python, own: seq<Happening>, c: CommandId, d: DeviceId)
    requires AllConcern(python, own, c, d)
    ensures Heard(AsEvents(python, own)) == AsEvents(python, BeforeLoss(own))
    ensures AllConcern(python, BeforeLoss(own), c, d)
    decreases |own|
  {
    hide Concerns;
    var es := AsEvents(python, own);
    LossAgrees(python, own, c, d);
    if own != [] {
      var init := own[..|own| - 1];
      assert es[..|own| - 1] == AsEvents(python, init);
      LossAgrees(python, init, c, d);
      if SomeLoss(own) {
        HeardAgree(python, init, c, d);
        assert Disconnected(es);
        LastOrBefore(es);
      } else {
        LastOrBefore(es);
      }
    }
  }

  lemma LastOrBefore(es: seq<Event>)
    requires es != []
    ensures Disconnected(es) <==> Disconnected(es[..|es| - 1]) || es[|es| - 1].Disconnect?
  {
    if Disconnected(es) {
      var i :| 0 <= i < |es| && es[i].Disconnect?;
      assert i < |es| - 1 ==> es[..|es| - 1][i].Disconnect?;
    }
    if Disconnected(es[..|es| - 1]) {
      var i :| 0 <= i < |es| - 1 && es[..|es| - 1][i].Disconnect?;
      assert es[i].Disconnect?;
    }
  }

  lemma LossAgrees(python: Python, own: seq<Happening>, c: CommandId, d: DeviceId)
    requires AllConcern(python, own, c, d)
    ensures Disconnected(AsEvents(python, own)) <==> SomeLoss(own)
  {
    hide Read, Names;
    var es := AsEvents(python, own);
    if SomeLoss(own) {
      var i :| 0 <= i < |own| && own[i].Does? && own[i].event.Disconnect?;
      assert es[i].Disconnect?;
    }
    if Disconnected(es) {
      var i :| 0 <= i < |es| && es[i].Disconnect?;
      assert own[i].Does?;
    }
  }

  lemma TimeoutsAgree(
    python: Python, maxStdout: Option<int>, maxStderr: Option<int>, before: seq<Happening>, c: CommandId, d: DeviceId)
    requires AllConcern(python, before, c, d)
    ensures TimeoutResult(maxStdout, maxStderr, AsEvents(python, before)) ==
        TimeoutAt(python, maxStdout, maxStderr, before)
  {
    hide AllConcern, OneShot, Overflowed, Texts, DataOf, Heard, BeforeLoss;
    HeardAgree(python, before, c, d);
    TextsAreData(python, BeforeLoss(before), c, d);
  }

  lemma PrefixConcerns(python: Python, own: seq<Happening>, i: nat, c: CommandId, d: DeviceId)
    requires AllConcern(python, own, c, d) && i <= |own|
    ensures AllConcern(python, own[..i], c, d) && AsEvents(python, own)[..i] == AsEvents(python, own[..i])
  {
    hide Concerns;
  }

  lemma FinalsAgree(python: Python, own: seq<Happening>, c: CommandId, d: DeviceId)
    requires AllConcern(python, own, c, d)
    ensures forall i :: 0 <= i < |own| ==> (Ends(AsEvents(python, own)[i]) <==> IsFinal(own[i]))
    ensures forall i: nat :: FirstEnd(AsEvents(python, own), i) <==> FirstFinal(own, i)
  {
    hide Concerns, Ends, IsFinal;
    forall i | 0 <= i < |own|
      ensures Ends(AsEvents(python, own)[i]) <==> IsFinal(own[i])
    {
      ConcernReads(python, own[i], c, d);
    }
  }

  /** A result that the events explain is explained by the values. */
  lemma ResolvedAgree(
    python: Python, maxStdout: Option<int>, maxStderr: Option<int>, own: seq<Happening>, c: CommandId, d: DeviceId,
    r: ExecutionResult)
    requires AllConcern(python, own, c, d)
    requires var es := AsEvents(python, own);
             exists i: nat :: FirstEnd(es, i) && r == ResultOf(maxStdout, maxStderr, es[..i], es[i])
    ensures exists i: nat :: FirstFinal(own, i) && r == ResultAt(python, maxStdout, maxStderr, own[..i], own[i])
  {
    hide AllConcern, ResultOf, ResultAt, IsFinal, Ends;
    var es := AsEvents(python, own);
    var i: nat :| FirstEnd(es, i) && r == ResultOf(maxStdout, maxStderr, es[..i], es[i]);
    FinalsAgree(python, own, c, d);
    assert FirstFinal(own, i);
    PrefixConcerns(python, own, i, c, d);
    OneConcerns(python, own, i, c, d);
    ResultsAgree(python, maxStdout, maxStderr, own[..i], own[i], c, d);
  }

  lemma OneConcerns(python: Python, own: seq<Happening>, i: nat, c: CommandId, d: DeviceId)
    requires AllConcern(python, own, c, d) && i < |own|
    ensures Concerns(python, own[i], c, d)
  {
    hide Concerns;
  }

  lemma TimedOutAgree(
    python: Python, maxStdout: Option<int>, maxStderr: Option<int>, own: seq<Happening>, c: CommandId, d: DeviceId,
    r: ExecutionResult)
    requires AllConcern(python, own, c, d)
    requires var es := AsEvents(python, own);
             exists j :: 0 <= j < |es| && es[j].Timeout? && r == TimeoutResult(maxStdout, maxStderr, es[..j])
    ensures exists j ::
              0 <= j < |own| && own[j] == Does(Timeout(c)) && r == TimeoutAt(python, maxStdout, maxStderr, own[..j])
  {
    hide TimeoutResult, TimeoutAt, Read, Names;
    var es := AsEvents(python, own);
    var j :| 0 <= j < |es| && es[j].Timeout? && r == TimeoutResult(maxStdout, maxStderr, es[..j]);
    PrefixConcerns(python, own, j, c, d);
    TimeoutsAgree(python, maxStdout, maxStderr, own[..j], c, d);
    assert own[j] == Does(Timeout(c));
  }

  /** In every interleaving of what devices send and what else happens, with a command started in between: a call that
      returns reports what the values say that its device sent about it, up to the first that says it completed or
      failed, or the loss of the connection; one that times out reports what was heard by then; and as long as the call
      is open, it is resolved exactly if there was such a value or loss. */
  lemma WireOutcome(
    h: Hub, c: CommandId, d: DeviceId, maxStdout: Option<int>, maxStderr: Option<int>, python: Python,
    hs: seq<Happening>)
    requires Sound(h) && c !in h.slots && d in h.transports && Plain(hs)
    requires FreshRun(Next(h, Start(c, d, maxStdout, maxStderr)), AsEvents(python, hs))
    ensures var after := Run(Next(h, Start(c, d, maxStdout, maxStderr)), AsEvents(python, hs));
            var own := Concerning(python, hs, c, d);
            && c in after.slots
            && var stage, future := after.slots[c].stage, after.slots[c].command.future;
               && (stage.Returned? ==>
                     exists i: nat :: FirstFinal(own, i)
                       && stage.result == ResultAt(python, maxStdout, maxStderr, own[..i], own[i]))
               && (stage.TimedOut? ==>
                     exists j :: 0 <= j < |own| && own[j] == Does(Timeout(c))
                       && stage.result == TimeoutAt(python, maxStdout, maxStderr, own[..j]))
               && (future.Some? ==>
                     exists i: nat :: FirstFinal(own, i)
                       && future.value == ResultAt(python, maxStdout, maxStderr, own[..i], own[i]))
               && (Open(stage) && future.None? ==> forall i :: 0 <= i < |own| ==> !IsFinal(own[i]))
  {
    hide Next, Run, FreshRun, OwnEvents, Sound, FirstEnd, ResultOf, TimeoutResult, Ends, IsFinal, FirstFinal, ResultAt,
         TimeoutAt, AllConcern, Concerning, Plain;
    var es, own := AsEvents(python, hs), Concerning(python, hs, c, d);
    CommandOutcome(h, c, d, maxStdout, maxStderr, es);
    OwnAreConcerning(python, hs, c, d);
    ConcerningConcern(python, hs, c, d);
    FinalsAgree(python, own, c, d);
    var slot := Run(Next(h, Start(c, d, maxStdout, maxStderr)), es).slots[c];
    if slot.stage.Returned? {
      ResolvedAgree(python, maxStdout, maxStderr, own, c, d, slot.stage.result);
    }
    if slot.stage.TimedOut? {
      TimedOutAgree(python, maxStdout, maxStderr, own, c, d, slot.stage.result);
    }
    if slot.command.future.Some? {
      ResolvedAgree(python, maxStdout, maxStderr, own, c, d, slot.command.future.value);
    }
  }
}
