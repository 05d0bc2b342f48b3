/** What a device may send: any JSON value. How `handle_inbound_message` reads one, and which of them make it raise. */
module TermuxMessages {
  import opened Prelude

  type CommandId = Uuid

  /** A JSON value as it arrives. Not-a-number and the infinities, which Python also reads, behave like any number but
      zero. */
  datatype Wire =
    | WNull
    | WBool(flag: bool)
    | WNumber(number: real)
    | WText(text: string)
    | WList(items: seq<Wire>)
    | WObject(fields: map<string, Wire>)

  /** Python's truth value. */
  predicate Truthy(w: Wire) {
    match w
    case WNull => false
    case WBool(b) => b
    case WNumber(x) => x != 0.0
    case WText(s) => s != ""
    case WList(items) => items != []
    case WObject(fields) => fields != map[]
  }

  /** Looking a value up in a set hashes it, which lists and objects refuse. */
  predicate Hashable(w: Wire) {
    !w.WList? && !w.WObject?
  }

  /** The functions of Python that a message goes through: `UUID(text)`, without a value for texts it refuses, and
      `str`. */
  datatype Python = Python(uuid: string -> Option<CommandId>, str: Wire -> string)

  function Str(python: Python, w: Wire): string {
    if w.WText? then w.text else python.str(w)
  }

  // --- A message as the handler takes it ---------------------------------------------------------------------------

  datatype MessageType = STDOUT | STDERR | COMMAND_COMPLETED | COMMAND_FAILED | OTHER | UNHASHABLE

  /** `commandId`: false in Python's sense or absent; a value that is no text; a text that is no UUID; a UUID. */
  datatype IdField = NoId | NotAText | NotAUuid | Id(id: CommandId)

  /** `exitCode`: absent, null or anything else, which is passed on as it is. */
  datatype ExitField = Absent | Null | Code(code: Wire)

  datatype Message =
    | Untyped
    | Message(kind: MessageType, commandId: IdField, data: string, exitCode: ExitField, errorMessage: string)

  /** `Handled` covers the silently ignored messages; the others are exceptions. */
  datatype Reply = Handled | MalformedMessage | TypeError | AttributeError | ValueError

  function ReplyTo(m: Message): Reply {
    if m.Untyped? then MalformedMessage
    else if m.kind == UNHASHABLE then TypeError
    else if m.kind != OTHER && m.commandId.NoId? then MalformedMessage
    else
      match m.commandId
      case NotAText => AttributeError
      case NotAUuid => ValueError
      case _ => Handled
  }

  /** The exceptions that the gateway does not catch. */
  predicate Escapes(r: Reply) {
    r == TypeError || r == AttributeError || r == ValueError
  }

  predicate Addresses(m: Message, c: CommandId) {
    m.Message? && m.commandId == Id(c)
  }

  function CompletedExit(e: ExitField): Option<Wire> {
    match e
    case Absent => Some(WNumber(0.0))
    case Null => None
    case Code(w) => Some(w)
  }

  function FailedExit(e: ExitField): Option<Wire> {
    if e.Code? then Some(e.code) else None
  }

  /** A value handed on, null being Python's `None`. */
  function Passed(w: Wire): Option<Wire> {
    if w.WNull? then None else Some(w)
  }

  // --- Reading a JSON value ----------------------------------------------------------------------------------------

  function KindOf(w: Wire): MessageType {
    if !Hashable(w) then UNHASHABLE
    else if w == WText("stdout") then STDOUT
    else if w == WText("stderr") then STDERR
    else if w == WText("command_completed") then COMMAND_COMPLETED
    else if w == WText("command_failed") then COMMAND_FAILED
    else OTHER
  }

  function IdOf(python: Python, w: Wire): IdField {
    if !Truthy(w) then NoId
    else if !w.WText? then NotAText
    else
      match python.uuid(w.text)
      case None => NotAUuid
      case Some(id) => Id(id)
  }

  function ExitOf(fields: map<string, Wire>): ExitField {
    if "exitCode" !in fields then Absent else if fields["exitCode"].WNull? then Null else Code(fields["exitCode"])
  }

  /** `fields.get(key)` */
  function Field(fields: map<string, Wire>, key: string): Wire {
    if key in fields then fields[key] else WNull
  }

  function TextOf(python: Python, fields: map<string, Wire>, key: string): string {
    if key in fields then Str(python, fields[key]) else ""
  }

  /** The types of message that must name a command. */
  const COMMAND_MESSAGES := {WText("stdout"), WText("stderr"), WText("command_completed"), WText("command_failed")}

  predicate Typed(w: Wire) {
    w.WObject? && "type" in w.fields
  }

  function Read(python: Python, w: Wire): Message {
    if !Typed(w) then Untyped
    else
      Message(KindOf(w.fields["type"]), IdOf(python, Field(w.fields, "commandId")), TextOf(python, w.fields, "data"),
              ExitOf(w.fields), TextOf(python, w.fields, "errorMessage"))
  }

  predicate ReadsAsUuid(python: Python, w: Wire) {
    w.WText? && python.uuid(w.text).Some?
  }

  /** Which values raise what. Something other than MalformedMessageError leaves the handler exactly if the value is
      typed and its type is a list or an object, or its command id is true in Python's sense and does not read as a
      UUID. (Texts with lone surrogates, which `encode` refuses once they are appended, are not among the texts
      here.) */
  lemma RaisesExactly(python: Python, w: Wire)
    ensures var r := ReplyTo(Read(python, w));
            && (Escapes(r) <==>
                  && Typed(w)
                  && var id := Field(w.fields, "commandId");
                     !Hashable(w.fields["type"]) || (Truthy(id) && !ReadsAsUuid(python, id)))
            && (r == TypeError <==> Typed(w) && !Hashable(w.fields["type"]))
            && (r == AttributeError <==>
                  && Typed(w) && Hashable(w.fields["type"])
                  && var id := Field(w.fields, "commandId"); Truthy(id) && !id.WText?)
            && (r == ValueError <==>
                  && Typed(w) && Hashable(w.fields["type"])
                  && var id := Field(w.fields, "commandId"); id.WText? && id.text != "" && python.uuid(id.text).None?)
            && (r == MalformedMessage <==>
                  Typed(w) ==>
                    && w.fields["type"] in COMMAND_MESSAGES
                    && !Truthy(Field(w.fields, "commandId")))
  {
  }

  /** At one input: a type that is a list, beside any command id. */
  lemma ListAsType(python: Python, id: Wire)
    ensures ReplyTo(Read(python, WObject(map["type" := WList([]), "commandId" := id]))) == TypeError
  {
  }

  /** At one input: a command id that is a number. */
  lemma NumberAsId(python: Python)
    ensures ReplyTo(Read(python, WObject(map["type" := WText("stdout"), "commandId" := WNumber(5.0)]))) ==
        AttributeError
  {
  }

  /** At one input: a command id that is a text but no UUID, even in a message of a type nobody asked for. */
  lemma WordAsId(python: Python)
    requires python.uuid("word").None?
    ensures ReplyTo(Read(python, WObject(map["type" := WText("hello"), "commandId" := WText("word")]))) == ValueError
  {
  }
}
