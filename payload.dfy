/**
 * The inbound POST /webhook body and the handler's first inspection of it:
 * `entry[0]`, then `changes[0].value.messages[0]`, each level read through
 * `&&`-chains, so that any missing or empty level stops the walk.
 */
module Payload {
  import opened JsValues

  datatype TextContent = TextContent(body: JStr)
  datatype Message = Message(from: JStr, text: Field<TextContent>, kind: JStr)
  datatype ChangeValue = ChangeValue(messages: Field<seq<Message>>)
  datatype Change = Change(value: Field<ChangeValue>)
  datatype Entry = Entry(changes: Field<seq<Change>>)

  /** `req.body` as parsed from JSON. */
  datatype Body = Body(entry: Field<seq<Entry>>)

  /** What the inspection finds: the two early answers, or the fields of the first message. */
  datatype Extracted = NoEntry | NoMessages | Event(from: JStr, text: JStr, kind: JStr)

  /** `messages.text && messages.text.body`. */
  function MessageText(m: Message): JStr {
    match m.text
    case Undefined => Undefined
    case Null => Null
    case Val(t) => t.body
  }

  /** The body holds at least one entry. */
  ghost predicate HasEntry(b: Body) {
    b.entry.Val? && |b.entry.v| > 0
  }

  /** `m` is `entry[0].changes[0].value.messages[0]` of the body. */
  ghost predicate FirstMessageIs(b: Body, m: Message) {
    && HasEntry(b)
    && b.entry.v[0].changes.Val? && |b.entry.v[0].changes.v| > 0
    && b.entry.v[0].changes.v[0].value.Val?
    && b.entry.v[0].changes.v[0].value.v.messages.Val?
    && |b.entry.v[0].changes.v[0].value.v.messages.v| > 0
    && b.entry.v[0].changes.v[0].value.v.messages.v[0] == m
  }

  /**
   * The structure check at the top of the POST handler: 'no_entry' when there is
   * no first entry, 'no_messages' when the first entry has no first message, and
   * otherwise the sender, the text body and the type of that message.
   */
  function Extract(b: Body): (r: Extracted)
    ensures r.NoEntry? <==> !HasEntry(b)
    ensures r.Event? <==> exists m :: FirstMessageIs(b, m)
    ensures forall m :: FirstMessageIs(b, m) ==> r == Event(m.from, MessageText(m), m.kind)
  {
    var entry := First(b.entry);
    if !Present(entry) then NoEntry
    else
      var change := First(entry.v.changes);
      var value := if Present(change) then change.v.value else Undefined;
      var message := if Present(value) then First(value.v.messages) else Undefined;
      if !Present(message) then NoMessages
      else
        assert FirstMessageIs(b, message.v);
        Event(message.v.from, MessageText(message.v), message.v.kind)
  }

  /** The body the platform sends for a single message: one entry, one change, one message. */
  function Envelope(m: Message): Body {
    Body(Val([Entry(Val([Change(Val(ChangeValue(Val([m]))))]))]))
  }

  /** Wrapping a message in the platform's envelope and inspecting it gives that message back. */
  lemma ExtractEnvelope(m: Message)
    ensures Extract(Envelope(m)) == Event(m.from, MessageText(m), m.kind)
  {
    assert FirstMessageIs(Envelope(m), m);
  }
}
