/**
 * Fan-out of a decoded envelope (`processWebhookPayload`) and per-message
 * handling (`processMessage`). Logging is not modelled; what each handler
 * call does is recorded as an event in a trace, and the detached auto-reply
 * task that a text message starts is recorded as the `ReplyRequested` action
 * it would be started with.
 */
module Dispatch {
  import opened Wrappers
  import opened Envelope

  /** The sender name used when no contact carries the sender's id. */
  const UNKNOWN_SENDER: string := "Unknown"

  /** The message kinds `processMessage` has a case for. */
  const KNOWN_TYPES: set<string> := {"text", "image", "audio", "video", "document", "location", "button", "interactive"}

  // ---------------------------------------------------------------------------
  // Sender lookup

  /** The profile name of the first contact whose id is `from`, else `UNKNOWN_SENDER`. */
  function SenderName(contacts: seq<Contact>, from: string): string {
    if contacts == [] then UNKNOWN_SENDER
    else if contacts[0].waId == from then contacts[0].profile.name
    else SenderName(contacts[1..], from)
  }

  /** `contacts[i]` is the first contact with id `from`. */
  predicate IsFirstMatch(contacts: seq<Contact>, from: string, i: int) {
    0 <= i < |contacts| && contacts[i].waId == from &&
    forall j :: 0 <= j < i ==> contacts[j].waId != from
  }

  /** The first matching contact wins; with no match the name is `UNKNOWN_SENDER` (absence is not an error). */
  lemma {:induction false} SenderNameIsFirstMatch(contacts: seq<Contact>, from: string)
    ensures forall i :: IsFirstMatch(contacts, from, i) ==> SenderName(contacts, from) == contacts[i].profile.name
    ensures (forall i :: 0 <= i < |contacts| ==> contacts[i].waId != from) ==> SenderName(contacts, from) == UNKNOWN_SENDER
  {
    if contacts != [] && contacts[0].waId != from {
      var rest := contacts[1..];
      SenderNameIsFirstMatch(rest, from);
      forall i | IsFirstMatch(contacts, from, i)
        ensures SenderName(contacts, from) == contacts[i].profile.name
      {
        assert IsFirstMatch(rest, from, i - 1);
      }
      if forall i :: 0 <= i < |contacts| ==> contacts[i].waId != from {
        assert forall i :: 0 <= i < |rest| ==> rest[i].waId == contacts[i + 1].waId;
      }
    }
  }

  /** The scan of `processMessage`: stops at the first contact whose id matches. */
  method LookupSenderName(contacts: seq<Contact>, from: string) returns (name: string)
    ensures name == SenderName(contacts, from)
  {
    name := UNKNOWN_SENDER;
    for i := 0 to |contacts|
      invariant SenderName(contacts[i..], from) == SenderName(contacts, from)
      invariant name == UNKNOWN_SENDER
    {
      if contacts[i].waId == from {
        assert contacts[i..][0] == contacts[i];
        name := contacts[i].profile.name;
        break;
      }
      assert contacts[i..][1..] == contacts[i + 1..];
    }
  }

  // ---------------------------------------------------------------------------
  // Classification

  /** What `processMessage`'s switch does with a message. */
  datatype Handling =
    | TextReceived(body: string)
    | MediaReceived(kind: string, media: MediaMessage)
    | LocationReceived(location: LocationMessage)
    | ButtonReceived(button: ButtonMessage)
    | InteractiveReceived(buttonReply: Option<ButtonReply>, listReply: Option<ListReply>)
    | PayloadAbsent(kind: string)   // a known kind whose payload is missing: nothing happens
    | Unhandled(kind: string)       // a kind without a case: logged and dropped

  /** The payload that belongs to the message's own kind is present. */
  predicate PayloadPresent(msg: Message) {
    (msg.messageType == "text" && msg.text.Some?) ||
    (msg.messageType == "image" && msg.image.Some?) ||
    (msg.messageType == "audio" && msg.audio.Some?) ||
    (msg.messageType == "video" && msg.video.Some?) ||
    (msg.messageType == "document" && msg.document.Some?) ||
    (msg.messageType == "location" && msg.location.Some?) ||
    (msg.messageType == "button" && msg.button.Some?) ||
    (msg.messageType == "interactive" && msg.interactive.Some?)
  }

  /** The switch on the message kind; only the payload of the message's own kind is looked at. */
  function Classify(msg: Message): (h: Handling)
    ensures h.Unhandled? <==> msg.messageType !in KNOWN_TYPES
    ensures h.PayloadAbsent? <==> msg.messageType in KNOWN_TYPES && !PayloadPresent(msg)
    ensures h.TextReceived? <==> msg.messageType == "text" && msg.text.Some?
    ensures h.TextReceived? ==> h.body == msg.text.value.body
    ensures (h.PayloadAbsent? || h.Unhandled?) ==> h.kind == msg.messageType
  {
    match msg.messageType
    case "text" => if msg.text.Some? then TextReceived(msg.text.value.body) else PayloadAbsent("text")
    case "image" => if msg.image.Some? then MediaReceived("image", msg.image.value) else PayloadAbsent("image")
    case "audio" => if msg.audio.Some? then MediaReceived("audio", msg.audio.value) else PayloadAbsent("audio")
    case "video" => if msg.video.Some? then MediaReceived("video", msg.video.value) else PayloadAbsent("video")
    case "document" =>
      if msg.document.Some? then MediaReceived("document", msg.document.value) else PayloadAbsent("document")
    case "location" => if msg.location.Some? then LocationReceived(msg.location.value) else PayloadAbsent("location")
    case "button" => if msg.button.Some? then ButtonReceived(msg.button.value) else PayloadAbsent("button")
    case "interactive" =>
      if msg.interactive.Some?
      then InteractiveReceived(msg.interactive.value.buttonReply, msg.interactive.value.listReply)
      else PayloadAbsent("interactive")
    case _ => Unhandled(msg.messageType)
  }

  /** The detached auto-reply task a text message starts: reply to `to`, greeting `senderName`, about `text`. */
  datatype ReplyRequest = ReplyRequested(to: string, senderName: string, text: string)

  /**
   * The action `processMessage` emits: a reply request exactly for a text
   * message that carries its text, addressed to the sender and named after
   * the first matching contact.
   */
  function MessageAction(msg: Message, contacts: seq<Contact>): (r: Option<ReplyRequest>)
    ensures r.Some? <==> msg.messageType == "text" && msg.text.Some?
    ensures r.Some? ==> r.value == ReplyRequested(msg.from, SenderName(contacts, msg.from), msg.text.value.body)
  {
    match Classify(msg)
    case TextReceived(body) => Some(ReplyRequested(msg.from, SenderName(contacts, msg.from), body))
    case _ => None
  }

  /** `processMessage`: look the sender up, classify, and request a reply for text. */
  method ProcessMessage(msg: Message, contacts: seq<Contact>) returns (handling: Handling, reply: Option<ReplyRequest>)
    ensures handling == Classify(msg)
    ensures reply == MessageAction(msg, contacts)
  {
    var senderName := LookupSenderName(contacts, msg.from);
    handling := Classify(msg);
    reply := None;
    if handling.TextReceived? {
      reply := Some(ReplyRequested(msg.from, senderName, handling.body));
    }
  }

  // ---------------------------------------------------------------------------
  // The dispatch trace

  /** One handler call. */
  datatype Event =
    | HandledMessage(message: Message, handling: Handling, reply: Option<ReplyRequest>)
    | HandledStatus(status: Status)
    | HandledError(error: Error)

  function MessageEvent(msg: Message, contacts: seq<Contact>): Event {
    HandledMessage(msg, Classify(msg), MessageAction(msg, contacts))
  }

  /** One message-handler call per message, in order. */
  function MessageEvents(msgs: seq<Message>, contacts: seq<Contact>): (r: seq<Event>)
    ensures |r| == |msgs|
  {
    if msgs == [] then []
    else MessageEvents(msgs[..|msgs| - 1], contacts) + [MessageEvent(msgs[|msgs| - 1], contacts)]
  }

  /** The `i`th message call handles the `i`th message. */
  lemma {:induction false} MessageEventsAt(msgs: seq<Message>, contacts: seq<Contact>, i: nat)
    requires i < |msgs|
    ensures MessageEvents(msgs, contacts)[i] == MessageEvent(msgs[i], contacts)
  {
    if i < |msgs| - 1 {
      MessageEventsAt(msgs[..|msgs| - 1], contacts, i);
    }
  }

  /** One status-handler call per status, in order. */
  function StatusEvents(statuses: seq<Status>): (r: seq<Event>)
    ensures |r| == |statuses|
  {
    if statuses == [] then []
    else StatusEvents(statuses[..|statuses| - 1]) + [HandledStatus(statuses[|statuses| - 1])]
  }

  /** The `i`th status call handles the `i`th status. */
  lemma {:induction false} StatusEventsAt(statuses: seq<Status>, i: nat)
    requires i < |statuses|
    ensures StatusEvents(statuses)[i] == HandledStatus(statuses[i])
  {
    if i < |statuses| - 1 {
      StatusEventsAt(statuses[..|statuses| - 1], i);
    }
  }

  /** One error-handler call per error, in order. */
  function ErrorEvents(errors: seq<Error>): (r: seq<Event>)
    ensures |r| == |errors|
  {
    if errors == [] then []
    else ErrorEvents(errors[..|errors| - 1]) + [HandledError(errors[|errors| - 1])]
  }

  /** The `i`th error call handles the `i`th error. */
  lemma {:induction false} ErrorEventsAt(errors: seq<Error>, i: nat)
    requires i < |errors|
    ensures ErrorEvents(errors)[i] == HandledError(errors[i])
  {
    if i < |errors| - 1 {
      ErrorEventsAt(errors[..|errors| - 1], i);
    }
  }

  /** Within one change: every message, then every status, then every error. */
  function ChangeEvents(change: Change): seq<Event> {
    MessageEvents(change.value.messages, change.value.contacts) +
    StatusEvents(change.value.statuses) +
    ErrorEvents(change.value.errors)
  }

  function ChangesEvents(changes: seq<Change>): seq<Event> {
    if changes == [] then []
    else ChangesEvents(changes[..|changes| - 1]) + ChangeEvents(changes[|changes| - 1])
  }

  function EntriesEvents(entries: seq<Entry>): seq<Event> {
    if entries == [] then []
    else EntriesEvents(entries[..|entries| - 1]) + ChangesEvents(entries[|entries| - 1].changes)
  }

  /** The handler calls `processWebhookPayload` makes, in the order it makes them. */
  function PayloadEvents(payload: WebhookPayload): seq<Event> {
    EntriesEvents(payload.entries)
  }

  /**
   * The body of `processWebhookPayload`'s change loop: every message (with the
   * change's contacts), then every status, then every error.
   */
  method ProcessValue(value: Value) returns (events: seq<Event>)
    ensures events == MessageEvents(value.messages, value.contacts) + StatusEvents(value.statuses) + ErrorEvents(value.errors)
  {
    events := [];
    for k := 0 to |value.messages|
      invariant events == MessageEvents(value.messages[..k], value.contacts)
    {
      var handling, reply := ProcessMessage(value.messages[k], value.contacts);
      events := events + [HandledMessage(value.messages[k], handling, reply)];
      assert value.messages[..k + 1][..k] == value.messages[..k];
    }
    assert value.messages[..|value.messages|] == value.messages;
    ghost var afterMessages := events;
    for k := 0 to |value.statuses|
      invariant events == afterMessages + StatusEvents(value.statuses[..k])
    {
      events := events + [HandledStatus(value.statuses[k])];
      assert value.statuses[..k + 1][..k] == value.statuses[..k];
    }
    assert value.statuses[..|value.statuses|] == value.statuses;
    ghost var afterStatuses := events;
    for k := 0 to |value.errors|
      invariant events == afterStatuses + ErrorEvents(value.errors[..k])
    {
      events := events + [HandledError(value.errors[k])];
      assert value.errors[..k + 1][..k] == value.errors[..k];
    }
    assert value.errors[..|value.errors|] == value.errors;
  }

  /** The change loop of `processWebhookPayload` for one entry: every change, in order. */
  method ProcessChanges(changes: seq<Change>) returns (events: seq<Event>)
    ensures events == ChangesEvents(changes)
  {
    events := [];
    for j := 0 to |changes|
      invariant events == ChangesEvents(changes[..j])
    {
      var valueEvents := ProcessValue(changes[j].value);
      assert ChangesEvents(changes[..j + 1]) == ChangesEvents(changes[..j]) + ChangeEvents(changes[j]) by {
        assert changes[..j + 1][..j] == changes[..j];
      }
      events := events + valueEvents;
    }
    assert changes[..|changes|] == changes;
  }

  /** `processWebhookPayload`: every change of every entry, in order. */
  method ProcessWebhookPayload(payload: WebhookPayload) returns (trace: seq<Event>)
    ensures trace == PayloadEvents(payload)
  {
    trace := [];
    var entries := payload.entries;
    for i := 0 to |entries|
      invariant trace == EntriesEvents(entries[..i])
    {
      var changeEvents := ProcessChanges(entries[i].changes);
      assert EntriesEvents(entries[..i + 1]) == EntriesEvents(entries[..i]) + ChangesEvents(entries[i].changes) by {
        assert entries[..i + 1][..i] == entries[..i];
      }
      trace := trace + changeEvents;
    }
    assert entries[..|entries|] == entries;
  }

  // ---------------------------------------------------------------------------
  // What the trace promises: order within each change, order and number per category

  /**
   * Within one change the message calls come first and the error calls
   * last: no message call follows another kind of call, and no other kind of
   * call follows an error call.
   */
  lemma ChangeEventsOrdered(change: Change)
    ensures forall i, j :: 0 <= i < j < |ChangeEvents(change)| && ChangeEvents(change)[j].HandledMessage? ==>
              ChangeEvents(change)[i].HandledMessage?
    ensures forall i, j :: 0 <= i < j < |ChangeEvents(change)| && ChangeEvents(change)[i].HandledError? ==>
              ChangeEvents(change)[j].HandledError?
  {
    var v := change.value;
    var ev := ChangeEvents(change);
    var m, s := |v.messages|, |v.statuses|;
    assert forall i :: 0 <= i < |ev| ==>
      (i < m ==> ev[i].HandledMessage?) &&
      (m <= i < m + s ==> ev[i].HandledStatus?) &&
      (m + s <= i ==> ev[i].HandledError?)
    by {
      forall i | 0 <= i < |ev|
        ensures (i < m ==> ev[i].HandledMessage?) && (m <= i < m + s ==> ev[i].HandledStatus?) &&
                (m + s <= i ==> ev[i].HandledError?)
      {
        if i < m {
          assert ev[i] == MessageEvents(v.messages, v.contacts)[i];
          MessageEventsAt(v.messages, v.contacts, i);
        } else if i < m + s {
          assert ev[i] == StatusEvents(v.statuses)[i - m];
          StatusEventsAt(v.statuses, i - m);
        } else {
          assert ev[i] == ErrorEvents(v.errors)[i - m - s];
          ErrorEventsAt(v.errors, i - m - s);
        }
      }
    }
  }

  /** The messages handled, in the order of the calls. */
  function MessagesOf(trace: seq<Event>): seq<Message> {
    if trace == [] then []
    else MessagesOf(trace[..|trace| - 1]) +
         (if trace[|trace| - 1].HandledMessage? then [trace[|trace| - 1].message] else [])
  }

  /** The statuses handled, in the order of the calls. */
  function StatusesOf(trace: seq<Event>): seq<Status> {
    if trace == [] then []
    else StatusesOf(trace[..|trace| - 1]) +
         (if trace[|trace| - 1].HandledStatus? then [trace[|trace| - 1].status] else [])
  }

  /** The errors handled, in the order of the calls. */
  function ErrorsOf(trace: seq<Event>): seq<Error> {
    if trace == [] then []
    else ErrorsOf(trace[..|trace| - 1]) +
         (if trace[|trace| - 1].HandledError? then [trace[|trace| - 1].error] else [])
  }

  lemma {:induction false} MessagesAppend(a: seq<Event>, b: seq<Event>)
    ensures MessagesOf(a + b) == MessagesOf(a) + MessagesOf(b)
  {
    if b == [] {
      assert a + b == a;
    } else {
      var b', last := b[..|b| - 1], b[|b| - 1];
      MessagesAppend(a, b');
      var ab := a + b;
      assert ab[..|ab| - 1] == a + b' && ab[|ab| - 1] == last;
      assert MessagesOf(ab) == MessagesOf(a + b') + MessagesOf([last]) by {
        assert [last][..0] == [];
      }
      assert MessagesOf(b) == MessagesOf(b') + MessagesOf([last]) by {
        assert [last][..0] == [];
      }
    }
  }

  lemma {:induction false} StatusesAppend(a: seq<Event>, b: seq<Event>)
    ensures StatusesOf(a + b) == StatusesOf(a) + StatusesOf(b)
  {
    if b == [] {
      assert a + b == a;
    } else {
      var b', last := b[..|b| - 1], b[|b| - 1];
      StatusesAppend(a, b');
      var ab := a + b;
      assert ab[..|ab| - 1] == a + b' && ab[|ab| - 1] == last;
      assert StatusesOf(ab) == StatusesOf(a + b') + StatusesOf([last]) by {
        assert [last][..0] == [];
      }
      assert StatusesOf(b) == StatusesOf(b') + StatusesOf([last]) by {
        assert [last][..0] == [];
      }
    }
  }

  lemma {:induction false} ErrorsAppend(a: seq<Event>, b: seq<Event>)
    ensures ErrorsOf(a + b) == ErrorsOf(a) + ErrorsOf(b)
  {
    if b == [] {
      assert a + b == a;
    } else {
      var b', last := b[..|b| - 1], b[|b| - 1];
      ErrorsAppend(a, b');
      var ab := a + b;
      assert ab[..|ab| - 1] == a + b' && ab[|ab| - 1] == last;
      assert ErrorsOf(ab) == ErrorsOf(a + b') + ErrorsOf([last]) by {
        assert [last][..0] == [];
      }
      assert ErrorsOf(b) == ErrorsOf(b') + ErrorsOf([last]) by {
        assert [last][..0] == [];
      }
    }
  }

  /** Projecting a trace onto one kind of call commutes with concatenation. */
  lemma ProjectionsAppend(a: seq<Event>, b: seq<Event>)
    ensures MessagesOf(a + b) == MessagesOf(a) + MessagesOf(b)
    ensures StatusesOf(a + b) == StatusesOf(a) + StatusesOf(b)
    ensures ErrorsOf(a + b) == ErrorsOf(a) + ErrorsOf(b)
  {
    MessagesAppend(a, b);
    StatusesAppend(a, b);
    ErrorsAppend(a, b);
  }

  /** A trace of message calls only projects onto the messages it handles. */
  lemma {:induction false} MessageCallsProjections(trace: seq<Event>, msgs: seq<Message>)
    requires |trace| == |msgs|
    requires forall i :: 0 <= i < |trace| ==> trace[i].HandledMessage? && trace[i].message == msgs[i]
    ensures MessagesOf(trace) == msgs && StatusesOf(trace) == [] && ErrorsOf(trace) == []
  {
    if trace != [] {
      var n := |trace| - 1;
      MessageCallsProjections(trace[..n], msgs[..n]);
      assert msgs[..n] + [msgs[n]] == msgs;
    }
  }

  /** A trace of status calls only projects onto the statuses it handles. */
  lemma {:induction false} StatusCallsProjections(trace: seq<Event>, statuses: seq<Status>)
    requires |trace| == |statuses|
    requires forall i :: 0 <= i < |trace| ==> trace[i] == HandledStatus(statuses[i])
    ensures MessagesOf(trace) == [] && StatusesOf(trace) == statuses && ErrorsOf(trace) == []
  {
    if trace != [] {
      var n := |trace| - 1;
      StatusCallsProjections(trace[..n], statuses[..n]);
      assert statuses[..n] + [statuses[n]] == statuses;
    }
  }

  /** A trace of error calls only projects onto the errors it handles. */
  lemma {:induction false} ErrorCallsProjections(trace: seq<Event>, errors: seq<Error>)
    requires |trace| == |errors|
    requires forall i :: 0 <= i < |trace| ==> trace[i] == HandledError(errors[i])
    ensures MessagesOf(trace) == [] && StatusesOf(trace) == [] && ErrorsOf(trace) == errors
  {
    if trace != [] {
      var n := |trace| - 1;
      ErrorCallsProjections(trace[..n], errors[..n]);
      assert errors[..n] + [errors[n]] == errors;
    }
  }

  lemma MessageEventsProjections(msgs: seq<Message>, contacts: seq<Contact>)
    ensures MessagesOf(MessageEvents(msgs, contacts)) == msgs
    ensures StatusesOf(MessageEvents(msgs, contacts)) == []
    ensures ErrorsOf(MessageEvents(msgs, contacts)) == []
  {
    var trace := MessageEvents(msgs, contacts);
    forall i | 0 <= i < |trace|
      ensures trace[i].HandledMessage? && trace[i].message == msgs[i]
    {
      MessageEventsAt(msgs, contacts, i);
    }
    MessageCallsProjections(trace, msgs);
  }

  lemma StatusEventsProjections(statuses: seq<Status>)
    ensures MessagesOf(StatusEvents(statuses)) == []
    ensures StatusesOf(StatusEvents(statuses)) == statuses
    ensures ErrorsOf(StatusEvents(statuses)) == []
  {
    var trace := StatusEvents(statuses);
    forall i | 0 <= i < |trace|
      ensures trace[i] == HandledStatus(statuses[i])
    {
      StatusEventsAt(statuses, i);
    }
    StatusCallsProjections(trace, statuses);
  }

  lemma ErrorEventsProjections(errors: seq<Error>)
    ensures MessagesOf(ErrorEvents(errors)) == []
    ensures StatusesOf(ErrorEvents(errors)) == []
    ensures ErrorsOf(ErrorEvents(errors)) == errors
  {
    var trace := ErrorEvents(errors);
    forall i | 0 <= i < |trace|
      ensures trace[i] == HandledError(errors[i])
    {
      ErrorEventsAt(errors, i);
    }
    ErrorCallsProjections(trace, errors);
  }

  /** One change yields each of its three collections whole and in array order. */
  lemma ChangeProjections(change: Change)
    ensures MessagesOf(ChangeEvents(change)) == change.value.messages
    ensures StatusesOf(ChangeEvents(change)) == change.value.statuses
    ensures ErrorsOf(ChangeEvents(change)) == change.value.errors
  {
    var v := change.value;
    var me, se, ee := MessageEvents(v.messages, v.contacts), StatusEvents(v.statuses), ErrorEvents(v.errors);
    assert ChangeEvents(change) == me + se + ee;
    assert MessagesOf(me + se + ee) == v.messages by {
      MessageEventsProjections(v.messages, v.contacts);
      StatusEventsProjections(v.statuses);
      ErrorEventsProjections(v.errors);
      ProjectionsAppend(me, se);
      ProjectionsAppend(me + se, ee);
    }
    assert StatusesOf(me + se + ee) == v.statuses by {
      MessageEventsProjections(v.messages, v.contacts);
      StatusEventsProjections(v.statuses);
      ErrorEventsProjections(v.errors);
      ProjectionsAppend(me, se);
      ProjectionsAppend(me + se, ee);
    }
    assert ErrorsOf(me + se + ee) == v.errors by {
      MessageEventsProjections(v.messages, v.contacts);
      StatusEventsProjections(v.statuses);
      ErrorEventsProjections(v.errors);
      ProjectionsAppend(me, se);
      ProjectionsAppend(me + se, ee);
    }
  }

  /** All messages of a run of changes, change by change. */
  function ChangesMessages(changes: seq<Change>): seq<Message> {
    if changes == [] then [] else ChangesMessages(changes[..|changes| - 1]) + changes[|changes| - 1].value.messages
  }

  function ChangesStatuses(changes: seq<Change>): seq<Status> {
    if changes == [] then [] else ChangesStatuses(changes[..|changes| - 1]) + changes[|changes| - 1].value.statuses
  }

  function ChangesErrors(changes: seq<Change>): seq<Error> {
    if changes == [] then [] else ChangesErrors(changes[..|changes| - 1]) + changes[|changes| - 1].value.errors
  }

  /** All messages of the envelope, entry by entry and change by change. */
  function AllMessages(entries: seq<Entry>): seq<Message> {
    if entries == [] then [] else AllMessages(entries[..|entries| - 1]) + ChangesMessages(entries[|entries| - 1].changes)
  }

  function AllStatuses(entries: seq<Entry>): seq<Status> {
    if entries == [] then [] else AllStatuses(entries[..|entries| - 1]) + ChangesStatuses(entries[|entries| - 1].changes)
  }

  function AllErrors(entries: seq<Entry>): seq<Error> {
    if entries == [] then [] else AllErrors(entries[..|entries| - 1]) + ChangesErrors(entries[|entries| - 1].changes)
  }

  lemma {:induction false} ChangesProjections(changes: seq<Change>)
    ensures MessagesOf(ChangesEvents(changes)) == ChangesMessages(changes)
    ensures StatusesOf(ChangesEvents(changes)) == ChangesStatuses(changes)
    ensures ErrorsOf(ChangesEvents(changes)) == ChangesErrors(changes)
  {
    if changes != [] {
      var init := changes[..|changes| - 1];
      ChangesProjections(init);
      ChangeProjections(changes[|changes| - 1]);
      ProjectionsAppend(ChangesEvents(init), ChangeEvents(changes[|changes| - 1]));
    }
  }

  /**
   * Dispatch order: the message handler sees every message of the envelope
   * exactly once, in entry, change and array order, and likewise the status
   * and error handlers.
   */
  lemma {:induction false} DispatchOrder(payload: WebhookPayload)
    ensures MessagesOf(PayloadEvents(payload)) == AllMessages(payload.entries)
    ensures StatusesOf(PayloadEvents(payload)) == AllStatuses(payload.entries)
    ensures ErrorsOf(PayloadEvents(payload)) == AllErrors(payload.entries)
  {
    EntriesOrder(payload.entries);
  }

  lemma {:induction false} EntriesOrder(entries: seq<Entry>)
    ensures MessagesOf(EntriesEvents(entries)) == AllMessages(entries)
    ensures StatusesOf(EntriesEvents(entries)) == AllStatuses(entries)
    ensures ErrorsOf(EntriesEvents(entries)) == AllErrors(entries)
  {
    if entries != [] {
      var init := entries[..|entries| - 1];
      EntriesOrder(init);
      ChangesProjections(entries[|entries| - 1].changes);
      ProjectionsAppend(EntriesEvents(init), ChangesEvents(entries[|entries| - 1].changes));
    }
  }

  /** The three kinds of handler call. */
  datatype Category = MessageCalls | StatusCalls | ErrorCalls

  /** How many calls of one kind a value asks for: the length of its collection. */
  function Size(value: Value, category: Category): nat {
    match category
    case MessageCalls => |value.messages|
    case StatusCalls => |value.statuses|
    case ErrorCalls => |value.errors|
  }

  function ChangesTotal(changes: seq<Change>, category: Category): nat {
    if changes == [] then 0
    else ChangesTotal(changes[..|changes| - 1], category) + Size(changes[|changes| - 1].value, category)
  }

  /** The sum, over all entries and changes, of the length of one collection. */
  function Total(entries: seq<Entry>, category: Category): nat {
    if entries == [] then 0
    else Total(entries[..|entries| - 1], category) + ChangesTotal(entries[|entries| - 1].changes, category)
  }

  lemma {:induction false} ChangesLengths(changes: seq<Change>)
    ensures |ChangesMessages(changes)| == ChangesTotal(changes, MessageCalls)
    ensures |ChangesStatuses(changes)| == ChangesTotal(changes, StatusCalls)
    ensures |ChangesErrors(changes)| == ChangesTotal(changes, ErrorCalls)
  {
    if changes != [] {
      ChangesLengths(changes[..|changes| - 1]);
    }
  }

  lemma {:induction false} EntriesLengths(entries: seq<Entry>)
    ensures |AllMessages(entries)| == Total(entries, MessageCalls)
    ensures |AllStatuses(entries)| == Total(entries, StatusCalls)
    ensures |AllErrors(entries)| == Total(entries, ErrorCalls)
  {
    if entries != [] {
      EntriesLengths(entries[..|entries| - 1]);
      ChangesLengths(entries[|entries| - 1].changes);
    }
  }

  /**
   * Dispatch counts: message-handler calls = the sum of the lengths of all
   * `messages` arrays, and likewise for statuses and errors; there are no
   * other calls.
   */
  lemma DispatchCounts(payload: WebhookPayload)
    ensures |MessagesOf(PayloadEvents(payload))| == Total(payload.entries, MessageCalls)
    ensures |StatusesOf(PayloadEvents(payload))| == Total(payload.entries, StatusCalls)
    ensures |ErrorsOf(PayloadEvents(payload))| == Total(payload.entries, ErrorCalls)
    ensures |PayloadEvents(payload)| ==
              Total(payload.entries, MessageCalls) + Total(payload.entries, StatusCalls) + Total(payload.entries, ErrorCalls)
  {
    DispatchOrder(payload);
    EntriesLengths(payload.entries);
    ProjectionsCover(PayloadEvents(payload));
  }

  /** Every call is of one of the three kinds. */
  lemma {:induction false} ProjectionsCover(trace: seq<Event>)
    ensures |trace| == |MessagesOf(trace)| + |StatusesOf(trace)| + |ErrorsOf(trace)|
  {
    if trace != [] {
      ProjectionsCover(trace[..|trace| - 1]);
    }
  }

  /** In `trace`, every message call carries a reply request exactly when the message is a text message with text. */
  predicate RepliesOnlyForText(trace: seq<Event>) {
    forall i :: 0 <= i < |trace| && trace[i].HandledMessage? ==>
      (trace[i].reply.Some? <==> trace[i].message.messageType == "text" && trace[i].message.text.Some?)
  }

  lemma {:induction false} ChangesRepliesOnlyForText(changes: seq<Change>)
    ensures RepliesOnlyForText(ChangesEvents(changes))
  {
    if changes != [] {
      ChangesRepliesOnlyForText(changes[..|changes| - 1]);
      var v := changes[|changes| - 1].value;
      var me := MessageEvents(v.messages, v.contacts);
      assert RepliesOnlyForText(me) by {
        forall i | 0 <= i < |me| && me[i].HandledMessage?
          ensures me[i].reply.Some? <==> me[i].message.messageType == "text" && me[i].message.text.Some?
        {
          MessageEventsAt(v.messages, v.contacts, i);
        }
      }
      var se := StatusEvents(v.statuses);
      assert RepliesOnlyForText(se) by {
        forall i | 0 <= i < |se|
          ensures !se[i].HandledMessage?
        {
          StatusEventsAt(v.statuses, i);
        }
      }
      var ee := ErrorEvents(v.errors);
      assert RepliesOnlyForText(ee) by {
        forall i | 0 <= i < |ee|
          ensures !ee[i].HandledMessage?
        {
          ErrorEventsAt(v.errors, i);
        }
      }
    }
  }

  /**
   * Across a whole envelope, a reply task is requested for exactly the text
   * messages that carry their text; every other kind, unknown kinds
   * included, requests none.
   */
  lemma {:induction false} DispatchRepliesOnlyForText(payload: WebhookPayload)
    ensures RepliesOnlyForText(PayloadEvents(payload))
  {
    EntriesRepliesOnlyForText(payload.entries);
  }

  lemma {:induction false} EntriesRepliesOnlyForText(entries: seq<Entry>)
    ensures RepliesOnlyForText(EntriesEvents(entries))
  {
    if entries != [] {
      EntriesRepliesOnlyForText(entries[..|entries| - 1]);
      ChangesRepliesOnlyForText(entries[|entries| - 1].changes);
    }
  }
}
