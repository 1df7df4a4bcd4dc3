/**
 * The decoded webhook envelope: object -> entries -> changes -> value, with
 * the value's optional contacts, messages, statuses and errors. Go's nil
 * pointers are `Option`s; Go's nil slices are empty sequences. Fields named
 * `type` in the wire format are `messageType`, `interactiveType` here.
 */
module Envelope {
  import opened Wrappers
  import opened Bytes

  datatype WebhookPayload = WebhookPayload(objectKind: string, entries: seq<Entry>)

  datatype Entry = Entry(id: string, changes: seq<Change>)

  datatype Change = Change(value: Value, field: string)

  datatype Value = Value(
    messagingProduct: string,
    metadata: Metadata,
    contacts: seq<Contact>,
    messages: seq<Message>,
    statuses: seq<Status>,
    errors: seq<Error>
  )

  datatype Metadata = Metadata(displayPhoneNumber: string, phoneNumberId: string)

  datatype Contact = Contact(profile: Profile, waId: string)

  datatype Profile = Profile(name: string)

  /** An inbound message: the `messageType` discriminator and one optional payload per known kind. */
  datatype Message = Message(
    from: string,
    id: string,
    timestamp: string,
    messageType: string,
    text: Option<TextMessage>,
    image: Option<MediaMessage>,
    audio: Option<MediaMessage>,
    video: Option<MediaMessage>,
    document: Option<MediaMessage>,
    location: Option<LocationMessage>,
    button: Option<ButtonMessage>,
    interactive: Option<InteractiveMessage>
  )

  datatype TextMessage = TextMessage(body: string)

  datatype MediaMessage = MediaMessage(id: string, mimeType: string, sha256: string, caption: string, filename: string)

  /** The latitude and longitude (Go float64) are not carried: nothing computes on them. */
  datatype LocationMessage = LocationMessage(name: string, address: string)

  datatype ButtonMessage = ButtonMessage(text: string, payload: string)

  datatype InteractiveMessage = InteractiveMessage(
    interactiveType: string,
    buttonReply: Option<ButtonReply>,
    listReply: Option<ListReply>
  )

  datatype ButtonReply = ButtonReply(id: string, title: string)

  datatype ListReply = ListReply(id: string, title: string, description: string)

  datatype Status = Status(id: string, status: string, timestamp: string, recipientId: string, errors: seq<Error>)

  /** A provider error; `details` is the raw `error_data` JSON, kept as bytes. */
  datatype Error = Error(code: int, title: string, message: string, details: seq<byte>)
}
