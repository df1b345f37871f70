/**
 * The message record of src/models/message.model.js: two required user ids,
 * optional text and image, a `status` drawn from an enum with a default, and
 * the two timestamps that the schema option `timestamps: true` adds.
 */
module MessageModel {
  import opened Wrappers

  /** An opaque user identifier (a document id of the User collection); only equality is used. */
  type UserId = nat

  /** An abstract clock reading; the store stamps records with it. */
  type Timestamp = nat

  /** The values the `status` enum admits. */
  datatype Status = Sent | Seen

  /** The name under which a status is stored. */
  function StatusName(s: Status): string
  {
    match s
    case Sent => "sent"
    case Seen => "seen"
  }

  /** The enum validator: a status name is accepted only when it is one of the two listed. */
  function ParseStatus(name: string): (r: Option<Status>)
    ensures r.Some? <==> name == "sent" || name == "seen"
    ensures r.Some? ==> StatusName(r.value) == name
  {
    if name == "sent" then Some(Sent)
    else if name == "seen" then Some(Seen)
    else None
  }

  lemma StatusNameRoundTrip(s: Status)
    ensures ParseStatus(StatusName(s)) == Some(s)
  {
  }

  /** A stored message. The ids are present by construction; `text` and `image` stay optional. */
  datatype Message = Message(
    senderId: UserId,
    receiverId: UserId,
    text: Option<string>,
    image: Option<string>,
    status: Status,
    createdAt: Timestamp,
    updatedAt: Timestamp)

  /** The fields handed to the model constructor; an absent field is `None`. */
  datatype Draft = Draft(
    senderId: Option<UserId>,
    receiverId: Option<UserId>,
    text: Option<string>,
    image: Option<string>,
    status: Option<string>)

  /** The schema paths whose validators can reject a draft. */
  datatype Field = SenderIdField | ReceiverIdField | StatusField

  /** Every path whose validator fails; the validation error reports all of them at once. */
  function Violations(d: Draft): (v: set<Field>)
    ensures SenderIdField in v <==> d.senderId.None?
    ensures ReceiverIdField in v <==> d.receiverId.None?
    ensures StatusField in v <==> d.status.Some? && ParseStatus(d.status.value).None?
  {
    (if d.senderId.None? then {SenderIdField} else {})
    + (if d.receiverId.None? then {ReceiverIdField} else {})
    + (if d.status.Some? && ParseStatus(d.status.value).None? then {StatusField} else {})
  }

  /**
   * Building and validating a record at time `now`: both ids are required, a
   * given status must be an enum value, an absent status defaults to `sent`,
   * and both timestamps are set to `now`. Nothing is demanded of text or image.
   */
  function Create(d: Draft, now: Timestamp): (r: Result<Message, set<Field>>)
    ensures r.Err? <==> d.senderId.None? || d.receiverId.None? || (d.status.Some? && d.status.value != "sent" && d.status.value != "seen")
    ensures r.Err? ==> r.error == Violations(d) && r.error != {}
    ensures r.Ok? ==> d.senderId == Some(r.value.senderId) && d.receiverId == Some(r.value.receiverId)
    ensures r.Ok? ==> r.value.text == d.text && r.value.image == d.image
    ensures r.Ok? && d.status.None? ==> r.value.status == Sent
    ensures r.Ok? && d.status.Some? ==> StatusName(r.value.status) == d.status.value
    ensures r.Ok? ==> r.value.createdAt == now && r.value.updatedAt == now
  {
    var v := Violations(d);
    if v != {} then
      Err(v)
    else
      assert SenderIdField !in v && ReceiverIdField !in v && StatusField !in v;
      var status := if d.status.None? then Sent else ParseStatus(d.status.value).value;
      Ok(Message(d.senderId.value, d.receiverId.value, d.text, d.image, status, now, now))
  }

  /** Text and image are independently optional: a draft with both ids and neither is accepted. */
  lemma ContentIsOptional(sender: UserId, receiver: UserId, text: Option<string>, image: Option<string>, now: Timestamp)
    ensures Create(Draft(Some(sender), Some(receiver), text, image, None), now)
         == Ok(Message(sender, receiver, text, image, Sent, now, now))
  {
  }
}
