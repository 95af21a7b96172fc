/** The signed-in user, the message records and how a consumer reads a message object as one. */
module Types {
  import opened Wrappers
  import opened Firestore

  /** The signed-in user, reduced to the one field the core reads; its email may be `null`. */
  datatype User = User(email: Option<string>)

  /**
   * A message as the view layer consumes it; `sentAt` is `None` while the
   * store has not yet assigned the timestamp.
   */
  datatype Message = Message(id: string, conversationId: string, text: string, sentAt: Option<string>, user: string)

  /** The message shape as declared, where every field, `sent_at` included, is a string. */
  predicate IsDeclaredIMessage(obj: Fields)
  {
    && "id" in obj && obj["id"].Str?
    && "conversation_id" in obj && obj["conversation_id"].Str?
    && "text" in obj && obj["text"].Str?
    && "sent_at" in obj && obj["sent_at"].Str?
    && "user" in obj && obj["user"].Str?
  }

  /** Reads an object as a message: its fields have message types, with `sent_at` a string or `null`. */
  function AsMessage(obj: Fields): Option<Message>
  {
    if && "id" in obj && obj["id"].Str?
       && "conversation_id" in obj && obj["conversation_id"].Str?
       && "text" in obj && obj["text"].Str?
       && "sent_at" in obj && (obj["sent_at"].Str? || obj["sent_at"].Null?)
       && "user" in obj && obj["user"].Str?
    then
      var sentAt := if obj["sent_at"].Str? then Some(obj["sent_at"].s) else None;
      Some(Message(obj["id"].s, obj["conversation_id"].s, obj["text"].s, sentAt, obj["user"].s))
    else
      None
  }
}
