/**
 * Message document shaping (utils/getMessagesInConversation.ts): a query
 * document snapshot becomes a plain message object whose `sent_at` is a
 * display string, or `null` while the store has not assigned the timestamp.
 */
module MessagesInConversation {
  import opened Wrappers
  import opened Firestore
  import opened Types

  /** The timestamp was not yet assigned: `sent_at` is missing or falsy. */
  predicate SentAtUnassigned(data: Fields)
  {
    "sent_at" !in data || !Truthy(data["sent_at"])
  }

  /**
   * `sent_at` is truthy but not a timestamp: the unchecked `as Timestamp` cast
   * lets it through and calling `toDate()` on it throws.
   */
  predicate SentAtThrows(data: Fields)
  {
    !SentAtUnassigned(data) && !data["sent_at"].Stamp?
  }

  /** The conditional that rewrites `sent_at`; `fmt` is the locale formatter. */
  function RewrittenSentAt(data: Fields, fmt: Timestamp -> string): Result<Value>
  {
    if SentAtUnassigned(data) then Ok(Null)
    else if data["sent_at"].Stamp? then Ok(Str(fmt(data["sent_at"].ts)))
    else TypeError
  }

  /**
   * The object literal `{ id, ...data, sent_at }`: later entries win, so the
   * data's fields replace `id` and the rewritten `sent_at` replaces the data's.
   */
  function TransformMessage(message: DocSnapshot, fmt: Timestamp -> string): (r: Result<Fields>)
    ensures r.TypeError? <==> SentAtThrows(message.data)
    ensures r.Ok? ==> r.value.Keys == message.data.Keys + {"id", "sent_at"}
    ensures r.Ok? && SentAtUnassigned(message.data) ==> r.value["sent_at"] == Null
    ensures r.Ok? && !SentAtUnassigned(message.data) ==> r.value["sent_at"] == Str(fmt(message.data["sent_at"].ts))
    ensures r.Ok? ==> r.value["id"] == if "id" in message.data then message.data["id"] else Str(message.id)
    ensures r.Ok? ==> forall k :: k in message.data && k != "sent_at" ==> r.value[k] == message.data[k]
  {
    match RewrittenSentAt(message.data, fmt)
    case TypeError => TypeError
    case Ok(sentAt) => Ok(map["id" := Str(message.id)] + message.data + map["sent_at" := sentAt])
  }

  /** The raw timestamp never survives: the output `sent_at` is a string or `null`. */
  lemma SentAtIsStringOrNull(message: DocSnapshot, fmt: Timestamp -> string)
    requires TransformMessage(message, fmt).Ok?
    ensures var sentAt := TransformMessage(message, fmt).value["sent_at"];
      sentAt.Null? || sentAt.Str?
  {
  }

  /** The document's `conversation_id`, `text` and `user` are copied unchanged. */
  lemma MessageFieldsCopied(message: DocSnapshot, fmt: Timestamp -> string, field: string)
    requires TransformMessage(message, fmt).Ok?
    requires field in {"conversation_id", "text", "user"} && field in message.data
    ensures TransformMessage(message, fmt).value[field] == message.data[field]
  {
  }

  /** A document written by the send path: string fields, and a timestamp that is set, `null` or missing. */
  predicate IsMessageDocument(data: Fields)
  {
    && "id" !in data
    && "conversation_id" in data && data["conversation_id"].Str?
    && "text" in data && data["text"].Str?
    && "user" in data && data["user"].Str?
    && ("sent_at" in data ==> data["sent_at"].Null? || data["sent_at"].Stamp?)
  }

  /**
   * A message document becomes the message with the snapshot's id, the same
   * conversation, text and sender, and the formatted time or none while pending.
   */
  lemma MessageDocumentTransforms(message: DocSnapshot, fmt: Timestamp -> string)
    requires IsMessageDocument(message.data)
    ensures TransformMessage(message, fmt).Ok?
    ensures AsMessage(TransformMessage(message, fmt).value) == Some(Message(
      message.id,
      message.data["conversation_id"].s,
      message.data["text"].s,
      if "sent_at" in message.data && message.data["sent_at"].Stamp?
      then Some(fmt(message.data["sent_at"].ts)) else None,
      message.data["user"].s))
  {
  }

  /**
   * The object built for a pending message (its `sent_at` still `null`) does
   * not have the declared message shape, whose `sent_at` is a string.
   */
  lemma PendingMessageBreaksDeclaredShape(id: string, conversationId: string, text: string, user: string, fmt: Timestamp -> string)
    ensures var message := DocSnapshot(id, map["conversation_id" := Str(conversationId), "text" := Str(text), "sent_at" := Null, "user" := Str(user)]);
      TransformMessage(message, fmt).Ok? && !IsDeclaredIMessage(TransformMessage(message, fmt).value)
  {
  }

  /** `snapshot.docs.map(transformMessage)`: the first throwing document aborts the whole map. */
  function TransformMessages(docs: seq<DocSnapshot>, fmt: Timestamp -> string): (r: Result<seq<Fields>>)
    ensures r.Ok? <==> forall i :: 0 <= i < |docs| ==> TransformMessage(docs[i], fmt).Ok?
    ensures r.Ok? ==> |r.value| == |docs|
    ensures r.Ok? ==> forall i :: 0 <= i < |docs| ==> r.value[i] == TransformMessage(docs[i], fmt).value
  {
    if |docs| == 0 then Ok([])
    else
      match (TransformMessage(docs[0], fmt), TransformMessages(docs[1..], fmt))
      case (Ok(first), Ok(rest)) => Ok([first] + rest)
      case _ => TypeError
  }

  /**
   * Over message documents the rendered list is a full replacement in query
   * order: one message per document, each carrying its document's id.
   */
  lemma MessageDocumentsRenderInOrder(docs: seq<DocSnapshot>, fmt: Timestamp -> string)
    requires forall i :: 0 <= i < |docs| ==> IsMessageDocument(docs[i].data)
    ensures TransformMessages(docs, fmt).Ok?
    ensures forall i :: 0 <= i < |docs| ==>
      var m := AsMessage(TransformMessages(docs, fmt).value[i]);
      && m.Some? && m.value.id == docs[i].id
        && m.value.conversationId == docs[i].data["conversation_id"].s
        && m.value.text == docs[i].data["text"].s && m.value.user == docs[i].data["user"].s
  {
  }
}
