# WhatsApp clone: counterpart resolution and message shaping

A chat client keeps its state in a hosted document database and does very
little data shaping of its own. This project models the two pure functions
that do that shaping, and it proves what they return.

- **Counterpart resolution** (`getRecipientEmail`). Given a conversation's
  member addresses and the user who may be signed in, it returns the first
  member whose address differs from that user's email. If no member differs,
  it returns nothing (`undefined`).
- **Message shaping** (`transformMessage`). It turns a query document snapshot
  into a plain message object. The object gets the snapshot's id, then every
  data field, then a rewritten `sent_at`. That `sent_at` is a display string,
  or `null` while the store has not yet assigned the timestamp.

Layout:

- `wrappers.dfy`: `Option` (for `undefined`/`null`) and `Result` (for a thrown `TypeError`).
- `firestore.dfy`: timestamps, field values, snapshots, and JavaScript truthiness.
- `types.dfy`: `User`, the `Message` view, the declared message
  shape, and `AsMessage`, which reads an object as a message.
- `recipient_email.dfy`: `getRecipientEmail` and its properties.
- `messages_in_conversation.dfy`: `transformMessage`, mapping it over a
  snapshot's documents, and their properties.

Modelling choices:

- `Conversation['users']` is declared `string[]` (types/index.ts:4), so the
  model takes a `seq<string>` of any length, not a fixed pair.
- The signed-in user is `Option<User>`. A `User`'s email is itself optional,
  so both `undefined` and `null` from `loggedInUser?.email` are covered. A
  string is always `!==` both `undefined` and `null`, so without an email
  every member counts as different and the first member is returned
  (`NoSelfEmailGivesFirstMember`).
- Document data and the built object are `map<string, Value>`. The object
  literal `{ id, ...data, sent_at }` is right-biased map union. So a data
  field named `id` replaces the snapshot id, and the rewritten `sent_at`
  replaces the stored one.
- The `sent_at ? … : null` test uses JavaScript truthiness. A truthy value
  that is not a timestamp passes the unchecked `as Timestamp` cast. Calling
  `toDate()` on it then throws, so the model returns `TypeError`. Across a
  list of documents, the first throw aborts the whole `map`.
- The locale formatter `convertFirestoreTimestampToString` is the parameter
  `fmt: Timestamp -> string`. Its result depends on the runtime's locale and
  time zone, so the model leaves it uninterpreted.
- The consumer's view is `Message`, whose `sentAt` is `Option<string>`.

## Model

| member | source | states |
|---|---|---|
| `RecipientEmail.GetRecipientEmail` | utils/getRecipientEmail.ts:4-7 | A returned address is a member and differs from the signed-in email. It sits at an index where every earlier member equals that email. The result is `undefined` exactly when every member equals it. |
| `RecipientEmail.Others` | utils/getRecipientEmail.ts:7 | Reference filter: the members that differ from the signed-in email. It keeps exactly those members, is no longer than the list, and starts with the first differing member. |
| `RecipientEmail.RecipientIsFirstOfOthers` | utils/getRecipientEmail.ts:7 | `find` agrees with the reference: it returns the head of the filtered members, or `undefined` when that list is empty. |
| `RecipientEmail.FirstOtherIsRecipient` | utils/getRecipientEmail.ts:7 | Converse of first-ness: any index holding the first differing member is where the returned address comes from. |
| `RecipientEmail.TwoPartyCounterpart` | utils/getRecipientEmail.ts:7 | For members `[a, b]` with `a ≠ b`, user `a` gets `b` and user `b` gets `a`. |
| `RecipientEmail.NoCounterpartWithoutOthers` | utils/getRecipientEmail.ts:7 | An empty list has no counterpart. Neither does a list holding only the user's own address, such as `[a, a]` for user `a`. |
| `RecipientEmail.NoSelfEmailGivesFirstMember` | utils/getRecipientEmail.ts:6-7 | With nobody signed in, or a user without an email, a non-empty list yields its first member. |
| `RecipientEmail.NonMemberGetsFirstMember` | utils/getRecipientEmail.ts:7 | When the user's email is not in the list, the first member is returned. |
| `MessagesInConversation.TransformMessage` | utils/getMessagesInConversation.ts:20-29 | It throws exactly when `sent_at` is truthy but not a timestamp. Otherwise the keys are the data's keys plus `id` and `sent_at`. `sent_at` is `null` when unassigned and `fmt(ts)` when set. `id` is the snapshot id unless the data has its own `id`. Every other data field is copied. |
| `MessagesInConversation.SentAtIsStringOrNull` | utils/getMessagesInConversation.ts:25-28 | The raw timestamp never survives: the output `sent_at` is a string or `null`. |
| `MessagesInConversation.MessageFieldsCopied` | utils/getMessagesInConversation.ts:24-25 | `conversation_id`, `text` and `user` are copied unchanged from the document data. |
| `MessagesInConversation.MessageDocumentTransforms` | utils/getMessagesInConversation.ts:20-29 | A document with string fields and no `id` field never throws. It reads back as the message with the snapshot's id and the same conversation, text and sender. Its time is `fmt(ts)` when assigned and none while pending. |
| `MessagesInConversation.PendingMessageBreaksDeclaredShape` | types/index.ts:13-19 | A pending message, whose `sent_at` is still `null`, becomes an object that does not match the declared message shape. |
| `MessagesInConversation.TransformMessages` | components/ConversationScreen.tsx:132-134 | The mapped list fails exactly when some document throws. Otherwise it has one entry per document, in query order, and entry `i` is document `i` transformed. |
| `MessagesInConversation.MessageDocumentsRenderInOrder` | components/ConversationScreen.tsx:131-135 | Over message documents the rendered list is a full replacement in query order. Entry `i` carries document `i`'s id, conversation, text and sender. |

## Findings

| source | as written | input that shows it | evidently intended | confidence | as-written member | corrected member |
|---|---|---|---|---|---|---|
| types/index.ts:17 | `IMessage.sent_at` is declared `string`. `transformMessage` returns `null` there and hides it with `as IMessage`. | A message just sent, whose server timestamp is still pending: `sent_at` is `null`. | `sent_at` typed as a string or `null`, modelled as `Message.sentAt: Option<string>`. | high (not executed) | `MessagesInConversation.PendingMessageBreaksDeclaredShape` | `MessagesInConversation.MessageDocumentTransforms` |

## Left out

- `generateQueryGetMessages`: it only builds a database query. Filtering on `conversation_id` and ordering by `sent_at` happen inside the database library, so the model takes the documents as already filtered and in query order.
- `convertFirestoreTimestampToString`: it uses `Date` and locale formatting, which depend on the runtime. It is the abstract parameter `fmt`.
- Number field values are real numbers. `NaN`, which is falsy, is not modelled.
- Bytes, geopoints and document references are not separate values. They are truthy objects without `toDate`, like `Object`, so `transformMessage` treats them the same way.
- The key order of the built object is not modelled: a `map` has no order. Nothing in the core reads the order.
- `User` keeps only `email`. Nothing else on the signed-in user affects the result.
- The two `docs.map(transformMessage)` calls (components/ConversationScreen.tsx:132-134 and pages/conversations/[id].tsx:76-78) are modelled by `TransformMessages`. The rest of those two files is left out: subscriptions, the loading-versus-snapshot choice, asynchronous writes (`setDoc`, `addDoc`, `serverTimestamp`), routing and rendering.
- `hooks/useRecipient.ts`, `components/Message.tsx`, `components/RecipientAvatar.tsx`, `components/Sidebar.tsx`, the login and app pages and the loading component are left out. They are live subscriptions, sign-in and rendering.
- Creating conversations and removing duplicate conversations are not modelled, because the code has no such logic: the new-conversation button at components/Sidebar.tsx:94 has no handler.
- The presence write before every send (components/ConversationScreen.tsx:142-148, `setDoc` of `lastSeen: serverTimestamp()` with merge) is left out: it is an asynchronous write into the database library.
