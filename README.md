# Connectify messaging core in Dafny

A model of the message store and its read-state workflow in the Connectify backend. It covers the five
handlers of `src/controllers/message.controller.js` and the message schema of
`src/models/message.model.js`:

- **Message record** (`message_model.dfy`, module `MessageModel`). The schema has two required user ids,
  optional `text` and `image`, a `status` enum {`sent`, `seen`} that defaults to `sent`, and the
  `createdAt`/`updatedAt` timestamps added by `timestamps: true`. `Create` builds and validates a record
  from a draft whose fields may be absent. A missing id or a status outside the enum is a validation
  error that lists every failing path.
- **Contact resolver** (`contact_resolver.dfy`, module `ContactResolver`). This is `getUsersForSidebar`:
  it keeps the accepted connection rows that involve the user and maps each row to its other party.
  Duplicates are kept, and the response carries the list and its length.
- **Message collection, as pure functions** (`message_store.dfy`, module `MessageStore`):
  - the conversation query of `getMessages`: a filter on the unordered pair, then a sort ascending by
    `createdAt`;
  - the unread count of `getUnreadCount`;
  - the `updateMany` of `markMessagesAsSeen`, which turns `sent` into `seen`;
  - the lemmas that relate these to each other.
- **Handlers that change state** (`message_controller.dfy`, module `MessageController`). Class
  `MessageCollection` holds the stored records in a `seq` field. `SendMessage` appends a record;
  `MarkMessagesAsSeen` walks the records in a loop, updates them in place and counts the changes.
  The image upload is an outcome passed in (`Uploaded(url)` or `UploadFailed`). The live-push registry is
  a map from user id to socket id, and each push comes back as an optional `Event`.
  `ReadReceiptScenario` is a client that follows one message through send, fetch and a repeated
  mark-seen, using only the contracts.

Two points about the code that the model keeps as written:
- The contact list is a list, not a set. There is one entry per accepted row, so duplicates appear, and the
  model keeps them.
- `sendMessage` never checks the receiver id. The id comes from the `/send/:id` route parameter and the
  caller from the session, so `Create`'s validation always passes inside `SendMessage`.

## Model

| member | source | states |
|---|---|---|
| `MessageModel.ParseStatus` | src/models/message.model.js:25-28 | a status name is accepted exactly when it is `sent` or `seen`, and it parses back to a status with that name |
| `MessageModel.StatusNameRoundTrip` | src/models/message.model.js:25-28 | every status's stored name parses back to that status |
| `MessageModel.Violations` | src/models/message.model.js:9-29 | a path fails validation exactly when: the sender id is absent; the receiver id is absent; or a status is given and is not an enum value |
| `MessageModel.Create` | src/models/message.model.js:7-34 | a draft is rejected exactly when an id is missing or its status is outside the enum, and the error lists every failing path; an accepted record keeps both ids, the text and the image, gets status `sent` when none is given or the given one otherwise, and carries `createdAt == updatedAt == now` |
| `MessageModel.ContentIsOptional` | src/models/message.model.js:19-24 | with both ids present, every combination of text and image, including neither, is accepted with status `sent` |
| `ContactResolver.ContactRows` | src/controllers/message.controller.js:12-15 | the query returns each accepted row that involves the user as many times as it is stored, and no other row (pending rows included) |
| `ContactResolver.GetUsersForSidebar` | src/controllers/message.controller.js:12-27 | `length` equals the number of entries, which equals the number of accepted rows involving the user; a user is listed exactly when some such row has that user as its counterpart |
| `ContactResolver.Counterpart` | src/controllers/message.controller.js:19-23 | for a row involving the user, the row's two parties are the user and the counterpart; the counterpart is the user only for a row that connects the user with itself |
| `ContactResolver.SidebarAppend` | src/controllers/message.controller.js:12-23 | one more row adds its counterpart at the end when it is accepted and involves the user, even when that counterpart is already listed; any other row leaves the list unchanged |
| `ContactResolver.ContactRowsAppend` | src/controllers/message.controller.js:12-15 | one more row extends the query result by that row when it is a contact row, and not otherwise |
| `ContactResolver.CounterpartsAppend` | src/controllers/message.controller.js:19-23 | `Counterparts`, the `.map` over the query result, distributes over concatenation, so each row contributes its own `Counterpart` at its own position |
| `ContactResolver.SidebarOfNoRows` | src/controllers/message.controller.js:12-27 | no rows give an empty list of length 0 |
| `MessageStore.ConversationRecords` | src/controllers/message.controller.js:40-44 | the filter keeps each record between the two users, in either direction, as often as it is stored, and nothing else |
| `MessageStore.InsertByCreation` | src/controllers/message.controller.js:45 | inserting into a list in creation order keeps it in order and adds exactly the one record |
| `MessageStore.SortByCreation` | src/controllers/message.controller.js:45 | the result is ascending by `createdAt` and is a permutation of the input |
| `MessageStore.GetMessages` | src/controllers/message.controller.js:40-45 | the history is ascending by `createdAt` and holds every record between the two users in either direction, as often as it is stored, and no other record |
| `MessageStore.ConversationIsSymmetric` | src/controllers/message.controller.js:40-44 | the filter is on the unordered pair, so both users get the same history |
| `MessageStore.SentMessageIsListed` | src/controllers/message.controller.js:40-45 | a stored message appears in the history of its sender with its receiver, asked from either side |
| `MessageStore.HistoryOfOne` | src/controllers/message.controller.js:40-45 | a collection with one message shows exactly that message to both of its parties |
| `MessageStore.UnreadCount` | src/controllers/message.controller.js:131-134 | the count of records addressed to the user that are still `sent`; its own contract only bounds it by the collection size, and its meaning is stated by `UnreadAfterAppend`, `UnreadCountSumsOverSenders` and `UnreadAfterMarkSeen` |
| `MessageStore.PendingCount` | src/controllers/message.controller.js:96-101 | the records matched by the mark-seen filter (this sender, this receiver, still `sent`) never number more than the receiver's unread count |
| `MessageStore.UnreadAfterAppend` | src/controllers/message.controller.js:131-134 | storing one more record raises a user's unread count by one exactly when that record is addressed to the user and is `sent` |
| `MessageStore.PendingAfterAppend` | src/controllers/message.controller.js:96-101 | storing one more record raises the mark-seen count by one exactly when the record matches the filter |
| `MessageStore.PendingTotalAfterAppend` | src/controllers/message.controller.js:96-101 | over distinct senders, the per-sender counts together grow by one exactly when the new record is unread for the user and its sender is among them |
| `MessageStore.UnreadCountSumsOverSenders` | src/controllers/message.controller.js:130-134 | the unread count is global: given every sender of an unread record exactly once, it equals the sum of the per-sender mark-seen counts |
| `MessageStore.MarkOne` | src/controllers/message.controller.js:96-105 | the update of one record: sender, receiver, text, image and `createdAt` are kept, the result never matches the filter, a matching record becomes `seen` with `updatedAt` set to the update time (the schema's timestamps option stamps updates), and a non-matching record is returned unchanged |
| `MessageStore.MarkSeenAll` | src/controllers/message.controller.js:96-105 | `updateMany` over the whole collection neither inserts nor deletes records; `MarkSeenAllPointwise` and `MarkSeenEffect` state what it does to each record |
| `MessageStore.MarkSeenAllPointwise` | src/controllers/message.controller.js:96-105 | the bulk update keeps the collection's length and applies the one-record update at every position |
| `MessageStore.MarkSeenEffect` | src/controllers/message.controller.js:96-105 | every record that matched is now `seen`, with only `status` and `updatedAt` changed; every record that did not match is unchanged, including records from the receiver to the sender; no matching record is left |
| `MessageStore.NoPendingMeansZero` | src/controllers/message.controller.js:96-101 | when no record matches the filter, the count is 0 |
| `MessageStore.MarkSeenIdempotent` | src/controllers/message.controller.js:96-117 | after one mark-seen, a second one for the same pair matches nothing (so it reports `updatedCount` 0) and leaves the collection unchanged |
| `MessageStore.MarkSeenCommutes` | src/controllers/message.controller.js:96-105 | mark-seen calls for two different (sender, receiver) pairs give the same collection in either order |
| `MessageStore.UnreadAfterMarkSeen` | src/controllers/message.controller.js:96-134 | mark-seen lowers the receiver's unread count by exactly the number of records it matched, and leaves every other user's count unchanged |
| `MessageStore.AdvancesCompose` | src/controllers/message.controller.js:72-105 | forward steps compose: over any run of handlers, no record is lost or altered and none goes from `seen` back to `sent` |
| `MessageStore.MarkSeenAdvances` | src/controllers/message.controller.js:96-105 | the bulk update is a forward step: nothing is lost, reordered or rewritten, and `seen` stays `seen` |
| `MessageController.MessageCollection.SendMessage` | src/controllers/message.controller.js:54-82 | a supplied image whose upload fails means an error, an unchanged collection and no push; otherwise exactly one record is appended and all earlier records are kept; the new record is from the caller to the route's user, has status `sent`, has the given text and the uploaded URL (no image when none was supplied, including an empty payload), and is stamped `now`; it is pushed as `newMessage` exactly when the receiver has a non-empty socket id. `ImageSupplied` models the truthiness test `if (image)` and `ImageUrl` the resulting `imageUrl` (:60-65); `Online` models the truthiness test on the socket id |
| `MessageController.MessageCollection.MarkMessagesAsSeen` | src/controllers/message.controller.js:90-118 | the new collection is the bulk update of the old one; `updatedCount` is the number of records that matched (sender, me, `sent`) before the call; the caller's unread count drops by exactly that number; statuses only advance; the sender's socket, if it has a non-empty id, gets `messagesSeen` carrying the reader's id, even when nothing changed |

## Left out

- Route registration and the authentication middleware (`src/routes/message.route.js`): the caller's
  id is a parameter of each operation.
- The image service call: only its outcome, a success with an opaque URL or a failure, is modelled.
- The socket registry's lifecycle and the transport: the registry is a map handed in, and a push is an
  optional returned event. Delivery, acknowledgement and concurrency are not modelled.
- Database failures, HTTP status codes, response shaping and logging: these are I/O.
- `populate` of the connection rows: the contact list holds counterpart ids, not the `fullName` and
  `photoURL` projection. A row whose user no longer exists is not modelled.
- Document `_id`s and ObjectId casting: a malformed route id, which would make the save or the query
  fail, is not modelled.
- Type casting of request body values: `text` and `image` are strings or absent.
- Order among records with equal `createdAt`: the database does not fix it. The model's sort is one
  stable insertion sort, and the contracts claim only ascending order and a permutation.
- Order of the connection query's result: taken to be storage order.
- Concurrent interleaving of requests: every operation is one sequential step.
