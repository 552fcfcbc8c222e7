/**
 * What `dify:sync-conversations` does, as functions of the state it runs in.
 *
 * The state is a `World`:
 *  - `db`, the Doctrine store: the committed rows and the unit of work's
 *    pending (persisted, not yet flushed) rows, each keyed by the Dify id;
 *  - `replies`, the Dify API as a finite script: each request consumes the
 *    next reply, and a missing or broken reply is the exception the client
 *    or `toArray()` throws;
 *  - `calls`, the requests made so far, in order.
 *
 * A step that can throw yields `Step(world, Thrown)`: what it changed before
 * throwing stays changed, as it does in PHP. The loops of the command are
 * written here as tail recursion with accumulators, in the order PHP runs
 * them; the class in `SyncCommand` runs the loops and is proved equal to
 * these functions.
 */
module SyncSpec {
  import opened Wrappers
  import opened Php
  import opened Requests
  import opened Entities

  /** `Command::SUCCESS` and `Command::FAILURE`. */
  const SUCCESS := 0
  const FAILURE := 1

  /** The page size used when `--limit` is not numeric. */
  const DefaultLimit := 100

  /** The page size of the one messages request per conversation. */
  const MessagesLimit := 1000

  /** The number of characters of a query the dry-run preview shows. */
  const PreviewLength := 50

  // ---------------------------------------------------------------------
  // Coercion helpers
  // ---------------------------------------------------------------------

  /** `extractStringValue`: the value under `key` when it is a string, otherwise `default`. */
  function ExtractString(data: seq<Entry>, key: string, default: Option<string>): (r: Option<string>)
    ensures (exists s :: Lookup(data, StrKey(key)) == Some(Str(s))) ==> r == Some(Get(data, key).s)
    ensures (forall s :: Lookup(data, StrKey(key)) != Some(Str(s))) ==> r == default
  {
    var v := Get(data, key);
    if v.Str? then Some(v.s) else default
  }

  /** `extractIntValue`: the value under `key` cast to int when it is numeric, otherwise `default`. */
  function ExtractInt(data: seq<Entry>, key: string, default: int): (r: int)
    ensures Get(data, key).Int? ==> r == Get(data, key).i
    ensures Get(data, key).Str? && IsNumericString(Get(data, key).s) ==> r == ParseInt(Get(data, key).s)
    ensures !IsNumeric(Get(data, key)) ==> r == default
  {
    var v := Get(data, key);
    if IsNumeric(v) then ToInt(v) else default
  }

  /** A number the API sends as a decimal string reads back as that number. */
  lemma ExtractIntOfDecimalString(key: string, i: int, default: int)
    ensures ExtractInt([Field(key, Str(IntToString(i)))], key, default) == i
  {
    IntStringRoundTrip(i);
  }

  /** PHP truthiness of a nullable string: null, `""` and `"0"` are false. */
  predicate Truthy(o: Option<string>)
  {
    o.Some? && o.value != "" && o.value != "0"
  }

  /** `hasValidConversationsData`: `data` is a non-empty array. */
  predicate HasValidConversationsData(body: seq<Entry>)
    ensures HasValidConversationsData(body) <==>
              exists entries :: entries != [] && Lookup(body, StrKey("data")) == Some(Arr(entries))
  {
    Get(body, "data").Arr? && Get(body, "data").entries != []
  }

  /** The value `end()` returns: the last element in array order. */
  function LastValue(a: seq<Entry>): Value
    requires a != []
  {
    a[|a| - 1].value
  }

  /**
   * `getNextPageId`: the `id` of the last element of `data`, provided
   * `has_more` is exactly `true` and that element is an array with a string
   * `id`; null in every other case.
   */
  function GetNextPageId(body: seq<Entry>): (r: Option<string>)
    ensures Get(body, "has_more") != Bool(true) ==> r.None?
    ensures r.Some? ==> HasValidConversationsData(body)
                        && LastValue(Get(body, "data").entries).Arr?
                        && Get(LastValue(Get(body, "data").entries).entries, "id") == Str(r.value)
    ensures Get(body, "has_more") == Bool(true) && HasValidConversationsData(body)
            && LastValue(Get(body, "data").entries).Arr?
            && Get(LastValue(Get(body, "data").entries).entries, "id").Str?
            ==> r == Some(Get(LastValue(Get(body, "data").entries).entries, "id").s)
  {
    var more, data := Get(body, "has_more"), Get(body, "data");
    if more != Bool(true) || !data.Arr? || data.entries == [] then None
    else
      var last := LastValue(data.entries);
      if last.Arr? && Get(last.entries, "id").Str? then Some(Get(last.entries, "id").s) else None
  }

  /**
   * A page that says there is more and whose `data` ends with a conversation
   * carrying a string id yields that id, whatever else the page holds and
   * whatever precedes that conversation.
   */
  lemma NextPageIdOfLastConversation(body: seq<Entry>, front: seq<Entry>, k: Key, conversation: seq<Entry>, id: string)
    requires Get(body, "has_more") == Bool(true)
    requires Get(body, "data") == Arr(front + [Entry(k, Arr(conversation))])
    requires Lookup(conversation, StrKey("id")) == Some(Str(id))
    ensures GetNextPageId(body) == Some(id)
  {
    var entries := front + [Entry(k, Arr(conversation))];
    assert LastValue(entries) == Arr(conversation);
  }

  /** The number of array-typed values: the entries a `foreach` with `if (!is_array(...)) continue` processes. */
  function ArrayCount(items: seq<Value>): (n: nat)
    ensures n <= |items|
  {
    if items == [] then 0 else (if items[0].Arr? then 1 else 0) + ArrayCount(items[1..])
  }

  /** The number of array-typed values with a string `id`: the conversations whose messages are fetched. */
  function IdentifiedCount(items: seq<Value>): (n: nat)
    ensures n <= ArrayCount(items)
  {
    if items == [] then 0
    else (if items[0].Arr? && ExtractString(items[0].entries, "id", None).Some? then 1 else 0)
         + IdentifiedCount(items[1..])
  }

  /** `is_array($v) ? $v : null`. */
  function ArrayOrNull(v: Value): (r: Option<seq<Entry>>)
    ensures r.Some? <==> v.Arr?
    ensures r.Some? ==> r.value == v.entries
  {
    if v.Arr? then Some(v.entries) else None
  }

  // ---------------------------------------------------------------------
  // The store
  // ---------------------------------------------------------------------

  /** Rows keyed by their Dify id: conversations by conversation id, messages by message id. */
  datatype Store = Store(conversations: map<string, ConversationRow>, messages: map<string, MessageRow>)

  const EmptyStore := Store(map[], map[])

  /** The database and the unit of work: rows committed, and rows persisted since the last flush. */
  datatype Db = Db(committed: Store, pending: Store)

  /** Every row is filed under its own Dify id and belongs to an app. */
  predicate StoreInv(s: Store)
  {
    (forall k :: k in s.conversations ==>
       s.conversations[k].difyConversationId == Some(k) && s.conversations[k].difyApp.Some?)
    && (forall k :: k in s.messages ==>
       s.messages[k].difyMessageId == Some(k) && s.messages[k].difyApp.Some?)
  }

  predicate DbInv(db: Db)
  {
    StoreInv(db.committed) && StoreInv(db.pending)
  }

  /** `findByDifyConversationId`, seeing the unit of work's rows before the committed ones. */
  function FindConversation(db: Db, id: string): Option<ConversationRow>
  {
    if id in db.pending.conversations then Some(db.pending.conversations[id])
    else if id in db.committed.conversations then Some(db.committed.conversations[id])
    else None
  }

  /** `findByDifyMessageId`, seeing the unit of work's rows before the committed ones. */
  function FindMessage(db: Db, id: string): Option<MessageRow>
  {
    if id in db.pending.messages then Some(db.pending.messages[id])
    else if id in db.committed.messages then Some(db.committed.messages[id])
    else None
  }

  /** `flush`: every pending row is written over the committed one with its id, and nothing stays pending. */
  function Flush(db: Db): (r: Db)
    ensures r.pending == EmptyStore
    ensures forall id :: FindConversation(r, id) == FindConversation(db, id)
    ensures forall id :: FindMessage(r, id) == FindMessage(db, id)
    ensures DbInv(db) ==> DbInv(r)
  {
    Db(Store(db.committed.conversations + db.pending.conversations, db.committed.messages + db.pending.messages),
       EmptyStore)
  }

  // ---------------------------------------------------------------------
  // Conversation upsert
  // ---------------------------------------------------------------------

  /** The string under `key`, or `d`: `extractStringValue($data, key, d) ?? d`. */
  function StrOr(data: seq<Entry>, key: string, d: string): string
  {
    OrElse(ExtractString(data, key, Some(d)), d)
  }

  /** `findOrCreateConversation`: the stored row, or a new one holding the id, the app and the app id as user. */
  function FindOrCreateConversation(db: Db, app: App, id: string): (r: ConversationRow)
    ensures FindConversation(db, id).Some? ==> r == FindConversation(db, id).value
    ensures FindConversation(db, id).None? ==>
              r == FreshConversation.(difyConversationId := Some(id), difyApp := Some(app), user := Some(OrElse(app.id, "")))
  {
    match FindConversation(db, id)
    case Some(row) => row
    case None => FreshConversation.(difyConversationId := Some(id), difyApp := Some(app), user := Some(OrElse(app.id, "")))
  }

  /**
   * `mapConversationData`: name and status (default `''`), introduction
   * (string or null), inputs (array or null) and both timestamps (default 0)
   * are overwritten; the user only when the payload's `user` is a string;
   * the id and the app are left as they are.
   */
  function MapConversation(row: ConversationRow, data: seq<Entry>): (r: ConversationRow)
    ensures r.difyConversationId == row.difyConversationId && r.difyApp == row.difyApp
    ensures r.name == Some(if Get(data, "name").Str? then Get(data, "name").s else "")
    ensures r.status == Some(if Get(data, "status").Str? then Get(data, "status").s else "")
    ensures r.introduction == if Get(data, "introduction").Str? then Some(Get(data, "introduction").s) else None
    ensures r.inputs == if Get(data, "inputs").Arr? then Some(Get(data, "inputs").entries) else None
    ensures r.difyCreatedAt == Some(ExtractInt(data, "created_at", 0))
    ensures r.difyUpdatedAt == Some(ExtractInt(data, "updated_at", 0))
    ensures r.user == if Get(data, "user").Str? then Some(Get(data, "user").s) else row.user
  {
    var user := ExtractString(data, "user", None);
    row.(name := Some(StrOr(data, "name", "")),
         status := Some(StrOr(data, "status", "")),
         introduction := ExtractString(data, "introduction", None),
         inputs := ArrayOrNull(Get(data, "inputs")),
         difyCreatedAt := Some(ExtractInt(data, "created_at", 0)),
         difyUpdatedAt := Some(ExtractInt(data, "updated_at", 0)),
         user := if user.Some? then user else row.user)
  }

  /** Mapping the same payload twice changes nothing the first mapping did not. */
  lemma MapConversationIdempotent(row: ConversationRow, data: seq<Entry>)
    ensures MapConversation(MapConversation(row, data), data) == MapConversation(row, data)
  {
  }

  /** `persist`: the row goes into the unit of work under its id. */
  function PersistConversation(db: Db, id: string, row: ConversationRow): Db
  {
    db.(pending := db.pending.(conversations := db.pending.conversations[id := row]))
  }

  /**
   * `saveConversation`: a payload without a string `id` changes nothing;
   * otherwise the conversation with that id (found or created) is mapped and
   * persisted, and no other conversation, no message and nothing committed
   * changes.
   */
  function SaveConversation(db: Db, app: App, data: seq<Entry>): (r: Db)
    ensures ExtractString(data, "id", None).None? ==> r == db
    ensures ExtractString(data, "id", None).Some? ==>
              var id := ExtractString(data, "id", None).value;
              && FindConversation(r, id) == Some(MapConversation(FindOrCreateConversation(db, app, id), data))
              && forall k :: k != id ==> FindConversation(r, k) == FindConversation(db, k)
    ensures r.committed == db.committed && r.pending.messages == db.pending.messages
    ensures DbInv(db) ==> DbInv(r)
  {
    match ExtractString(data, "id", None)
    case None => db
    case Some(id) => PersistConversation(db, id, MapConversation(FindOrCreateConversation(db, app, id), data))
  }

  /** Saving the same payload again leaves the store as the first save left it: no duplicate, no change. */
  lemma SaveConversationIdempotent(db: Db, app: App, data: seq<Entry>)
    requires DbInv(db)
    ensures SaveConversation(SaveConversation(db, app, data), app, data) == SaveConversation(db, app, data)
  {
    var once := SaveConversation(db, app, data);
    match ExtractString(data, "id", None)
    case None =>
    case Some(id) =>
      var row := MapConversation(FindOrCreateConversation(db, app, id), data);
      assert FindOrCreateConversation(once, app, id) == row;
      MapConversationIdempotent(FindOrCreateConversation(db, app, id), data);
      assert once.pending.conversations[id := row] == once.pending.conversations;
  }

  /**
   * A new conversation saved from a payload that meets the entity's
   * constraints (a UUID id, name 1..255, status 1..50, introduction absent
   * or at most 65535, non-negative integer timestamps, and a user of 1..100
   * characters from the payload or the app id) satisfies them.
   */
  lemma SavedConversationValid(db: Db, app: App, data: seq<Entry>, id: string)
    requires Lookup(data, StrKey("id")) == Some(Str(id)) && IsUuid(id)
    requires FindConversation(db, id).None?
    requires Get(data, "name").Str? && 1 <= |Get(data, "name").s| <= 255
    requires Get(data, "status").Str? && 1 <= |Get(data, "status").s| <= 50
    requires !Get(data, "introduction").Str? || |Get(data, "introduction").s| <= 65535
    requires Get(data, "created_at").Int? && Get(data, "created_at").i >= 0
    requires Get(data, "updated_at").Int? && Get(data, "updated_at").i >= 0
    requires if Get(data, "user").Str? then 1 <= |Get(data, "user").s| <= 100
             else app.id.Some? && 1 <= |app.id.value| <= 100
    ensures var r := SaveConversation(db, app, data);
            FindConversation(r, id).Some? && FindConversation(r, id).value.Valid()
  {
    assert ExtractString(data, "id", None) == Some(id);
  }

  /** A payload without `name` is saved with the name `''`, which the entity's own constraints reject. */
  lemma NamelessConversationInvalid(db: Db, app: App, id: string)
    requires FindConversation(db, id).None?
    ensures var r := SaveConversation(db, app, [Field("id", Str(id))]);
            FindConversation(r, id).Some? && FindConversation(r, id).value.name == Some("")
            && !FindConversation(r, id).value.Valid()
  {
    assert ExtractString([Field("id", Str(id))], "id", None) == Some(id);
  }

  // ---------------------------------------------------------------------
  // Message upsert
  // ---------------------------------------------------------------------

  /** `findOrCreateMessage`: the stored row, or a new one holding the id and the app. */
  function FindOrCreateMessage(db: Db, app: App, id: string): (r: MessageRow)
    ensures FindMessage(db, id).Some? ==> r == FindMessage(db, id).value
    ensures FindMessage(db, id).None? ==> r == FreshMessage.(difyMessageId := Some(id), difyApp := Some(app))
  {
    match FindMessage(db, id)
    case Some(row) => row
    case None => FreshMessage.(difyMessageId := Some(id), difyApp := Some(app))
  }

  /** `$data['feedback'] ?? []`. */
  function FeedbackOrEmpty(data: seq<Entry>): Value
  {
    if Get(data, "feedback") == Null then Arr([]) else Get(data, "feedback")
  }

  /**
   * `setMessageFeedback`: `feedback.rating` when `feedback` is an array whose
   * `rating` is set and a string; null otherwise.
   */
  function FeedbackRating(data: seq<Entry>): (r: Option<string>)
    ensures r.Some? <==> Get(data, "feedback").Arr? && Get(Get(data, "feedback").entries, "rating").Str?
    ensures r.Some? ==> r.value == Get(Get(data, "feedback").entries, "rating").s
  {
    var feedback := FeedbackOrEmpty(data);
    if !feedback.Arr? || Get(feedback.entries, "rating") == Null then None
    else
      var rating := Get(feedback.entries, "rating");
      if rating.Str? then Some(rating.s) else None
  }

  /**
   * `mapMessageData` with `setMessageArrayFields` and `setMessageFeedback`:
   * the conversation link comes from the payload's `conversation_id`
   * (default `''`), query, answer and user default to `''`, the creation
   * time to 0, the three JSON fields are arrays or null, and the rating is
   * `FeedbackRating`; the id and the app are left as they are.
   */
  function MapMessage(row: MessageRow, data: seq<Entry>): (r: MessageRow)
    ensures r.difyMessageId == row.difyMessageId && r.difyApp == row.difyApp
    ensures r.difyConversationId == Some(if Get(data, "conversation_id").Str? then Get(data, "conversation_id").s else "")
    ensures r.query == Some(if Get(data, "query").Str? then Get(data, "query").s else "")
    ensures r.answer == Some(if Get(data, "answer").Str? then Get(data, "answer").s else "")
    ensures r.user == Some(if Get(data, "user").Str? then Get(data, "user").s else "")
    ensures r.difyCreatedAt == Some(ExtractInt(data, "created_at", 0))
    ensures r.inputs == if Get(data, "inputs").Arr? then Some(Get(data, "inputs").entries) else None
    ensures r.messageFiles == if Get(data, "message_files").Arr? then Some(Get(data, "message_files").entries) else None
    ensures r.retrieverResources == if Get(data, "retriever_resources").Arr? then Some(Get(data, "retriever_resources").entries) else None
    ensures r.feedbackRating == FeedbackRating(data)
  {
    row.(difyConversationId := Some(StrOr(data, "conversation_id", "")),
         query := Some(StrOr(data, "query", "")),
         answer := Some(StrOr(data, "answer", "")),
         user := Some(StrOr(data, "user", "")),
         difyCreatedAt := Some(ExtractInt(data, "created_at", 0)),
         inputs := ArrayOrNull(Get(data, "inputs")),
         messageFiles := ArrayOrNull(Get(data, "message_files")),
         retrieverResources := ArrayOrNull(Get(data, "retriever_resources")),
         feedbackRating := FeedbackRating(data))
  }

  function PersistMessage(db: Db, id: string, row: MessageRow): Db
  {
    db.(pending := db.pending.(messages := db.pending.messages[id := row]))
  }

  /**
   * `saveMessage`: a payload without a string `id` changes nothing;
   * otherwise the message with that id (found or created) is mapped and
   * persisted, and no other message, no conversation and nothing committed
   * changes.
   */
  function SaveMessage(db: Db, app: App, data: seq<Entry>): (r: Db)
    ensures ExtractString(data, "id", None).None? ==> r == db
    ensures ExtractString(data, "id", None).Some? ==>
              var id := ExtractString(data, "id", None).value;
              && FindMessage(r, id) == Some(MapMessage(FindOrCreateMessage(db, app, id), data))
              && forall k :: k != id ==> FindMessage(r, k) == FindMessage(db, k)
    ensures r.committed == db.committed && r.pending.conversations == db.pending.conversations
    ensures DbInv(db) ==> DbInv(r)
  {
    match ExtractString(data, "id", None)
    case None => db
    case Some(id) => PersistMessage(db, id, MapMessage(FindOrCreateMessage(db, app, id), data))
  }

  /** Saving the same message payload again changes nothing. */
  lemma SaveMessageIdempotent(db: Db, app: App, data: seq<Entry>)
    requires DbInv(db)
    ensures SaveMessage(SaveMessage(db, app, data), app, data) == SaveMessage(db, app, data)
  {
    var once := SaveMessage(db, app, data);
    match ExtractString(data, "id", None)
    case None =>
    case Some(id) =>
      var row := MapMessage(FindOrCreateMessage(db, app, id), data);
      assert FindOrCreateMessage(once, app, id) == row;
      assert MapMessage(row, data) == row;
      assert once.pending.messages[id := row] == once.pending.messages;
  }

  /** The message is linked to the conversation its payload names, whatever conversation it was fetched for. */
  lemma MessageLinkFromPayload(db: Db, app: App, id: string, conversationId: string)
    ensures var data := [Field("id", Str(id)), Field("conversation_id", Str(conversationId))];
            FindMessage(SaveMessage(db, app, data), id).Some?
            && FindMessage(SaveMessage(db, app, data), id).value.difyConversationId == Some(conversationId)
  {
    var data := [Field("id", Str(id)), Field("conversation_id", Str(conversationId))];
    assert ExtractString(data, "id", None) == Some(id);
    assert Get(data, "conversation_id") == Str(conversationId);
  }

  /** `displayMessageInfo`'s preview: the first 50 characters of the payload's query, or `''`. */
  function MessagePreview(data: seq<Entry>): (p: string)
    ensures |p| <= PreviewLength
    ensures Get(data, "query").Str? ==> p <= Get(data, "query").s
    ensures Get(data, "query").Str? && |Get(data, "query").s| >= PreviewLength ==> |p| == PreviewLength
    ensures Get(data, "query").Str? && |Get(data, "query").s| <= PreviewLength ==> p == Get(data, "query").s
    ensures !Get(data, "query").Str? ==> p == ""
  {
    Prefix(OrElse(ExtractString(data, "query", Some("")), ""), PreviewLength)
  }

  // ---------------------------------------------------------------------
  // The API
  // ---------------------------------------------------------------------

  /** One scripted reply: the decoded body, or a response that cannot be turned into an array. */
  datatype Reply = Reply(body: seq<Entry>) | Broken

  /** What the command asks of the API client. */
  datatype ApiCall =
    | SetApp(app: App)
    | ListConversations(conversations: GetConversationsRequest)
    | ListMessages(messages: GetMessagesRequest)

  datatype World = World(db: Db, replies: seq<Reply>, calls: seq<ApiCall>)

  /** The result of a step: a value, or an exception that unwinds to `execute`. */
  datatype Outcome<T> = Ok(value: T) | Thrown

  datatype Step<T> = Step(w: World, out: Outcome<T>)

  datatype Counts = Counts(conversations: nat, messages: nat)
  {
    function Plus(other: Counts): Counts
    {
      Counts(conversations + other.conversations, messages + other.messages)
    }
  }

  /**
   * `fetchConversations`/`fetchMessages`: the request is logged and the next
   * reply consumed; no reply left, or a broken one, throws.
   */
  function Fetch(w: World, call: ApiCall): (r: Step<seq<Entry>>)
    ensures r.w.calls == w.calls + [call] && r.w.db == w.db
    ensures |w.replies| > 0 ==> r.w.replies == w.replies[1..]
    ensures |w.replies| == 0 ==> r == Step(r.w, Thrown) && r.w.replies == []
    ensures r.out.Ok? <==> |w.replies| > 0 && w.replies[0].Reply?
    ensures r.out.Ok? ==> w.replies[0] == Reply(r.out.value)
  {
    var logged := w.(calls := w.calls + [call]);
    if w.replies == [] then Step(logged, Thrown)
    else
      var next := logged.(replies := w.replies[1..]);
      match w.replies[0]
      case Broken => Step(next, Thrown)
      case Reply(body) => Step(next, Ok(body))
  }

  // ---------------------------------------------------------------------
  // Messages of one conversation
  // ---------------------------------------------------------------------

  /**
   * `processMessageBatch` from the current element on: every array-typed
   * element is counted and, outside a dry run, saved.
   */
  function MessageBatch(db: Db, app: App, items: seq<Value>, dry: bool, count: nat): (r: (Db, nat))
    decreases |items|
    ensures count <= r.1 <= count + |items|
    ensures dry ==> r.0 == db
  {
    if items == [] then (db, count)
    else if !items[0].Arr? then MessageBatch(db, app, items[1..], dry, count)
    else
      var db' := if dry then db else SaveMessage(db, app, items[0].entries);
      MessageBatch(db', app, items[1..], dry, count + 1)
  }

  /**
   * `processConversationMessages`: nothing is fetched and 0 counted when the
   * conversation has no string id or the app none; otherwise one messages
   * request (limit 1000) is made, and a reply whose `data` is not an array
   * counts 0.
   */
  function ConversationMessages(w: World, app: App, data: seq<Entry>, dry: bool): (r: Step<nat>)
    ensures |r.w.replies| <= |w.replies|
  {
    var id := ExtractString(data, "id", None);
    if id.None? || app.id.None? then Step(w, Ok(0))
    else
      var f := Fetch(w, ListMessages(GetMessagesRequest(id.value, app.id.value, None, MessagesLimit)));
      if f.out.Thrown? then Step(f.w, Thrown)
      else
        var messages := Get(f.out.value, "data");
        if !messages.Arr? then Step(f.w, Ok(0))
        else
          var (db, n) := MessageBatch(f.w.db, app, Values(messages.entries), dry, 0);
          Step(f.w.(db := db), Ok(n))
  }

  // ---------------------------------------------------------------------
  // One page of conversations
  // ---------------------------------------------------------------------

  /** `processConversation` followed by `processConversationMessages` for one array-typed element. */
  function ConversationStep(w: World, app: App, data: seq<Entry>, dry: bool): (r: Step<nat>)
    ensures |r.w.replies| <= |w.replies|
  {
    var saved := if dry then w else w.(db := SaveConversation(w.db, app, data));
    ConversationMessages(saved, app, data, dry)
  }

  /**
   * `processConversationBatch` from the current element on: every
   * array-typed element is a conversation (counted even without a string
   * id), the first exception ends the batch.
   */
  function ConversationBatch(w: World, app: App, items: seq<Value>, dry: bool, acc: Counts): (r: Step<Counts>)
    decreases |items|
    ensures |r.w.replies| <= |w.replies|
  {
    if items == [] then Step(w, Ok(acc))
    else if !items[0].Arr? then ConversationBatch(w, app, items[1..], dry, acc)
    else
      var s := ConversationStep(w, app, items[0].entries, dry);
      match s.out
      case Thrown => Step(s.w, Thrown)
      case Ok(k) => ConversationBatch(s.w, app, items[1..], dry, acc.Plus(Counts(1, k)))
  }

  /** One array-typed element of a batch: its conversation step either throws, ending the batch, or adds one conversation and its messages. */
  lemma ConversationBatchUnfold(w: World, app: App, items: seq<Value>, dry: bool, acc: Counts, s: Step<nat>)
    requires items != [] && items[0].Arr?
    requires s == ConversationStep(w, app, items[0].entries, dry)
    ensures s.out.Thrown? ==> ConversationBatch(w, app, items, dry, acc) == Step(s.w, Thrown)
    ensures s.out.Ok? ==>
      ConversationBatch(w, app, items, dry, acc) == ConversationBatch(s.w, app, items[1..], dry, acc.Plus(Counts(1, s.out.value)))
  {
  }

  // ---------------------------------------------------------------------
  // Pages, apps and the command
  // ---------------------------------------------------------------------

  /**
   * `processPaginatedConversations` from the request with cursor `lastId`
   * on: a page whose `data` is not a non-empty array ends the walk; so does
   * a falsy next cursor. Each request asks for the app's conversations with
   * the same `limit`.
   */
  function Paginate(w: World, app: App, limit: int, dry: bool, lastId: Option<string>, acc: Counts): (r: Step<Counts>)
    requires app.id.Some?
    decreases |w.replies|
    ensures |r.w.replies| < |w.replies| || (w.replies == [] && r.out.Thrown?)
  {
    var f := Fetch(w, ListConversations(GetConversationsRequest(app.id.value, lastId, limit)));
    if f.out.Thrown? then Step(f.w, Thrown)
    else
      var body := f.out.value;
      if !HasValidConversationsData(body) then Step(f.w, Ok(acc))
      else
        var b := ConversationBatch(f.w, app, Values(Get(body, "data").entries), dry, Counts(0, 0));
        if b.out.Thrown? then Step(b.w, Thrown)
        else
          var next := GetNextPageId(body);
          if Truthy(next) then Paginate(b.w, app, limit, dry, next, acc.Plus(b.out.value))
          else Step(b.w, Ok(acc.Plus(b.out.value)))
  }

  /** One page of the walk, up to the conversation batch: a failed request throws, a page without valid data ends the walk. */
  lemma PaginateFetch(w: World, app: App, limit: int, dry: bool, lastId: Option<string>, acc: Counts, f: Step<seq<Entry>>)
    requires app.id.Some?
    requires f == Fetch(w, ListConversations(GetConversationsRequest(app.id.value, lastId, limit)))
    ensures f.out.Thrown? ==> Paginate(w, app, limit, dry, lastId, acc) == Step(f.w, Thrown)
    ensures f.out.Ok? && !HasValidConversationsData(f.out.value) ==> Paginate(w, app, limit, dry, lastId, acc) == Step(f.w, Ok(acc))
  {
  }

  /** The rest of a page: a throwing batch ends the walk, otherwise the next page's cursor decides whether it goes on. */
  lemma PaginatePage(w: World, app: App, limit: int, dry: bool, lastId: Option<string>, acc: Counts, f: Step<seq<Entry>>, b: Step<Counts>)
    requires app.id.Some?
    requires f == Fetch(w, ListConversations(GetConversationsRequest(app.id.value, lastId, limit)))
    requires f.out.Ok? && HasValidConversationsData(f.out.value)
    requires b == ConversationBatch(f.w, app, Values(Get(f.out.value, "data").entries), dry, Counts(0, 0))
    ensures b.out.Thrown? ==> Paginate(w, app, limit, dry, lastId, acc) == Step(b.w, Thrown)
    ensures b.out.Ok? && !Truthy(GetNextPageId(f.out.value)) ==> Paginate(w, app, limit, dry, lastId, acc) == Step(b.w, Ok(acc.Plus(b.out.value)))
    ensures b.out.Ok? && Truthy(GetNextPageId(f.out.value)) ==>
      Paginate(w, app, limit, dry, lastId, acc) == Paginate(b.w, app, limit, dry, GetNextPageId(f.out.value), acc.Plus(b.out.value))
  {
  }

  /**
   * `syncAppConversations`: an app without an id throws before anything is
   * requested; otherwise the client is pointed at the app, the pages are
   * walked and, outside a dry run and when nothing threw, the unit of work
   * is flushed.
   */
  function SyncApp(w: World, app: App, limit: int, dry: bool): (r: Step<Counts>)
    ensures app.id.None? ==> r == Step(w, Thrown)
    ensures app.id.Some? ==> |r.w.replies| < |w.replies| || (w.replies == [] && r.out.Thrown?)
    ensures r.out.Ok? && !dry ==> r.w.db.pending == EmptyStore
  {
    if app.id.None? then Step(w, Thrown)
    else
      var start := w.(calls := w.calls + [SetApp(app)]);
      var p := Paginate(start, app, limit, dry, None, Counts(0, 0));
      if p.out.Ok? && !dry then Step(p.w.(db := Flush(p.w.db)), p.out) else p
  }

  /** The `foreach ($apps ...)` of `execute` from the current app on: a failing app adds nothing to the totals. */
  function RunApps(w: World, apps: seq<App>, limit: int, dry: bool, totals: Counts): (r: (World, Counts))
    decreases |apps|
    ensures |r.0.replies| <= |w.replies|
    ensures totals.conversations <= r.1.conversations && totals.messages <= r.1.messages
  {
    if apps == [] then (w, totals)
    else
      var s := SyncApp(w, apps[0], limit, dry);
      match s.out
      case Thrown => RunApps(s.w, apps[1..], limit, dry, totals)
      case Ok(c) => RunApps(s.w, apps[1..], limit, dry, totals.Plus(c))
  }

  /** The page size `execute` takes from `--limit`: the option cast to int when numeric, otherwise 100. */
  function PageLimit(option: Value): (limit: int)
    ensures option.Int? ==> limit == option.i
    ensures option.Str? && IsNumericString(option.s) ==> limit == ParseInt(option.s)
    ensures !IsNumeric(option) ==> limit == DefaultLimit
  {
    if IsNumeric(option) then ToInt(option) else DefaultLimit
  }

  datatype Execution = Execution(w: World, status: int, totals: Counts)

  /**
   * `execute` with the apps the registry resolved: no app is FAILURE with
   * nothing done; otherwise every app is synced in turn and the command
   * succeeds, whatever the apps did.
   */
  function Execute(w: World, apps: seq<App>, limitOption: Value, dryRunOption: Value): (r: Execution)
    ensures apps == [] ==> r == Execution(w, FAILURE, Counts(0, 0))
    ensures apps != [] ==> r.status == SUCCESS
  {
    if apps == [] then Execution(w, FAILURE, Counts(0, 0))
    else
      var dry := dryRunOption.Bool? && dryRunOption.b;
      var (w', totals) := RunApps(w, apps, PageLimit(limitOption), dry, Counts(0, 0));
      Execution(w', SUCCESS, totals)
  }
}
