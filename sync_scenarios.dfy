/**
 * Concrete runs of the sync command: the runs its own tests make, and the
 * edge cases of the cursor and of an app that fails halfway.
 */
module SyncScenarios {
  import opened Wrappers
  import opened Php
  import opened Requests
  import opened Entities
  import opened SyncSpec

  const TestApp := App(Some("test-app-id"), "Test App")

  /** The conversation of the tests' canned response. */
  const TestConversation: seq<Entry> := [
    Entry(StrKey("id"), Str("conv-123")),
    Entry(StrKey("name"), Str("Test Conversation")),
    Entry(StrKey("status"), Str("normal")),
    Entry(StrKey("introduction"), Str("Test intro")),
    Entry(StrKey("inputs"), Arr([Entry(StrKey("key"), Str("value"))])),
    Entry(StrKey("created_at"), Int(1234567890)),
    Entry(StrKey("updated_at"), Int(1234567890)),
    Entry(StrKey("user"), Str("test-user"))
  ]

  /** The tests' canned response, returned for every request: one conversation, no further page. */
  const TestReply := Reply([
    Entry(StrKey("data"), Arr([Entry(IntKey(0), Arr(TestConversation))])),
    Entry(StrKey("has_more"), Bool(false))
  ])

  /** A world whose client answers the next two requests with the canned response and has made none yet. */
  predicate TestStart(w: World)
  {
    w.replies == [TestReply, TestReply] && w.calls == []
  }

  /** The requests a run over the test app makes with page size `limit`. */
  function TestCalls(limit: int): (calls: seq<ApiCall>)
    ensures |calls| == 3 && calls[0] == SetApp(TestApp)
  {
    [SetApp(TestApp),
     ListConversations(GetConversationsRequest("test-app-id", None, limit)),
     ListMessages(GetMessagesRequest("conv-123", "test-app-id", None, MessagesLimit))]
  }

  lemma {:induction false} PageLimitOfDecimal(n: nat, s: string)
    requires s == NatToDigits(n)
    ensures PageLimit(Str(s)) == n
  {
    IntStringRoundTrip(n);
  }

  /** A batch of one array-typed message: it is counted and, outside a dry run, saved. */
  lemma MessageBatchOfOne(db: Db, app: App, m: seq<Entry>, k: Key, dry: bool)
    ensures MessageBatch(db, app, Values([Entry(k, Arr(m))]), dry, 0)
            == (if dry then db else SaveMessage(db, app, m), 1)
  {
    var items := Values([Entry(k, Arr(m))]);
    assert items == [Arr(m)];
    var db' := if dry then db else SaveMessage(db, app, m);
    assert MessageBatch(db, app, items, dry, 0) == MessageBatch(db', app, items[1..], dry, 1);
  }

  /**
   * One conversation with string id `id`, whose messages request is
   * answered by a page of one message `m`: one request, one message.
   */
  lemma ConversationStepOfOne(w: World, app: App, conv: seq<Entry>, id: string, msgs: seq<Entry>,
                              k: Key, m: seq<Entry>, dry: bool)
    requires app.id.Some? && ExtractString(conv, "id", None) == Some(id)
    requires w.replies != [] && w.replies[0] == Reply(msgs) && Get(msgs, "data") == Arr([Entry(k, Arr(m))])
    ensures var s := ConversationStep(w, app, conv, dry);
            && s.out == Ok(1) && s.w.replies == w.replies[1..]
            && s.w.calls == w.calls + [ListMessages(GetMessagesRequest(id, app.id.value, None, MessagesLimit))]
            && s.w.db == (if dry then w.db else SaveMessage(SaveConversation(w.db, app, conv), app, m))
  {
    var saved := if dry then w else w.(db := SaveConversation(w.db, app, conv));
    assert ConversationStep(w, app, conv, dry) == ConversationMessages(saved, app, conv, dry);
    var g := Fetch(saved, ListMessages(GetMessagesRequest(id, app.id.value, None, MessagesLimit)));
    assert g.out == Ok(msgs) && g.w.db == saved.db;
    MessageBatchOfOne(g.w.db, app, m, k, dry);
  }

  /**
   * A last page holding one conversation, followed by that conversation's
   * page of one message: the walk ends after the two requests, counting one
   * conversation and one message.
   */
  lemma {:induction false} LastPageOfOne(w: World, app: App, limit: int, dry: bool, body: seq<Entry>,
                                         k: Key, conv: seq<Entry>, id: string, msgs: seq<Entry>, k': Key, m: seq<Entry>)
    requires app.id.Some? && ExtractString(conv, "id", None) == Some(id)
    requires |w.replies| >= 2 && w.replies[0] == Reply(body) && w.replies[1] == Reply(msgs)
    requires Get(body, "data") == Arr([Entry(k, Arr(conv))]) && !Truthy(GetNextPageId(body))
    requires Get(msgs, "data") == Arr([Entry(k', Arr(m))])
    ensures var p := Paginate(w, app, limit, dry, None, Counts(0, 0));
            && p.out == Ok(Counts(1, 1)) && p.w.replies == w.replies[2..]
            && p.w.calls == w.calls + [ListConversations(GetConversationsRequest(app.id.value, None, limit)),
                                       ListMessages(GetMessagesRequest(id, app.id.value, None, MessagesLimit))]
            && p.w.db == (if dry then w.db else SaveMessage(SaveConversation(w.db, app, conv), app, m))
  {
    var f := Fetch(w, ListConversations(GetConversationsRequest(app.id.value, None, limit)));
    assert f.out == Ok(body) && f.w.replies == w.replies[1..];
    var items := Values(Get(body, "data").entries);
    assert items == [Arr(conv)];
    ConversationStepOfOne(f.w, app, conv, id, msgs, k', m, dry);
    var s := ConversationStep(f.w, app, conv, dry);
    assert ConversationBatch(f.w, app, items, dry, Counts(0, 0)) == ConversationBatch(s.w, app, [], dry, Counts(1, 1));
  }

  /** The fields of the tests' canned response that the walk reads. */
  lemma TestPayload(body: seq<Entry>, c: seq<Entry>)
    requires body == TestReply.body && c == TestConversation
    ensures ExtractString(c, "id", None) == Some("conv-123")
    ensures GetNextPageId(body) == None
    ensures Get(body, "data") == Arr([Entry(IntKey(0), Arr(c))])
    ensures Get(body, "has_more") == Bool(false)
  {
    GetFirst(c, 0, "id");
    GetFirst(body, 0, "data");
    GetFirst(body, 1, "has_more");
  }

  /** The tests' page, with the conversation's messages, from a world that still holds both replies. */
  lemma TestPage(w: World, limit: int, dry: bool)
    requires w.replies == [TestReply, TestReply]
    ensures var p := Paginate(w, TestApp, limit, dry, None, Counts(0, 0));
            && p.out == Ok(Counts(1, 1)) && p.w.replies == []
            && p.w.calls == w.calls + TestCalls(limit)[1..]
            && p.w.db == (if dry then w.db else SaveMessage(SaveConversation(w.db, TestApp, TestConversation), TestApp, TestConversation))
  {
    TestPayload(TestReply.body, TestConversation);
    LastPageOfOne(w, TestApp, limit, dry, TestReply.body, IntKey(0), TestConversation, "conv-123",
                  TestReply.body, IntKey(0), TestConversation);
  }

  lemma RunOneApp(w: World, app: App, limit: int, dry: bool, s: Step<Counts>)
    requires s == SyncApp(w, app, limit, dry) && s.out.Ok?
    ensures RunApps(w, [app], limit, dry, Counts(0, 0)) == (s.w, s.out.value)
  {
    assert [app][1..] == [];
    assert RunApps(w, [app], limit, dry, Counts(0, 0)) == RunApps(s.w, [], limit, dry, Counts(0, 0).Plus(s.out.value));
  }

  /** A run over one app that completes ends where that app's sync ends, with its counts. */
  lemma SingleApp(w: World, app: App, limitOption: Value, dryRunOption: Value, s: Step<Counts>)
    requires s == SyncApp(w, app, PageLimit(limitOption), dryRunOption.Bool? && dryRunOption.b) && s.out.Ok?
    ensures Execute(w, [app], limitOption, dryRunOption) == Execution(s.w, SUCCESS, s.out.value)
  {
    RunOneApp(w, app, PageLimit(limitOption), dryRunOption.Bool? && dryRunOption.b, s);
  }

  /** The tests' app, synced from a world in which nothing was requested yet. */
  lemma TestSync(w: World, limit: int, dry: bool)
    requires TestStart(w)
    ensures var s := SyncApp(w, TestApp, limit, dry);
            && s.out == Ok(Counts(1, 1)) && s.w.calls == TestCalls(limit) && s.w.replies == []
            && s.w.db == (if dry then w.db
                          else Flush(SaveMessage(SaveConversation(w.db, TestApp, TestConversation), TestApp, TestConversation)))
  {
    var start := w.(calls := [SetApp(TestApp)]);
    assert start == w.(calls := w.calls + [SetApp(TestApp)]);
    TestPage(start, limit, dry);
  }

  /**
   * The tests' dry run with `--limit 50`, whatever the store holds: the
   * command succeeds after exactly two requests (the page and the
   * conversation's messages), counts one conversation and one message (the
   * canned response's own element) and leaves the store untouched.
   */
  lemma TestDryRun(w: World)
    requires TestStart(w)
    ensures var r := Execute(w, [TestApp], Str("50"), Bool(true));
            && r.status == SUCCESS && r.totals == Counts(1, 1)
            && r.w.calls == TestCalls(50) && r.w.replies == [] && r.w.db == w.db
  {
    PageLimitOfDecimal(50, "50");
    TestSync(w, 50, true);
    SingleApp(w, TestApp, Str("50"), Bool(true), SyncApp(w, TestApp, 50, true));
  }

  /** With no app to sync, the command fails and does nothing. */
  lemma NoAppsFails(w: World, limitOption: Value, dryRunOption: Value)
    ensures Execute(w, [], limitOption, dryRunOption) == Execution(w, FAILURE, Counts(0, 0))
  {
  }

  /** The row the tests' conversation becomes. */
  const TestRow := ConversationRow(
    Some("conv-123"), Some(TestApp), Some("Test Conversation"),
    Some([Entry(StrKey("key"), Str("value"))]), Some("normal"), Some("Test intro"),
    Some("test-user"), Some(1234567890), Some(1234567890))

  /** `$a[name]` is the value of the first entry with that key. */
  lemma {:induction false} GetFirst(a: seq<Entry>, i: nat, name: string)
    requires i < |a| && a[i].key == StrKey(name)
    requires forall j :: 0 <= j < i ==> a[j].key != StrKey(name)
    ensures Get(a, name) == a[i].value
    decreases i
  {
    if i > 0 {
      GetFirst(a[1..], i - 1, name);
    }
  }

  /** The keys of `TestConversation`, in order. */
  const TestKeys := ["id", "name", "status", "introduction", "inputs", "created_at", "updated_at", "user"]

  /** Each key of the tests' conversation reads back the value stored under it. */
  lemma TestConversationField(c: seq<Entry>, i: nat)
    requires c == TestConversation && i < |TestKeys|
    ensures Get(c, TestKeys[i]) == c[i].value
  {
    GetFirst(c, i, TestKeys[i]);
  }

  /** Mapping the tests' conversation onto a new row for it yields `TestRow`. */
  lemma MapTestConversation(row: ConversationRow, c: seq<Entry>)
    requires row == FreshConversation.(difyConversationId := Some("conv-123"), difyApp := Some(TestApp), user := Some("test-app-id"))
    requires c == TestConversation
    ensures MapConversation(row, c) == TestRow
  {
    TestConversationField(c, 1);
    TestConversationField(c, 2);
    TestConversationField(c, 3);
    TestConversationField(c, 4);
    TestConversationField(c, 5);
    TestConversationField(c, 6);
    TestConversationField(c, 7);
  }

  /** Saving the tests' conversation into a store that does not know it yet creates `TestRow`. */
  lemma SaveTestConversation(db: Db)
    requires FindConversation(db, "conv-123").None?
    ensures FindConversation(SaveConversation(db, TestApp, TestConversation), "conv-123") == Some(TestRow)
  {
    TestPayload(TestReply.body, TestConversation);
    MapTestConversation(FindOrCreateConversation(db, TestApp, "conv-123"), TestConversation);
  }

  /**
   * The same run without `--dry-run`, into a store that does not know the
   * conversation: it is committed with every field of the payload, and
   * nothing is left pending.
   */
  lemma TestLiveRun(w: World)
    requires TestStart(w) && FindConversation(w.db, "conv-123").None?
    ensures var r := Execute(w, [TestApp], Str("100"), Bool(false));
            && r.status == SUCCESS && r.totals == Counts(1, 1) && r.w.calls == TestCalls(100)
            && r.w.db.pending == EmptyStore
            && FindConversation(r.w.db, "conv-123") == Some(TestRow)
  {
    PageLimitOfDecimal(100, "100");
    TestSync(w, 100, false);
    SaveTestConversation(w.db);
    SingleApp(w, TestApp, Str("100"), Bool(false), SyncApp(w, TestApp, 100, false));
  }

  // ---------------------------------------------------------------------
  // A cursor of "0"
  // ---------------------------------------------------------------------

  /**
   * A page that says there are more pages, but whose last conversation has
   * the id `"0"`: the cursor is `"0"`, which PHP reads as false, so the walk
   * stops after this page and its messages.
   */
  lemma ZeroCursorEndsWalk(w: World, app: App, limit: int, dry: bool, conv: seq<Entry>, msgs: seq<Entry>, m: seq<Entry>)
    requires app.id.Some? && conv == [Field("id", Str("0"))]
    requires |w.replies| >= 2
    requires w.replies[0] == Reply([Field("data", Arr([Entry(IntKey(0), Arr(conv))])), Field("has_more", Bool(true))])
    requires w.replies[1] == Reply(msgs) && Get(msgs, "data") == Arr([Entry(IntKey(0), Arr(m))])
    ensures var p := Paginate(w, app, limit, dry, None, Counts(0, 0));
            && p.out == Ok(Counts(1, 1)) && p.w.replies == w.replies[2..]
            && p.w.calls == w.calls + [ListConversations(GetConversationsRequest(app.id.value, None, limit)),
                                       ListMessages(GetMessagesRequest("0", app.id.value, None, MessagesLimit))]
  {
    var body := w.replies[0].body;
    assert Get(body, "data") == Arr([Entry(IntKey(0), Arr(conv))]);
    assert Get(body, "has_more") == Bool(true);
    assert ExtractString(conv, "id", None) == Some("0");
    assert GetNextPageId(body) == Some("0");
    LastPageOfOne(w, app, limit, dry, body, IntKey(0), conv, "0", msgs, IntKey(0), m);
  }

  // ---------------------------------------------------------------------
  // An app that fails halfway
  // ---------------------------------------------------------------------

  /**
   * An app whose first page holds one conversation with a string id, and
   * whose messages request then fails: the sync throws, with that
   * conversation saved but not flushed.
   */
  lemma {:induction false} AppFailsAfterSave(w: World, app: App, limit: int, body: seq<Entry>, k: Key,
                                             conv: seq<Entry>, id: string)
    requires app.id.Some? && ExtractString(conv, "id", None) == Some(id)
    requires |w.replies| >= 2 && w.replies[0] == Reply(body) && w.replies[1] == Broken
    requires Get(body, "data") == Arr([Entry(k, Arr(conv))])
    ensures var s := SyncApp(w, app, limit, false);
            && s.out == Thrown && s.w.replies == w.replies[2..]
            && s.w.db == SaveConversation(w.db, app, conv)
  {
    var start := w.(calls := w.calls + [SetApp(app)]);
    var f := Fetch(start, ListConversations(GetConversationsRequest(app.id.value, None, limit)));
    assert f.out == Ok(body) && f.w.replies == w.replies[1..];
    var items := Values(Get(body, "data").entries);
    assert items == [Arr(conv)];
    var saved := f.w.(db := SaveConversation(f.w.db, app, conv));
    var g := Fetch(saved, ListMessages(GetMessagesRequest(id, app.id.value, None, MessagesLimit)));
    assert g.out == Thrown;
    var st := ConversationStep(f.w, app, conv, false);
    assert st == Step(g.w, Thrown);
    assert ConversationBatch(f.w, app, items, false, Counts(0, 0)) == Step(g.w, Thrown);
  }

  /** An app whose first page has no conversations syncs nothing and, outside a dry run, flushes. */
  lemma EmptyAppFlushes(w: World, app: App, limit: int, dry: bool, body: seq<Entry>)
    requires app.id.Some? && w.replies != [] && w.replies[0] == Reply(body) && !HasValidConversationsData(body)
    ensures var s := SyncApp(w, app, limit, dry);
            && s.out == Ok(Counts(0, 0)) && s.w.replies == w.replies[1..]
            && s.w.db == (if dry then w.db else Flush(w.db))
  {
  }

  /** A run over two apps, the first of which throws, ends where the second one's sync ends, with its counts. */
  lemma RunTwoAppsFirstThrows(w: World, a: App, b: App, limit: int, dry: bool, s1: Step<Counts>, s2: Step<Counts>)
    requires s1 == SyncApp(w, a, limit, dry) && s1.out.Thrown?
    requires s2 == SyncApp(s1.w, b, limit, dry) && s2.out.Ok?
    ensures RunApps(w, [a, b], limit, dry, Counts(0, 0)) == (s2.w, s2.out.value)
  {
    assert [a, b][1..] == [b];
    assert RunApps(w, [a, b], limit, dry, Counts(0, 0)) == RunApps(s1.w, [b], limit, dry, Counts(0, 0));
    RunOneApp(s1.w, b, limit, dry, s2);
  }

  /**
   * Two apps, the first of which fails after saving a conversation: the run
   * still succeeds and reports only the second app's (empty) totals, but the
   * second app's flush commits the conversation the failed app left pending.
   */
  lemma FailedAppWritesCommitLater(w: World, a: App, b: App, limitOption: Value, body: seq<Entry>, k: Key,
                                   conv: seq<Entry>, id: string, empty: seq<Entry>)
    requires a.id.Some? && b.id.Some? && ExtractString(conv, "id", None) == Some(id)
    requires |w.replies| >= 3 && w.replies[0] == Reply(body) && w.replies[1] == Broken && w.replies[2] == Reply(empty)
    requires Get(body, "data") == Arr([Entry(k, Arr(conv))]) && !HasValidConversationsData(empty)
    ensures var r := Execute(w, [a, b], limitOption, Bool(false));
            && r.status == SUCCESS && r.totals == Counts(0, 0)
            && id in r.w.db.committed.conversations
  {
    var limit := PageLimit(limitOption);
    AppFailsAfterSave(w, a, limit, body, k, conv, id);
    var s1 := SyncApp(w, a, limit, false);
    EmptyAppFlushes(s1.w, b, limit, false, empty);
    var s2 := SyncApp(s1.w, b, limit, false);
    assert FindConversation(s1.w.db, id).Some?;
    assert FindConversation(s2.w.db, id).Some? && s2.w.db.pending == EmptyStore;
    RunTwoAppsFirstThrows(w, a, b, limit, false, s1, s2);
  }
}
