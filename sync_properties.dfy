/**
 * Properties of the sync engine, proved by induction over the loops of
 * `SyncSpec` (and so, through the method contracts, of the loops of
 * `SyncCommand`):
 *  - what the counters count;
 *  - what a run may change in the store: a dry run nothing, the page walk
 *    nothing committed, and every run keeps rows filed under their own ids;
 *  - that the store never steers the run, so a dry run makes exactly the
 *    requests a live run would;
 *  - the runs of the command's own tests, and the edge cases of the cursor
 *    and of a failing app.
 */
module SyncProperties {
  import opened Wrappers
  import opened Php
  import opened Requests
  import opened Entities
  import opened SyncSpec

  // ---------------------------------------------------------------------
  // Counting
  // ---------------------------------------------------------------------

  /** The message count of a batch is the number of array-typed elements, whatever the store holds. */
  lemma {:induction false} MessageBatchCount(db: Db, app: App, items: seq<Value>, dry: bool, count: nat)
    ensures MessageBatch(db, app, items, dry, count).1 == count + ArrayCount(items)
    decreases |items|
  {
    if items != [] {
      if !items[0].Arr? {
        MessageBatchCount(db, app, items[1..], dry, count);
      } else {
        var db' := if dry then db else SaveMessage(db, app, items[0].entries);
        MessageBatchCount(db', app, items[1..], dry, count + 1);
      }
    }
  }

  /** One conversation makes one messages request when it has a string id and none otherwise. */
  lemma ConversationStepCalls(w: World, app: App, data: seq<Entry>, dry: bool)
    requires app.id.Some?
    ensures var s := ConversationStep(w, app, data, dry);
            s.out.Ok? ==> |s.w.calls| == |w.calls| + (if ExtractString(data, "id", None).Some? then 1 else 0)
  {
  }

  /**
   * A batch that completes counts every array-typed element as a
   * conversation, with or without a string id, and makes one messages
   * request for each of those that has one.
   */
  lemma {:induction false} ConversationBatchCount(w: World, app: App, items: seq<Value>, dry: bool, acc: Counts)
    requires app.id.Some?
    ensures var r := ConversationBatch(w, app, items, dry, acc);
            r.out.Ok? ==> r.out.value.conversations == acc.conversations + ArrayCount(items)
                          && |r.w.calls| == |w.calls| + IdentifiedCount(items)
    decreases |items|
  {
    if items != [] {
      if !items[0].Arr? {
        ConversationBatchCount(w, app, items[1..], dry, acc);
      } else {
        var s := ConversationStep(w, app, items[0].entries, dry);
        ConversationStepCalls(w, app, items[0].entries, dry);
        if s.out.Ok? {
          var acc' := acc.Plus(Counts(1, s.out.value));
          ConversationBatchCount(s.w, app, items[1..], dry, acc');
          assert ConversationBatch(w, app, items, dry, acc) == ConversationBatch(s.w, app, items[1..], dry, acc');
        }
      }
    }
  }

  /**
   * A conversation's message count: 0 without a string id or an app id (and
   * nothing requested); otherwise the request succeeds exactly when the next
   * reply can be turned into an array, and the count is then the number of
   * array-typed elements of its `data`, or 0 when `data` is not an array.
   */
  lemma ConversationMessagesCount(w: World, app: App, data: seq<Entry>, dry: bool)
    ensures var r := ConversationMessages(w, app, data, dry);
            && (ExtractString(data, "id", None).None? || app.id.None? ==> r == Step(w, Ok(0)))
            && (ExtractString(data, "id", None).Some? && app.id.Some? ==>
                  && (r.out.Ok? <==> w.replies != [] && w.replies[0].Reply?)
                  && (r.out.Ok? ==>
                        var messages := Get(w.replies[0].body, "data");
                        r.out.value == if messages.Arr? then ArrayCount(Values(messages.entries)) else 0))
  {
    var id := ExtractString(data, "id", None);
    if id.Some? && app.id.Some? {
      var f := Fetch(w, ListMessages(GetMessagesRequest(id.value, app.id.value, None, MessagesLimit)));
      if f.out.Ok? && Get(f.out.value, "data").Arr? {
        MessageBatchCount(f.w.db, app, Values(Get(f.out.value, "data").entries), dry, 0);
      }
    }
  }

  /**
   * One page of the walk, `f` its request and `b` its conversation batch:
   * when the batch completes, the page adds the number of array-typed
   * elements of its `data` to the running conversation total (`acc.Plus`),
   * and the walk goes on from the page's cursor when that is truthy and
   * stops otherwise.
   */
  lemma PaginatePageCount(w: World, app: App, limit: int, dry: bool, lastId: Option<string>, acc: Counts,
                          f: Step<seq<Entry>>, b: Step<Counts>)
    requires app.id.Some?
    requires f == Fetch(w, ListConversations(GetConversationsRequest(app.id.value, lastId, limit)))
    requires f.out.Ok? && HasValidConversationsData(f.out.value)
    requires b == ConversationBatch(f.w, app, Values(Get(f.out.value, "data").entries), dry, Counts(0, 0))
    requires b.out.Ok?
    ensures b.out.value.conversations == ArrayCount(Values(Get(f.out.value, "data").entries))
    ensures Truthy(GetNextPageId(f.out.value)) ==>
              Paginate(w, app, limit, dry, lastId, acc)
              == Paginate(b.w, app, limit, dry, GetNextPageId(f.out.value), acc.Plus(b.out.value))
    ensures !Truthy(GetNextPageId(f.out.value)) ==>
              Paginate(w, app, limit, dry, lastId, acc) == Step(b.w, Ok(acc.Plus(b.out.value)))
  {
    ConversationBatchCount(f.w, app, Values(Get(f.out.value, "data").entries), dry, Counts(0, 0));
    PaginatePage(w, app, limit, dry, lastId, acc, f, b);
  }

  // ---------------------------------------------------------------------
  // What a run changes
  // ---------------------------------------------------------------------

  /** The store effects of a run that starts in `w` and ends in `r`. */
  predicate Frame(w: World, r: World, dry: bool)
  {
    && w.calls <= r.calls
    && (dry ==> r.db == w.db)
    && r.db.committed == w.db.committed
    && (DbInv(w.db) ==> DbInv(r.db))
  }

  lemma {:induction false} MessageBatchFrame(db: Db, app: App, items: seq<Value>, dry: bool, count: nat)
    ensures var r := MessageBatch(db, app, items, dry, count).0;
            && (dry ==> r == db)
            && r.committed == db.committed && r.pending.conversations == db.pending.conversations
            && (DbInv(db) ==> DbInv(r))
    decreases |items|
  {
    if items != [] {
      if !items[0].Arr? {
        MessageBatchFrame(db, app, items[1..], dry, count);
      } else {
        var db' := if dry then db else SaveMessage(db, app, items[0].entries);
        MessageBatchFrame(db', app, items[1..], dry, count + 1);
      }
    }
  }

  lemma ConversationMessagesFrame(w: World, app: App, data: seq<Entry>, dry: bool)
    ensures Frame(w, ConversationMessages(w, app, data, dry).w, dry)
  {
    var id := ExtractString(data, "id", None);
    if id.Some? && app.id.Some? {
      var f := Fetch(w, ListMessages(GetMessagesRequest(id.value, app.id.value, None, MessagesLimit)));
      if f.out.Ok? && Get(f.out.value, "data").Arr? {
        MessageBatchFrame(f.w.db, app, Values(Get(f.out.value, "data").entries), dry, 0);
      }
    }
  }

  /** Processing one conversation commits nothing; outside a dry run it only adds pending rows. */
  lemma ConversationStepFrame(w: World, app: App, data: seq<Entry>, dry: bool)
    ensures Frame(w, ConversationStep(w, app, data, dry).w, dry)
  {
    var saved := if dry then w else w.(db := SaveConversation(w.db, app, data));
    ConversationMessagesFrame(saved, app, data, dry);
  }

  lemma {:induction false} ConversationBatchFrame(w: World, app: App, items: seq<Value>, dry: bool, acc: Counts)
    ensures Frame(w, ConversationBatch(w, app, items, dry, acc).w, dry)
    decreases |items|
  {
    if items != [] {
      if !items[0].Arr? {
        ConversationBatchFrame(w, app, items[1..], dry, acc);
      } else {
        var s := ConversationStep(w, app, items[0].entries, dry);
        ConversationStepFrame(w, app, items[0].entries, dry);
        if s.out.Ok? {
          ConversationBatchFrame(s.w, app, items[1..], dry, acc.Plus(Counts(1, s.out.value)));
        }
      }
    }
  }

  /** Walking the pages never commits: only the flush after the walk does. */
  lemma {:induction false} PaginateFrame(w: World, app: App, limit: int, dry: bool, lastId: Option<string>, acc: Counts)
    requires app.id.Some?
    ensures Frame(w, Paginate(w, app, limit, dry, lastId, acc).w, dry)
    decreases |w.replies|
  {
    var r := Paginate(w, app, limit, dry, lastId, acc);
    var f := Fetch(w, ListConversations(GetConversationsRequest(app.id.value, lastId, limit)));
    assert Frame(w, f.w, dry);
    PaginateFetch(w, app, limit, dry, lastId, acc, f);
    if f.out.Ok? && HasValidConversationsData(f.out.value) {
      var items := Values(Get(f.out.value, "data").entries);
      var b := ConversationBatch(f.w, app, items, dry, Counts(0, 0));
      PaginatePage(w, app, limit, dry, lastId, acc, f, b);
      ConversationBatchFrame(f.w, app, items, dry, Counts(0, 0));
      var next := GetNextPageId(f.out.value);
      if b.out.Ok? && Truthy(next) {
        var acc' := acc.Plus(b.out.value);
        PaginateFrame(b.w, app, limit, dry, next, acc');
        assert r == Paginate(b.w, app, limit, dry, next, acc');
      } else {
        assert r.w == b.w;
      }
    } else {
      assert r.w == f.w;
    }
  }

  /**
   * Syncing an app without an id throws before anything happens; otherwise
   * the client is first pointed at the app. A dry run leaves the store as
   * it was; a live run that completes leaves nothing pending; rows stay
   * filed under their own ids.
   */
  lemma SyncAppEffect(w: World, app: App, limit: int, dry: bool)
    ensures var r := SyncApp(w, app, limit, dry);
            && (app.id.None? ==> r == Step(w, Thrown))
            && (app.id.Some? ==> w.calls + [SetApp(app)] <= r.w.calls)
            && (dry ==> r.w.db == w.db)
            && (!dry && r.out.Ok? ==> r.w.db.pending == EmptyStore)
            && (DbInv(w.db) ==> DbInv(r.w.db))
  {
    if app.id.Some? {
      PaginateFrame(w.(calls := w.calls + [SetApp(app)]), app, limit, dry, None, Counts(0, 0));
    }
  }

  lemma {:induction false} RunAppsEffect(w: World, apps: seq<App>, limit: int, dry: bool, totals: Counts)
    ensures var r := RunApps(w, apps, limit, dry, totals).0;
            (dry ==> r.db == w.db) && (DbInv(w.db) ==> DbInv(r.db))
    decreases |apps|
  {
    if apps != [] {
      var s := SyncApp(w, apps[0], limit, dry);
      SyncAppEffect(w, apps[0], limit, dry);
      RunAppsEffect(s.w, apps[1..], limit, dry, if s.out.Thrown? then totals else totals.Plus(s.out.value));
    }
  }

  /** `--dry-run`: the store is left exactly as it was, whatever the apps and the API return. */
  lemma ExecuteDryRunLeavesStore(w: World, apps: seq<App>, limitOption: Value)
    ensures Execute(w, apps, limitOption, Bool(true)).w.db == w.db
  {
    if apps != [] {
      RunAppsEffect(w, apps, PageLimit(limitOption), true, Counts(0, 0));
    }
  }

  /** Every run keeps each stored conversation and message under its own Dify id and attached to an app. */
  lemma ExecuteKeepsStoreInv(w: World, apps: seq<App>, limitOption: Value, dryRunOption: Value)
    requires DbInv(w.db)
    ensures DbInv(Execute(w, apps, limitOption, dryRunOption).w.db)
  {
    if apps != [] {
      RunAppsEffect(w, apps, PageLimit(limitOption), dryRunOption.Bool? && dryRunOption.b, Counts(0, 0));
    }
  }

  // ---------------------------------------------------------------------
  // What is requested
  // ---------------------------------------------------------------------

  /**
   * A request the page walk of `app` makes: a page of its conversations with
   * the walk's `limit`, or up to 1000 messages, both on behalf of the app.
   */
  predicate WalkCall(c: ApiCall, app: App, limit: int)
  {
    match c
    case SetApp(_) => false
    case ListConversations(r) => app.id == Some(r.user) && r.limit == limit
    case ListMessages(r) => app.id == Some(r.user) && r.limit == MessagesLimit && r.firstId.None?
  }

  /** The calls made between `before` and `after` are all requests of the walk. */
  predicate WalkCalls(before: seq<ApiCall>, after: seq<ApiCall>, app: App, limit: int)
  {
    before <= after && forall i :: |before| <= i < |after| ==> WalkCall(after[i], app, limit)
  }

  lemma WalkCallsJoin(a: seq<ApiCall>, b: seq<ApiCall>, c: seq<ApiCall>, app: App, limit: int)
    requires WalkCalls(a, b, app, limit) && WalkCalls(b, c, app, limit)
    ensures WalkCalls(a, c, app, limit)
  {
    assert forall i :: |a| <= i < |b| ==> c[i] == b[i];
  }

  lemma ConversationMessagesWalkCalls(w: World, app: App, data: seq<Entry>, dry: bool, limit: int)
    ensures WalkCalls(w.calls, ConversationMessages(w, app, data, dry).w.calls, app, limit)
  {
    var id := ExtractString(data, "id", None);
    if id.Some? && app.id.Some? {
      var call := ListMessages(GetMessagesRequest(id.value, app.id.value, None, MessagesLimit));
      assert ConversationMessages(w, app, data, dry).w.calls == Fetch(w, call).w.calls;
    }
  }

  lemma ConversationStepWalkCalls(w: World, app: App, data: seq<Entry>, dry: bool, limit: int)
    ensures WalkCalls(w.calls, ConversationStep(w, app, data, dry).w.calls, app, limit)
  {
    var saved := if dry then w else w.(db := SaveConversation(w.db, app, data));
    ConversationMessagesWalkCalls(saved, app, data, dry, limit);
  }

  lemma {:induction false} ConversationBatchWalkCalls(w: World, app: App, items: seq<Value>, dry: bool, acc: Counts, limit: int)
    ensures WalkCalls(w.calls, ConversationBatch(w, app, items, dry, acc).w.calls, app, limit)
    decreases |items|
  {
    if items != [] {
      if !items[0].Arr? {
        ConversationBatchWalkCalls(w, app, items[1..], dry, acc, limit);
      } else {
        var s := ConversationStep(w, app, items[0].entries, dry);
        ConversationStepWalkCalls(w, app, items[0].entries, dry, limit);
        if s.out.Ok? {
          var acc' := acc.Plus(Counts(1, s.out.value));
          ConversationBatchWalkCalls(s.w, app, items[1..], dry, acc', limit);
          WalkCallsJoin(w.calls, s.w.calls, ConversationBatch(s.w, app, items[1..], dry, acc').w.calls, app, limit);
        }
      }
    }
  }

  /**
   * The page walk first asks for the page at the given cursor, and every
   * request it makes is for the app, each page request with the same limit
   * and each messages request for up to 1000 messages without a cursor.
   */
  lemma {:induction false} PaginateWalkCalls(w: World, app: App, limit: int, dry: bool, lastId: Option<string>, acc: Counts)
    requires app.id.Some?
    ensures var r := Paginate(w, app, limit, dry, lastId, acc);
            && |r.w.calls| > |w.calls|
            && r.w.calls[|w.calls|] == ListConversations(GetConversationsRequest(app.id.value, lastId, limit))
            && WalkCalls(w.calls, r.w.calls, app, limit)
    decreases |w.replies|
  {
    var r := Paginate(w, app, limit, dry, lastId, acc);
    var f := Fetch(w, ListConversations(GetConversationsRequest(app.id.value, lastId, limit)));
    assert f.w.calls == w.calls + [ListConversations(GetConversationsRequest(app.id.value, lastId, limit))];
    assert WalkCalls(w.calls, f.w.calls, app, limit);
    PaginateFetch(w, app, limit, dry, lastId, acc, f);
    if f.out.Ok? && HasValidConversationsData(f.out.value) {
      var items := Values(Get(f.out.value, "data").entries);
      var b := ConversationBatch(f.w, app, items, dry, Counts(0, 0));
      PaginatePage(w, app, limit, dry, lastId, acc, f, b);
      ConversationBatchWalkCalls(f.w, app, items, dry, Counts(0, 0), limit);
      WalkCallsJoin(w.calls, f.w.calls, b.w.calls, app, limit);
      var next := GetNextPageId(f.out.value);
      if b.out.Ok? && Truthy(next) {
        var acc' := acc.Plus(b.out.value);
        PaginateWalkCalls(b.w, app, limit, dry, next, acc');
        assert r == Paginate(b.w, app, limit, dry, next, acc');
        WalkCallsJoin(w.calls, b.w.calls, r.w.calls, app, limit);
      } else {
        assert r.w == b.w;
      }
    } else {
      assert r.w == f.w;
    }
  }

  // ---------------------------------------------------------------------
  // The store never steers the run
  // ---------------------------------------------------------------------

  /** Two worlds that differ at most in their store. */
  predicate SameApi(a: World, b: World)
  {
    a.replies == b.replies && a.calls == b.calls
  }

  lemma ConversationMessagesAgree(w1: World, w2: World, app: App, data: seq<Entry>, dry1: bool, dry2: bool)
    requires SameApi(w1, w2)
    ensures var r1, r2 := ConversationMessages(w1, app, data, dry1), ConversationMessages(w2, app, data, dry2);
            SameApi(r1.w, r2.w) && r1.out == r2.out
  {
    var id := ExtractString(data, "id", None);
    if id.Some? && app.id.Some? {
      var call := ListMessages(GetMessagesRequest(id.value, app.id.value, None, MessagesLimit));
      var f1, f2 := Fetch(w1, call), Fetch(w2, call);
      assert SameApi(f1.w, f2.w) && f1.out == f2.out;
      if f1.out.Ok? && Get(f1.out.value, "data").Arr? {
        var items := Values(Get(f1.out.value, "data").entries);
        MessageBatchCount(f1.w.db, app, items, dry1, 0);
        MessageBatchCount(f2.w.db, app, items, dry2, 0);
        assert MessageBatch(f1.w.db, app, items, dry1, 0).1 == MessageBatch(f2.w.db, app, items, dry2, 0).1;
      }
    }
  }

  lemma {:induction false} ConversationBatchAgree(w1: World, w2: World, app: App, items: seq<Value>,
                                                  dry1: bool, dry2: bool, acc: Counts)
    requires SameApi(w1, w2)
    ensures var r1, r2 := ConversationBatch(w1, app, items, dry1, acc), ConversationBatch(w2, app, items, dry2, acc);
            SameApi(r1.w, r2.w) && r1.out == r2.out
    decreases |items|
  {
    if items != [] {
      if !items[0].Arr? {
        ConversationBatchAgree(w1, w2, app, items[1..], dry1, dry2, acc);
      } else {
        var data := items[0].entries;
        var saved1 := if dry1 then w1 else w1.(db := SaveConversation(w1.db, app, data));
        var saved2 := if dry2 then w2 else w2.(db := SaveConversation(w2.db, app, data));
        ConversationMessagesAgree(saved1, saved2, app, data, dry1, dry2);
        var s1, s2 := ConversationStep(w1, app, data, dry1), ConversationStep(w2, app, data, dry2);
        if s1.out.Ok? {
          ConversationBatchAgree(s1.w, s2.w, app, items[1..], dry1, dry2, acc.Plus(Counts(1, s1.out.value)));
        }
      }
    }
  }

  lemma {:induction false} PaginateAgree(w1: World, w2: World, app: App, limit: int, dry1: bool, dry2: bool,
                                         lastId: Option<string>, acc: Counts)
    requires app.id.Some? && SameApi(w1, w2)
    ensures var r1, r2 := Paginate(w1, app, limit, dry1, lastId, acc), Paginate(w2, app, limit, dry2, lastId, acc);
            SameApi(r1.w, r2.w) && r1.out == r2.out
    decreases |w1.replies|
  {
    var call := ListConversations(GetConversationsRequest(app.id.value, lastId, limit));
    var f1, f2 := Fetch(w1, call), Fetch(w2, call);
    if f1.out.Ok? && HasValidConversationsData(f1.out.value) {
      var body := f1.out.value;
      var items := Values(Get(body, "data").entries);
      ConversationBatchAgree(f1.w, f2.w, app, items, dry1, dry2, Counts(0, 0));
      var b1, b2 := ConversationBatch(f1.w, app, items, dry1, Counts(0, 0)), ConversationBatch(f2.w, app, items, dry2, Counts(0, 0));
      var next := GetNextPageId(body);
      if b1.out.Ok? && Truthy(next) {
        PaginateAgree(b1.w, b2.w, app, limit, dry1, dry2, next, acc.Plus(b1.out.value));
      }
    }
  }

  lemma {:induction false} RunAppsAgree(w1: World, w2: World, apps: seq<App>, limit: int, dry1: bool, dry2: bool,
                                        totals: Counts)
    requires SameApi(w1, w2)
    ensures var r1, r2 := RunApps(w1, apps, limit, dry1, totals), RunApps(w2, apps, limit, dry2, totals);
            SameApi(r1.0, r2.0) && r1.1 == r2.1
    decreases |apps|
  {
    if apps != [] {
      var app := apps[0];
      if app.id.Some? {
        PaginateAgree(w1.(calls := w1.calls + [SetApp(app)]), w2.(calls := w2.calls + [SetApp(app)]),
                      app, limit, dry1, dry2, None, Counts(0, 0));
      }
      var s1, s2 := SyncApp(w1, app, limit, dry1), SyncApp(w2, app, limit, dry2);
      RunAppsAgree(s1.w, s2.w, apps[1..], limit, dry1, dry2, if s1.out.Thrown? then totals else totals.Plus(s1.out.value));
    }
  }

  /**
   * A dry run makes exactly the requests a live run would make, in the same
   * order, consumes the same replies and reports the same totals and status:
   * the store never changes what is fetched or counted.
   */
  lemma DryRunMatchesLiveRun(w: World, apps: seq<App>, limitOption: Value)
    ensures var dry, live := Execute(w, apps, limitOption, Bool(true)), Execute(w, apps, limitOption, Bool(false));
            && dry.w.calls == live.w.calls && dry.w.replies == live.w.replies
            && dry.status == live.status && dry.totals == live.totals
  {
    if apps != [] {
      RunAppsAgree(w, w, apps, PageLimit(limitOption), true, false, Counts(0, 0));
    }
  }
}
