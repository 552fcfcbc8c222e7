/**
 * `SyncConversationsCommand` as a class that changes its state step by step,
 * method by method as the PHP command does. Its state is the store, the
 * remaining scripted replies and the log of API calls; every method is
 * proved to leave the state (and return the value) that the corresponding
 * function of `SyncSpec` describes, so the properties proved there hold of
 * the loops here.
 *
 * An exception is an `Outcome.Thrown` result that each caller passes up
 * at once, as PHP unwinds, until `Execute` catches it per app.
 */
module SyncCommand {
  import opened Wrappers
  import opened Php
  import opened Requests
  import opened Entities
  import opened SyncSpec

  class SyncConversationsCommand {
    var db: Db
    var replies: seq<Reply>
    var calls: seq<ApiCall>

    function W(): World
      reads this
    {
      World(db, replies, calls)
    }

    constructor (db: Db, replies: seq<Reply>)
      ensures W() == World(db, replies, [])
    {
      this.db := db;
      this.replies := replies;
      this.calls := [];
    }

    /** `difyApiClient->request($request)->toArray()`: the next scripted reply, or an exception. */
    method Request(call: ApiCall) returns (out: Outcome<seq<Entry>>)
      modifies this
      ensures Step(W(), out) == Fetch(old(W()), call)
    {
      calls := calls + [call];
      if replies == [] {
        return Thrown;
      }
      var reply := replies[0];
      replies := replies[1..];
      if reply.Broken? {
        return Thrown;
      }
      return Ok(reply.body);
    }

    method FetchConversations(user: string, lastId: Option<string>, limit: int) returns (out: Outcome<seq<Entry>>)
      modifies this
      ensures Step(W(), out) == Fetch(old(W()), ListConversations(GetConversationsRequest(user, lastId, limit)))
    {
      out := Request(ListConversations(GetConversationsRequest(user, lastId, limit)));
    }

    method FetchMessages(conversationId: string, user: string) returns (out: Outcome<seq<Entry>>)
      modifies this
      ensures Step(W(), out)
              == Fetch(old(W()), ListMessages(GetMessagesRequest(conversationId, user, None, MessagesLimit)))
    {
      out := Request(ListMessages(GetMessagesRequest(conversationId, user, None, MessagesLimit)));
    }

    /** `validateApp`: an app without an id is refused (the PHP method throws). */
    method ValidateApp(app: App) returns (ok: bool)
      ensures ok <==> app.id.Some?
    {
      ok := app.id.Some?;
    }

    // -------------------------------------------------------------------
    // Conversation upsert
    // -------------------------------------------------------------------

    method FindOrCreateConversation(app: App, id: string) returns (c: Conversation)
      ensures fresh(c)
      ensures c.Row() == SyncSpec.FindOrCreateConversation(db, app, id)
    {
      var found := FindConversation(db, id);
      if found.Some? {
        c := new Conversation.Load(found.value);
      } else {
        c := new Conversation();
        c.SetDifyConversationId(id);
        c.SetDifyApp(Some(app));
        c.SetUser(OrElse(app.id, ""));
      }
    }

    method MapConversationData(app: App, c: Conversation, data: seq<Entry>)
      modifies c
      ensures c.Row() == MapConversation(old(c.Row()), data)
    {
      c.SetName(OrElse(ExtractString(data, "name", Some("")), ""));
      c.SetStatus(OrElse(ExtractString(data, "status", Some("")), ""));
      c.SetIntroduction(ExtractString(data, "introduction", None));
      c.SetInputs(ArrayOrNull(Get(data, "inputs")));
      c.SetDifyCreatedAt(ExtractInt(data, "created_at", 0));
      c.SetDifyUpdatedAt(ExtractInt(data, "updated_at", 0));
      var user := ExtractString(data, "user", None);
      if user.Some? {
        c.SetUser(user.value);
      }
    }

    method SaveConversation(app: App, data: seq<Entry>)
      modifies this
      ensures W() == old(W()).(db := SyncSpec.SaveConversation(old(db), app, data))
    {
      var id := ExtractString(data, "id", None);
      if id.None? {
        return;
      }
      var c := FindOrCreateConversation(app, id.value);
      MapConversationData(app, c, data);
      db := PersistConversation(db, id.value, c.Row());
    }

    // -------------------------------------------------------------------
    // Message upsert
    // -------------------------------------------------------------------

    method FindOrCreateMessage(app: App, id: string) returns (m: ConversationMessage)
      ensures fresh(m)
      ensures m.Row() == SyncSpec.FindOrCreateMessage(db, app, id)
    {
      var found := FindMessage(db, id);
      if found.Some? {
        m := new ConversationMessage.Load(found.value);
      } else {
        m := new ConversationMessage();
        m.SetDifyMessageId(id);
        m.SetDifyApp(Some(app));
      }
    }

    method SetMessageArrayFields(m: ConversationMessage, data: seq<Entry>)
      modifies m
      ensures m.Row() == old(m.Row()).(inputs := ArrayOrNull(Get(data, "inputs")),
                                       messageFiles := ArrayOrNull(Get(data, "message_files")),
                                       retrieverResources := ArrayOrNull(Get(data, "retriever_resources")))
    {
      m.SetInputs(ArrayOrNull(Get(data, "inputs")));
      m.SetMessageFiles(ArrayOrNull(Get(data, "message_files")));
      m.SetRetrieverResources(ArrayOrNull(Get(data, "retriever_resources")));
    }

    method SetMessageFeedback(m: ConversationMessage, data: seq<Entry>)
      modifies m
      ensures m.Row() == old(m.Row()).(feedbackRating := FeedbackRating(data))
    {
      var feedback := FeedbackOrEmpty(data);
      if !feedback.Arr? || Get(feedback.entries, "rating") == Null {
        m.SetFeedbackRating(None);
        return;
      }
      var rating := Get(feedback.entries, "rating");
      m.SetFeedbackRating(if rating.Str? then Some(rating.s) else None);
    }

    method MapMessageData(m: ConversationMessage, data: seq<Entry>)
      modifies m
      ensures m.Row() == MapMessage(old(m.Row()), data)
    {
      m.SetDifyConversationId(OrElse(ExtractString(data, "conversation_id", Some("")), ""));
      m.SetQuery(OrElse(ExtractString(data, "query", Some("")), ""));
      m.SetAnswer(OrElse(ExtractString(data, "answer", Some("")), ""));
      m.SetUser(OrElse(ExtractString(data, "user", Some("")), ""));
      m.SetDifyCreatedAt(ExtractInt(data, "created_at", 0));
      SetMessageArrayFields(m, data);
      SetMessageFeedback(m, data);
    }

    method SaveMessage(app: App, data: seq<Entry>)
      modifies this
      ensures W() == old(W()).(db := SyncSpec.SaveMessage(old(db), app, data))
    {
      var id := ExtractString(data, "id", None);
      if id.None? {
        return;
      }
      var m := FindOrCreateMessage(app, id.value);
      MapMessageData(m, data);
      db := PersistMessage(db, id.value, m.Row());
    }

    // -------------------------------------------------------------------
    // Processing
    // -------------------------------------------------------------------

    /** `processMessage`: a dry run only displays the message, otherwise it is saved. */
    method ProcessMessage(app: App, data: seq<Entry>, dry: bool)
      modifies this
      ensures W() == old(W()).(db := if dry then old(db) else SyncSpec.SaveMessage(old(db), app, data))
    {
      if !dry {
        SaveMessage(app, data);
      }
    }

    method ProcessMessageBatch(app: App, items: seq<Value>, dry: bool) returns (count: nat)
      modifies this
      ensures (db, count) == MessageBatch(old(db), app, items, dry, 0)
      ensures replies == old(replies) && calls == old(calls)
    {
      count := 0;
      var i := 0;
      while i < |items|
        invariant 0 <= i <= |items|
        invariant replies == old(replies) && calls == old(calls)
        invariant MessageBatch(old(db), app, items, dry, 0) == MessageBatch(db, app, items[i..], dry, count)
      {
        assert items[i..][1..] == items[i + 1..];
        if items[i].Arr? {
          ProcessMessage(app, items[i].entries, dry);
          count := count + 1;
        }
        i := i + 1;
      }
    }

    method ProcessConversationMessages(app: App, data: seq<Entry>, dry: bool) returns (out: Outcome<nat>)
      modifies this
      ensures Step(W(), out) == ConversationMessages(old(W()), app, data, dry)
    {
      var conversationId := ExtractString(data, "id", None);
      if conversationId.None? {
        return Ok(0);
      }
      var appUserId := app.id;
      if appUserId.None? {
        return Ok(0);
      }
      var fetched := FetchMessages(conversationId.value, appUserId.value);
      if fetched.Thrown? {
        return Thrown;
      }
      var messages := Get(fetched.value, "data");
      if !messages.Arr? {
        return Ok(0);
      }
      var n := ProcessMessageBatch(app, Values(messages.entries), dry);
      return Ok(n);
    }

    /** `processConversation`: a dry run only displays the conversation, otherwise it is saved. */
    method ProcessConversation(app: App, data: seq<Entry>, dry: bool)
      modifies this
      ensures W() == old(W()).(db := if dry then old(db) else SyncSpec.SaveConversation(old(db), app, data))
    {
      if !dry {
        SaveConversation(app, data);
      }
    }

    method ProcessConversationBatch(app: App, items: seq<Value>, dry: bool) returns (out: Outcome<Counts>)
      modifies this
      ensures Step(W(), out) == ConversationBatch(old(W()), app, items, dry, Counts(0, 0))
    {
      var conversationCount: nat, messageCount: nat := 0, 0;
      var i := 0;
      ghost var target := ConversationBatch(W(), app, items, dry, Counts(0, 0));
      while i < |items|
        invariant 0 <= i <= |items|
        invariant target == ConversationBatch(W(), app, items[i..], dry, Counts(conversationCount, messageCount))
      {
        ghost var w0, acc := W(), Counts(conversationCount, messageCount);
        assert items[i..][0] == items[i] && items[i..][1..] == items[i + 1..];
        if items[i].Arr? {
          ProcessConversation(app, items[i].entries, dry);
          conversationCount := conversationCount + 1;
          var messages := ProcessConversationMessages(app, items[i].entries, dry);
          ghost var s := Step(W(), messages);
          assert s == ConversationStep(w0, app, items[i].entries, dry);
          if messages.Thrown? {
            assert target == Step(W(), Thrown) by { ConversationBatchUnfold(w0, app, items[i..], dry, acc, s); }
            return Thrown;
          }
          messageCount := messageCount + messages.value;
          assert Counts(conversationCount, messageCount) == acc.Plus(Counts(1, messages.value));
          assert target == ConversationBatch(W(), app, items[i + 1..], dry, Counts(conversationCount, messageCount)) by {
            ConversationBatchUnfold(w0, app, items[i..], dry, acc, s);
          }
        }
        i := i + 1;
      }
      return Ok(Counts(conversationCount, messageCount));
    }

    method ProcessPaginatedConversations(app: App, limit: int, dry: bool) returns (out: Outcome<Counts>)
      requires app.id.Some?
      modifies this
      ensures Step(W(), out) == Paginate(old(W()), app, limit, dry, None, Counts(0, 0))
    {
      var conversationCount: nat, messageCount: nat := 0, 0;
      var lastId: Option<string> := None;
      ghost var target := Paginate(W(), app, limit, dry, None, Counts(0, 0));
      while true
        invariant target == Paginate(W(), app, limit, dry, lastId, Counts(conversationCount, messageCount))
        decreases |replies|
      {
        ghost var w0, cursor, acc := W(), lastId, Counts(conversationCount, messageCount);
        var userId := app.id.value;
        var conversationsData := FetchConversations(userId, lastId, limit);
        ghost var f := Step(W(), conversationsData);
        if conversationsData.Thrown? {
          assert target == Step(W(), Thrown) by { PaginateFetch(w0, app, limit, dry, cursor, acc, f); }
          return Thrown;
        }
        var body := conversationsData.value;
        if !HasValidConversationsData(body) {
          assert target == Step(W(), Ok(acc)) by { PaginateFetch(w0, app, limit, dry, cursor, acc, f); }
          return Ok(Counts(conversationCount, messageCount));
        }
        var batch := ProcessConversationBatch(app, Values(Get(body, "data").entries), dry);
        ghost var b := Step(W(), batch);
        if batch.Thrown? {
          assert target == Step(W(), Thrown) by { PaginatePage(w0, app, limit, dry, cursor, acc, f, b); }
          return Thrown;
        }
        conversationCount := conversationCount + batch.value.conversations;
        messageCount := messageCount + batch.value.messages;
        assert Counts(conversationCount, messageCount) == acc.Plus(batch.value);
        lastId := GetNextPageId(body);
        if !Truthy(lastId) {
          assert target == Step(W(), Ok(acc.Plus(batch.value))) by { PaginatePage(w0, app, limit, dry, cursor, acc, f, b); }
          return Ok(Counts(conversationCount, messageCount));
        }
        assert target == Paginate(W(), app, limit, dry, lastId, acc.Plus(batch.value)) by {
          PaginatePage(w0, app, limit, dry, cursor, acc, f, b);
        }
      }
    }

    method SyncAppConversations(app: App, limit: int, dry: bool) returns (out: Outcome<Counts>)
      modifies this
      ensures Step(W(), out) == SyncApp(old(W()), app, limit, dry)
    {
      var valid := ValidateApp(app);
      if !valid {
        return Thrown;
      }
      calls := calls + [SetApp(app)];
      out := ProcessPaginatedConversations(app, limit, dry);
      if out.Ok? && !dry {
        db := Flush(db);
      }
    }

    /**
     * `execute`, given the apps the registry resolved and the raw `--limit`
     * and `--dry-run` option values; returns the exit status and the totals
     * reported at the end.
     */
    method Execute(apps: seq<App>, limitOption: Value, dryRunOption: Value) returns (status: int, totals: Counts)
      modifies this
      ensures Execution(W(), status, totals) == SyncSpec.Execute(old(W()), apps, limitOption, dryRunOption)
    {
      var limit := PageLimit(limitOption);
      var dry := dryRunOption.Bool? && dryRunOption.b;
      if apps == [] {
        return FAILURE, Counts(0, 0);
      }
      totals := Counts(0, 0);
      var i := 0;
      while i < |apps|
        invariant 0 <= i <= |apps|
        invariant RunApps(old(W()), apps, limit, dry, Counts(0, 0)) == RunApps(W(), apps[i..], limit, dry, totals)
      {
        assert apps[i..][1..] == apps[i + 1..];
        var result := SyncAppConversations(apps[i], limit, dry);
        if result.Ok? {
          totals := totals.Plus(result.value);
        }
        i := i + 1;
      }
      return SUCCESS, totals;
    }
  }
}
