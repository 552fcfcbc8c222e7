/**
 * The request objects sent to the Dify API. Each is an immutable value built
 * from its constructor arguments (the getters are the datatype's fields); it
 * names a path, an HTTP method and an options array holding the JSON
 * content-type header and the parameters, under `query` for a GET and under
 * `json` for a request with a body.
 *
 * A PHP array keeps its keys in insertion order, so each parameter array is
 * described by the list of its keys: the fixed keys first, then each optional
 * key that was added. Next to each request stands a decoder that reads the
 * constructor arguments back out of what is sent; the round-trip lemmas show
 * that the path, method and options lose nothing.
 */
module Requests {
  import opened Wrappers
  import opened Php

  /** The headers of every request: exactly `Content-Type: application/json`. */
  const JsonHeaders: Value := Arr([Field("Content-Type", Str("application/json"))])

  /** The options array `['headers' => ..., place => params]`. */
  function Envelope(place: string, params: seq<Entry>): Value
  {
    Arr([Field("headers", JsonHeaders), Field(place, Arr(params))])
  }

  /** The keys of an array, in order. */
  function Keys(a: seq<Entry>): (ks: seq<Key>)
    ensures |ks| == |a|
    ensures forall i :: 0 <= i < |a| ==> ks[i] == a[i].key
  {
    if a == [] then [] else [a[0].key] + Keys(a[1..])
  }

  /** String keys, written the way the source writes them. */
  function Names(names: seq<string>): (ks: seq<Key>)
    ensures |ks| == |names|
    ensures forall i :: 0 <= i < |names| ==> ks[i] == StrKey(names[i])
  {
    if names == [] then [] else [StrKey(names[0])] + Names(names[1..])
  }

  /** The parameters of an options array, when it has the shape `Envelope` builds. */
  function Params(options: Value, place: string): (r: Option<seq<Entry>>)
    ensures r.Some? ==> options == Envelope(place, r.value)
    ensures options == Envelope(place, []) ==> r == Some([])
  {
    if options.Arr? && |options.entries| == 2
       && options.entries[0] == Field("headers", JsonHeaders)
       && options.entries[1].key == StrKey(place) && options.entries[1].value.Arr?
    then Some(options.entries[1].value.entries)
    else None
  }

  lemma ParamsOfEnvelope(place: string, params: seq<Entry>)
    ensures Params(Envelope(place, params), place) == Some(params)
  {
  }

  // Positional readers for the decoders.

  function StrAt(a: seq<Entry>, i: nat, name: string): Option<string>
  {
    if i < |a| && a[i].key == StrKey(name) && a[i].value.Str? then Some(a[i].value.s) else None
  }

  function IntAt(a: seq<Entry>, i: nat, name: string): Option<int>
  {
    if i < |a| && a[i].key == StrKey(name) && a[i].value.Int? then Some(a[i].value.i) else None
  }

  function BoolAt(a: seq<Entry>, i: nat, name: string): Option<bool>
  {
    if i < |a| && a[i].key == StrKey(name) && a[i].value.Bool? then Some(a[i].value.b) else None
  }

  function ArrAt(a: seq<Entry>, i: nat, name: string): Option<seq<Entry>>
  {
    if i < |a| && a[i].key == StrKey(name) && a[i].value.Arr? then Some(a[i].value.entries) else None
  }

  /** An optional string parameter at the end of a parameter array: absent, or one pair. */
  function OptionalStrTail(rest: seq<Entry>, name: string): Option<Option<string>>
  {
    if rest == [] then Some(None)
    else if |rest| == 1 && StrAt(rest, 0, name).Some? then Some(StrAt(rest, 0, name))
    else None
  }

  /** The part of `path` between a fixed prefix and a fixed suffix. */
  function Between(path: string, prefix: string, suffix: string): (r: Option<string>)
    ensures r.Some? ==> path == prefix + r.value + suffix
  {
    if |prefix| + |suffix| <= |path| && path[..|prefix|] == prefix && path[|path| - |suffix|..] == suffix
    then
      var mid := path[|prefix|..|path| - |suffix|];
      assert path == path[..|prefix|] + mid + path[|path| - |suffix|..];
      Some(mid)
    else None
  }

  lemma BetweenConcat(prefix: string, id: string, suffix: string)
    ensures Between(prefix + id + suffix, prefix, suffix) == Some(id)
  {
    var p := prefix + id + suffix;
    assert p[..|prefix|] == prefix;
    assert p[|p| - |suffix|..] == suffix;
    assert p[|prefix|..|p| - |suffix|] == id;
  }

  // ---------------------------------------------------------------------
  // GET /conversations
  // ---------------------------------------------------------------------

  datatype GetConversationsRequest = GetConversationsRequest(
    user: string,
    lastId: Option<string> := None,
    limit: int := 20,
    sortBy: string := "-updated_at")
  {
    function RequestPath(): string
    {
      "/conversations"
    }

    function RequestMethod(): string
    {
      "GET"
    }

    /** The query: `user`, `limit` and `sort_by` always, then `last_id` only when a cursor is given. */
    function Query(): (q: seq<Entry>)
      ensures Keys(q) == Names(["user", "limit", "sort_by"] + (if lastId.Some? then ["last_id"] else []))
    {
      var q := [Field("user", Str(user)), Field("limit", Int(limit)), Field("sort_by", Str(sortBy))];
      if lastId.Some? then q + [Field("last_id", Str(lastId.value))] else q
    }

    function RequestOptions(): Value
    {
      Envelope("query", Query())
    }
  }

  function DecodeGetConversations(path: string, verb: string, options: Value): Option<GetConversationsRequest>
  {
    var q := Params(options, "query");
    if path != "/conversations" || verb != "GET" || q.None? || |q.value| < 3 then None
    else
      match (StrAt(q.value, 0, "user"), IntAt(q.value, 1, "limit"), StrAt(q.value, 2, "sort_by"),
             OptionalStrTail(q.value[3..], "last_id"))
      case (Some(u), Some(l), Some(s), Some(last)) => Some(GetConversationsRequest(u, last, l, s))
      case _ => None
  }

  lemma GetConversationsRoundTrip(r: GetConversationsRequest)
    ensures DecodeGetConversations(r.RequestPath(), r.RequestMethod(), r.RequestOptions()) == Some(r)
  {
    ParamsOfEnvelope("query", r.Query());
  }

  /** The defaults of the constructor: no cursor, 20 per page, newest update first. */
  lemma GetConversationsDefaults(user: string)
    ensures GetConversationsRequest(user) == GetConversationsRequest(user, None, 20, "-updated_at")
    ensures Keys(GetConversationsRequest(user).Query()) == Names(["user", "limit", "sort_by"])
  {
  }

  // ---------------------------------------------------------------------
  // GET /messages
  // ---------------------------------------------------------------------

  datatype GetMessagesRequest = GetMessagesRequest(
    conversationId: string,
    user: string,
    firstId: Option<string> := None,
    limit: int := 20)
  {
    function RequestPath(): string
    {
      "/messages"
    }

    function RequestMethod(): string
    {
      "GET"
    }

    /** The query: `conversation_id`, `user` and `limit` always, then `first_id` only when given. */
    function Query(): (q: seq<Entry>)
      ensures Keys(q) == Names(["conversation_id", "user", "limit"] + (if firstId.Some? then ["first_id"] else []))
    {
      var q := [Field("conversation_id", Str(conversationId)), Field("user", Str(user)), Field("limit", Int(limit))];
      if firstId.Some? then q + [Field("first_id", Str(firstId.value))] else q
    }

    function RequestOptions(): Value
    {
      Envelope("query", Query())
    }
  }

  function DecodeGetMessages(path: string, verb: string, options: Value): Option<GetMessagesRequest>
  {
    var q := Params(options, "query");
    if path != "/messages" || verb != "GET" || q.None? || |q.value| < 3 then None
    else
      match (StrAt(q.value, 0, "conversation_id"), StrAt(q.value, 1, "user"), IntAt(q.value, 2, "limit"),
             OptionalStrTail(q.value[3..], "first_id"))
      case (Some(c), Some(u), Some(l), Some(first)) => Some(GetMessagesRequest(c, u, first, l))
      case _ => None
  }

  lemma GetMessagesRoundTrip(r: GetMessagesRequest)
    ensures DecodeGetMessages(r.RequestPath(), r.RequestMethod(), r.RequestOptions()) == Some(r)
  {
    ParamsOfEnvelope("query", r.Query());
  }

  /** The defaults of the constructor: no `first_id`, 20 messages. */
  lemma GetMessagesDefaults(conversationId: string, user: string)
    ensures GetMessagesRequest(conversationId, user) == GetMessagesRequest(conversationId, user, None, 20)
    ensures Keys(GetMessagesRequest(conversationId, user).Query()) == Names(["conversation_id", "user", "limit"])
  {
  }

  // ---------------------------------------------------------------------
  // GET /conversations/{id}/variables
  // ---------------------------------------------------------------------

  datatype GetConversationVariablesRequest = GetConversationVariablesRequest(
    conversationId: string,
    user: string,
    lastId: Option<string> := None,
    limit: int := 20,
    variableName: Option<string> := None)
  {
    function RequestPath(): (p: string)
      ensures Between(p, "/conversations/", "/variables") == Some(conversationId)
    {
      BetweenConcat("/conversations/", conversationId, "/variables");
      "/conversations/" + conversationId + "/variables"
    }

    function RequestMethod(): string
    {
      "GET"
    }

    /** The query: `user` and `limit` always; `last_id` and `variable_name` each only when given. */
    function Query(): (q: seq<Entry>)
      ensures Keys(q) == Names(["user", "limit"]
                               + (if lastId.Some? then ["last_id"] else [])
                               + (if variableName.Some? then ["variable_name"] else []))
    {
      var q := [Field("user", Str(user)), Field("limit", Int(limit))];
      var q1 := if lastId.Some? then q + [Field("last_id", Str(lastId.value))] else q;
      if variableName.Some? then q1 + [Field("variable_name", Str(variableName.value))] else q1
    }

    function RequestOptions(): Value
    {
      Envelope("query", Query())
    }
  }

  /** The optional `last_id` and `variable_name`, each present or not, in that order. */
  function VariablesTail(rest: seq<Entry>): Option<(Option<string>, Option<string>)>
  {
    if rest == [] then Some((None, None))
    else if StrAt(rest, 0, "last_id").Some? then
      match OptionalStrTail(rest[1..], "variable_name")
      case Some(name) => Some((StrAt(rest, 0, "last_id"), name))
      case None => None
    else if |rest| == 1 && StrAt(rest, 0, "variable_name").Some? then Some((None, StrAt(rest, 0, "variable_name")))
    else None
  }

  function DecodeGetConversationVariables(path: string, verb: string, options: Value)
    : Option<GetConversationVariablesRequest>
  {
    var c, q := Between(path, "/conversations/", "/variables"), Params(options, "query");
    if verb != "GET" || c.None? || q.None? || |q.value| < 2 then None
    else
      match (StrAt(q.value, 0, "user"), IntAt(q.value, 1, "limit"), VariablesTail(q.value[2..]))
      case (Some(u), Some(l), Some((last, name))) => Some(GetConversationVariablesRequest(c.value, u, last, l, name))
      case _ => None
  }

  lemma GetConversationVariablesRoundTrip(r: GetConversationVariablesRequest)
    ensures DecodeGetConversationVariables(r.RequestPath(), r.RequestMethod(), r.RequestOptions()) == Some(r)
  {
    ParamsOfEnvelope("query", r.Query());
  }

  // ---------------------------------------------------------------------
  // POST /chat-messages
  // ---------------------------------------------------------------------

  datatype ChatMessageRequest = ChatMessageRequest(
    query: string,
    user: string,
    responseMode: string := "streaming",
    inputs: seq<Entry> := [],
    conversationId: Option<string> := None,
    files: seq<Entry> := [],
    autoGenerateName: bool := true)
  {
    function RequestPath(): string
    {
      "/chat-messages"
    }

    function RequestMethod(): string
    {
      "POST"
    }

    /**
     * The body: `query`, `user`, `response_mode`, `inputs` and
     * `auto_generate_name` always; then `conversation_id` only when given
     * and `files` only when there are files.
     */
    function Body(): (b: seq<Entry>)
      ensures Keys(b) == Names(["query", "user", "response_mode", "inputs", "auto_generate_name"]
                               + (if conversationId.Some? then ["conversation_id"] else [])
                               + (if files != [] then ["files"] else []))
    {
      var b := [Field("query", Str(query)), Field("user", Str(user)), Field("response_mode", Str(responseMode)),
                Field("inputs", Arr(inputs)), Field("auto_generate_name", Bool(autoGenerateName))];
      var b1 := if conversationId.Some? then b + [Field("conversation_id", Str(conversationId.value))] else b;
      if files != [] then b1 + [Field("files", Arr(files))] else b1
    }

    function RequestOptions(): Value
    {
      Envelope("json", Body())
    }
  }

  /** The optional `conversation_id` and the `files` (absent meaning none), in that order. */
  function ChatTail(rest: seq<Entry>): Option<(Option<string>, seq<Entry>)>
  {
    if rest == [] then Some((None, []))
    else if StrAt(rest, 0, "conversation_id").Some? then
      if |rest| == 1 then Some((StrAt(rest, 0, "conversation_id"), []))
      else if |rest| == 2 && ArrAt(rest, 1, "files").Some? then Some((StrAt(rest, 0, "conversation_id"), ArrAt(rest, 1, "files").value))
      else None
    else if |rest| == 1 && ArrAt(rest, 0, "files").Some? then Some((None, ArrAt(rest, 0, "files").value))
    else None
  }

  function DecodeChatMessage(path: string, verb: string, options: Value): Option<ChatMessageRequest>
  {
    var b := Params(options, "json");
    if path != "/chat-messages" || verb != "POST" || b.None? || |b.value| < 5 then None
    else
      match (StrAt(b.value, 0, "query"), StrAt(b.value, 1, "user"), StrAt(b.value, 2, "response_mode"),
             ArrAt(b.value, 3, "inputs"), BoolAt(b.value, 4, "auto_generate_name"), ChatTail(b.value[5..]))
      case (Some(q), Some(u), Some(m), Some(i), Some(g), Some((c, f))) => Some(ChatMessageRequest(q, u, m, i, c, f, g))
      case _ => None
  }

  lemma ChatMessageRoundTrip(r: ChatMessageRequest)
    ensures DecodeChatMessage(r.RequestPath(), r.RequestMethod(), r.RequestOptions()) == Some(r)
  {
    var b := r.Body();
    ParamsOfEnvelope("json", b);
    assert ChatTail(b[5..]) == Some((r.conversationId, r.files));
  }

  /** The defaults: a streaming request without inputs or files that lets the server name the conversation. */
  lemma ChatMessageDefaults(query: string, user: string)
    ensures ChatMessageRequest(query, user) == ChatMessageRequest(query, user, "streaming", [], None, [], true)
    ensures Keys(ChatMessageRequest(query, user).Body())
            == Names(["query", "user", "response_mode", "inputs", "auto_generate_name"])
  {
  }

  // ---------------------------------------------------------------------
  // POST /conversations/{id}/name
  // ---------------------------------------------------------------------

  datatype RenameConversationRequest = RenameConversationRequest(
    conversationId: string,
    user: string,
    name: Option<string> := None,
    autoGenerate: bool := false)
  {
    function RequestPath(): (p: string)
      ensures Between(p, "/conversations/", "/name") == Some(conversationId)
    {
      BetweenConcat("/conversations/", conversationId, "/name");
      "/conversations/" + conversationId + "/name"
    }

    function RequestMethod(): string
    {
      "POST"
    }

    /** The body: `user` and `auto_generate` always, then `name` only when given. */
    function Body(): (b: seq<Entry>)
      ensures Keys(b) == Names(["user", "auto_generate"] + (if name.Some? then ["name"] else []))
    {
      var b := [Field("user", Str(user)), Field("auto_generate", Bool(autoGenerate))];
      if name.Some? then b + [Field("name", Str(name.value))] else b
    }

    function RequestOptions(): Value
    {
      Envelope("json", Body())
    }
  }

  function DecodeRenameConversation(path: string, verb: string, options: Value): Option<RenameConversationRequest>
  {
    var c, b := Between(path, "/conversations/", "/name"), Params(options, "json");
    if verb != "POST" || c.None? || b.None? || |b.value| < 2 then None
    else
      match (StrAt(b.value, 0, "user"), BoolAt(b.value, 1, "auto_generate"), OptionalStrTail(b.value[2..], "name"))
      case (Some(u), Some(g), Some(n)) => Some(RenameConversationRequest(c.value, u, n, g))
      case _ => None
  }

  lemma RenameConversationRoundTrip(r: RenameConversationRequest)
    ensures DecodeRenameConversation(r.RequestPath(), r.RequestMethod(), r.RequestOptions()) == Some(r)
  {
    ParamsOfEnvelope("json", r.Body());
  }

  /** The defaults: no new name, and no automatic naming. */
  lemma RenameConversationDefaults(conversationId: string, user: string)
    ensures RenameConversationRequest(conversationId, user) == RenameConversationRequest(conversationId, user, None, false)
    ensures Keys(RenameConversationRequest(conversationId, user).Body()) == Names(["user", "auto_generate"])
  {
  }

  // ---------------------------------------------------------------------
  // DELETE /conversations/{id}
  // ---------------------------------------------------------------------

  datatype DeleteConversationRequest = DeleteConversationRequest(conversationId: string, user: string)
  {
    function RequestPath(): (p: string)
      ensures Between(p, "/conversations/", "") == Some(conversationId)
    {
      BetweenConcat("/conversations/", conversationId, "");
      assert "/conversations/" + conversationId + "" == "/conversations/" + conversationId;
      "/conversations/" + conversationId
    }

    function RequestMethod(): string
    {
      "DELETE"
    }

    /** The body holds the one key `user`. */
    function Body(): (b: seq<Entry>)
      ensures Keys(b) == Names(["user"])
    {
      [Field("user", Str(user))]
    }

    function RequestOptions(): Value
    {
      Envelope("json", Body())
    }
  }

  function DecodeDeleteConversation(path: string, verb: string, options: Value): Option<DeleteConversationRequest>
  {
    var c, b := Between(path, "/conversations/", ""), Params(options, "json");
    if verb != "DELETE" || c.None? || b.None? || |b.value| != 1 || StrAt(b.value, 0, "user").None? then None
    else Some(DeleteConversationRequest(c.value, StrAt(b.value, 0, "user").value))
  }

  lemma DeleteConversationRoundTrip(r: DeleteConversationRequest)
    ensures DecodeDeleteConversation(r.RequestPath(), r.RequestMethod(), r.RequestOptions()) == Some(r)
  {
    ParamsOfEnvelope("json", r.Body());
  }

  // ---------------------------------------------------------------------
  // GET /messages/{id}/suggested
  // ---------------------------------------------------------------------

  datatype GetSuggestedQuestionsRequest = GetSuggestedQuestionsRequest(messageId: string, user: string)
  {
    function RequestPath(): (p: string)
      ensures Between(p, "/messages/", "/suggested") == Some(messageId)
    {
      BetweenConcat("/messages/", messageId, "/suggested");
      "/messages/" + messageId + "/suggested"
    }

    function RequestMethod(): string
    {
      "GET"
    }

    /** The query holds the one key `user`. */
    function Query(): (q: seq<Entry>)
      ensures Keys(q) == Names(["user"])
    {
      [Field("user", Str(user))]
    }

    function RequestOptions(): Value
    {
      Envelope("query", Query())
    }
  }

  function DecodeGetSuggestedQuestions(path: string, verb: string, options: Value)
    : Option<GetSuggestedQuestionsRequest>
  {
    var m, q := Between(path, "/messages/", "/suggested"), Params(options, "query");
    if verb != "GET" || m.None? || q.None? || |q.value| != 1 || StrAt(q.value, 0, "user").None? then None
    else Some(GetSuggestedQuestionsRequest(m.value, StrAt(q.value, 0, "user").value))
  }

  lemma GetSuggestedQuestionsRoundTrip(r: GetSuggestedQuestionsRequest)
    ensures DecodeGetSuggestedQuestions(r.RequestPath(), r.RequestMethod(), r.RequestOptions()) == Some(r)
  {
    ParamsOfEnvelope("query", r.Query());
  }

  // ---------------------------------------------------------------------
  // POST /chat-messages/{task_id}/stop
  // ---------------------------------------------------------------------

  datatype StopChatMessageRequest = StopChatMessageRequest(taskId: string, user: string)
  {
    function RequestPath(): (p: string)
      ensures Between(p, "/chat-messages/", "/stop") == Some(taskId)
    {
      BetweenConcat("/chat-messages/", taskId, "/stop");
      "/chat-messages/" + taskId + "/stop"
    }

    function RequestMethod(): string
    {
      "POST"
    }

    /** The body holds the one key `user`. */
    function Body(): (b: seq<Entry>)
      ensures Keys(b) == Names(["user"])
    {
      [Field("user", Str(user))]
    }

    function RequestOptions(): Value
    {
      Envelope("json", Body())
    }
  }

  function DecodeStopChatMessage(path: string, verb: string, options: Value): Option<StopChatMessageRequest>
  {
    var t, b := Between(path, "/chat-messages/", "/stop"), Params(options, "json");
    if verb != "POST" || t.None? || b.None? || |b.value| != 1 || StrAt(b.value, 0, "user").None? then None
    else Some(StopChatMessageRequest(t.value, StrAt(b.value, 0, "user").value))
  }

  lemma StopChatMessageRoundTrip(r: StopChatMessageRequest)
    ensures DecodeStopChatMessage(r.RequestPath(), r.RequestMethod(), r.RequestOptions()) == Some(r)
  {
    ParamsOfEnvelope("json", r.Body());
  }
}
