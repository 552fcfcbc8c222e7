/**
 * The two Doctrine entities the sync command writes: `Conversation` and
 * `ConversationMessage`. Each is a class whose private fields are changed in
 * place by `void` setters.
 *
 * A PHP typed property that has never been assigned is "uninitialized": `??`
 * treats it like null, and a getter that reads it throws. Both that state
 * and an explicit null are `None` here, so `Row()` (the snapshot of all
 * fields) is what a fresh entity, a setter and `__toString` are specified
 * against. The getters of non-nullable fields require the field to be set.
 */
module Entities {
  import opened Wrappers
  import opened Php

  /** A Dify application as the command sees it: its id (null before it is persisted) and its name. */
  datatype App = App(id: Option<string>, name: string)

  /** `substr($s, 0, $n)`: the first `n` characters, or all of `s` when it is shorter. */
  function Prefix(s: string, n: nat): (p: string)
    ensures |p| == if |s| <= n then |s| else n
    ensures p <= s
  {
    if |s| <= n then s else s[..n]
  }

  // ---------------------------------------------------------------------
  // Validity constraints (the `Assert` attributes)
  // ---------------------------------------------------------------------

  predicate IsHexDigit(c: char)
  {
    '0' <= c <= '9' || 'a' <= c <= 'f' || 'A' <= c <= 'F'
  }

  /** The hyphen positions of the 8-4-4-4-12 UUID layout. */
  predicate IsUuidHyphenPosition(i: int)
  {
    i == 8 || i == 13 || i == 18 || i == 23
  }

  /** A UUID in its 36-character textual form: hexadecimal groups of 8, 4, 4, 4 and 12 joined by hyphens. */
  predicate IsUuid(s: string)
  {
    |s| == 36
    && forall i :: 0 <= i < |s| ==> if IsUuidHyphenPosition(i) then s[i] == '-' else IsHexDigit(s[i])
  }

  /** `NotBlank` with `Length(min: lo, max: hi)` on a string property. */
  predicate LengthIn(o: Option<string>, lo: nat, hi: nat)
  {
    o.Some? && lo <= |o.value| <= hi
  }

  /** `Length(max: hi)` on a nullable string property: null passes. */
  predicate NullOrAtMost(o: Option<string>, hi: nat)
  {
    o.None? || |o.value| <= hi
  }

  /** `NotBlank` with `PositiveOrZero` on an integer property. */
  predicate SetAndNonNegative(o: Option<int>)
  {
    o.Some? && o.value >= 0
  }

  /** The accepted feedback ratings: null, or `like`/`dislike` (both within 20 characters). */
  predicate ValidRating(r: Option<string>)
  {
    r.None? || (|r.value| <= 20 && (r.value == "like" || r.value == "dislike"))
  }

  // ---------------------------------------------------------------------
  // Conversation
  // ---------------------------------------------------------------------

  /** The fields of a `Conversation`; `None` is null or never assigned. */
  datatype ConversationRow = ConversationRow(
    difyConversationId: Option<string>,
    difyApp: Option<App>,
    name: Option<string>,
    inputs: Option<seq<Entry>>,
    status: Option<string>,
    introduction: Option<string>,
    user: Option<string>,
    difyCreatedAt: Option<int>,
    difyUpdatedAt: Option<int>)
  {
    /** The constraints of the entity's `Assert` attributes. */
    predicate Valid()
    {
      difyConversationId.Some? && IsUuid(difyConversationId.value)
      && difyApp.Some?
      && LengthIn(name, 1, 255)
      && LengthIn(status, 1, 50)
      && NullOrAtMost(introduction, 65535)
      && LengthIn(user, 1, 100)
      && SetAndNonNegative(difyCreatedAt)
      && SetAndNonNegative(difyUpdatedAt)
    }

    /** `__toString`: `Conversation[<id>]: <name>`, with `new` and `unnamed` for fields never set. */
    function Label(): string
    {
      "Conversation[" + OrElse(difyConversationId, "new") + "]: " + OrElse(name, "unnamed")
    }
  }

  /** A conversation as `new Conversation()` leaves it: nothing assigned, the nullable fields null. */
  const FreshConversation := ConversationRow(None, None, None, None, None, None, None, None, None)

  class Conversation {
    var difyConversationId: Option<string>
    var difyApp: Option<App>
    var name: Option<string>
    var inputs: Option<seq<Entry>>
    var status: Option<string>
    var introduction: Option<string>
    var user: Option<string>
    var difyCreatedAt: Option<int>
    var difyUpdatedAt: Option<int>

    function Row(): ConversationRow
      reads this
    {
      ConversationRow(difyConversationId, difyApp, name, inputs, status, introduction, user, difyCreatedAt, difyUpdatedAt)
    }

    /** A fresh entity: null app, inputs and introduction, the other fields unassigned. */
    constructor ()
      ensures Row() == FreshConversation
      ensures difyApp == None && inputs == None && introduction == None
    {
      difyConversationId, difyApp, name, inputs, status := None, None, None, None, None;
      introduction, user, difyCreatedAt, difyUpdatedAt := None, None, None, None;
    }

    /** The managed entity the repository hands back for a stored row. */
    constructor Load(row: ConversationRow)
      ensures Row() == row
    {
      difyConversationId, difyApp, name, inputs, status := row.difyConversationId, row.difyApp, row.name, row.inputs, row.status;
      introduction, user, difyCreatedAt, difyUpdatedAt := row.introduction, row.user, row.difyCreatedAt, row.difyUpdatedAt;
    }

    function GetDifyConversationId(): string
      reads this
      requires difyConversationId.Some?
    {
      difyConversationId.value
    }

    function GetDifyApp(): Option<App>
      reads this
    {
      difyApp
    }

    function GetName(): string
      reads this
      requires name.Some?
    {
      name.value
    }

    function GetInputs(): Option<seq<Entry>>
      reads this
    {
      inputs
    }

    function GetStatus(): string
      reads this
      requires status.Some?
    {
      status.value
    }

    function GetIntroduction(): Option<string>
      reads this
    {
      introduction
    }

    function GetUser(): string
      reads this
      requires user.Some?
    {
      user.value
    }

    function GetDifyCreatedAt(): int
      reads this
      requires difyCreatedAt.Some?
    {
      difyCreatedAt.value
    }

    function GetDifyUpdatedAt(): int
      reads this
      requires difyUpdatedAt.Some?
    {
      difyUpdatedAt.value
    }

    method SetDifyConversationId(v: string)
      modifies this
      ensures Row() == old(Row()).(difyConversationId := Some(v))
      ensures GetDifyConversationId() == v
    {
      difyConversationId := Some(v);
    }

    method SetDifyApp(v: Option<App>)
      modifies this
      ensures Row() == old(Row()).(difyApp := v)
      ensures GetDifyApp() == v
    {
      difyApp := v;
    }

    method SetName(v: string)
      modifies this
      ensures Row() == old(Row()).(name := Some(v))
      ensures GetName() == v
    {
      name := Some(v);
    }

    method SetInputs(v: Option<seq<Entry>>)
      modifies this
      ensures Row() == old(Row()).(inputs := v)
      ensures GetInputs() == v
    {
      inputs := v;
    }

    method SetStatus(v: string)
      modifies this
      ensures Row() == old(Row()).(status := Some(v))
      ensures GetStatus() == v
    {
      status := Some(v);
    }

    method SetIntroduction(v: Option<string>)
      modifies this
      ensures Row() == old(Row()).(introduction := v)
      ensures GetIntroduction() == v
    {
      introduction := v;
    }

    method SetUser(v: string)
      modifies this
      ensures Row() == old(Row()).(user := Some(v))
      ensures GetUser() == v
    {
      user := Some(v);
    }

    method SetDifyCreatedAt(v: int)
      modifies this
      ensures Row() == old(Row()).(difyCreatedAt := Some(v))
      ensures GetDifyCreatedAt() == v
    {
      difyCreatedAt := Some(v);
    }

    method SetDifyUpdatedAt(v: int)
      modifies this
      ensures Row() == old(Row()).(difyUpdatedAt := Some(v))
      ensures GetDifyUpdatedAt() == v
    {
      difyUpdatedAt := Some(v);
    }

    /** `__toString`. */
    function ToString(): (s: string)
      reads this
      ensures var head := "Conversation[" + (if difyConversationId.Some? then difyConversationId.value else "new") + "]: ";
              && |head| <= |s| && s[..|head|] == head
              && s[|head|..] == if name.Some? then name.value else "unnamed"
    {
      Row().Label()
    }
  }

  // ---------------------------------------------------------------------
  // ConversationMessage
  // ---------------------------------------------------------------------

  /** The fields of a `ConversationMessage`; `None` is null or never assigned. */
  datatype MessageRow = MessageRow(
    difyMessageId: Option<string>,
    difyConversationId: Option<string>,
    difyApp: Option<App>,
    inputs: Option<seq<Entry>>,
    query: Option<string>,
    answer: Option<string>,
    feedbackRating: Option<string>,
    messageFiles: Option<seq<Entry>>,
    retrieverResources: Option<seq<Entry>>,
    user: Option<string>,
    difyCreatedAt: Option<int>)
  {
    /** The constraints of the entity's `Assert` attributes. */
    predicate Valid()
    {
      difyMessageId.Some? && IsUuid(difyMessageId.value)
      && difyConversationId.Some? && IsUuid(difyConversationId.value)
      && difyApp.Some?
      && LengthIn(query, 1, 65535)
      && LengthIn(answer, 1, 65535)
      && ValidRating(feedbackRating)
      && LengthIn(user, 1, 100)
      && SetAndNonNegative(difyCreatedAt)
    }

    /**
     * `__toString`: `Message[<id>]: ` and at most the first 50 characters of
     * the query, with `new` and `no query` for fields never set.
     */
    function Label(): string
    {
      "Message[" + OrElse(difyMessageId, "new") + "]: " + Prefix(OrElse(query, "no query"), 50)
    }
  }

  /** A message as `new ConversationMessage()` leaves it. */
  const FreshMessage := MessageRow(None, None, None, None, None, None, None, None, None, None, None)

  class ConversationMessage {
    var difyMessageId: Option<string>
    var difyConversationId: Option<string>
    var difyApp: Option<App>
    var inputs: Option<seq<Entry>>
    var query: Option<string>
    var answer: Option<string>
    var feedbackRating: Option<string>
    var messageFiles: Option<seq<Entry>>
    var retrieverResources: Option<seq<Entry>>
    var user: Option<string>
    var difyCreatedAt: Option<int>

    function Row(): MessageRow
      reads this
    {
      MessageRow(difyMessageId, difyConversationId, difyApp, inputs, query, answer, feedbackRating,
                 messageFiles, retrieverResources, user, difyCreatedAt)
    }

    /** A fresh entity: null app, inputs, rating, files and resources, the other fields unassigned. */
    constructor ()
      ensures Row() == FreshMessage
      ensures difyApp == None && inputs == None && feedbackRating == None
      ensures messageFiles == None && retrieverResources == None
    {
      difyMessageId, difyConversationId, difyApp, inputs, query, answer := None, None, None, None, None, None;
      feedbackRating, messageFiles, retrieverResources, user, difyCreatedAt := None, None, None, None, None;
    }

    /** The managed entity the repository hands back for a stored row. */
    constructor Load(row: MessageRow)
      ensures Row() == row
    {
      difyMessageId, difyConversationId, difyApp, inputs := row.difyMessageId, row.difyConversationId, row.difyApp, row.inputs;
      query, answer, feedbackRating := row.query, row.answer, row.feedbackRating;
      messageFiles, retrieverResources, user, difyCreatedAt := row.messageFiles, row.retrieverResources, row.user, row.difyCreatedAt;
    }

    function GetDifyMessageId(): string
      reads this
      requires difyMessageId.Some?
    {
      difyMessageId.value
    }

    function GetDifyConversationId(): string
      reads this
      requires difyConversationId.Some?
    {
      difyConversationId.value
    }

    function GetDifyApp(): Option<App>
      reads this
    {
      difyApp
    }

    function GetInputs(): Option<seq<Entry>>
      reads this
    {
      inputs
    }

    function GetQuery(): string
      reads this
      requires query.Some?
    {
      query.value
    }

    function GetAnswer(): string
      reads this
      requires answer.Some?
    {
      answer.value
    }

    function GetFeedbackRating(): Option<string>
      reads this
    {
      feedbackRating
    }

    function GetMessageFiles(): Option<seq<Entry>>
      reads this
    {
      messageFiles
    }

    function GetRetrieverResources(): Option<seq<Entry>>
      reads this
    {
      retrieverResources
    }

    function GetUser(): string
      reads this
      requires user.Some?
    {
      user.value
    }

    function GetDifyCreatedAt(): int
      reads this
      requires difyCreatedAt.Some?
    {
      difyCreatedAt.value
    }

    method SetDifyMessageId(v: string)
      modifies this
      ensures Row() == old(Row()).(difyMessageId := Some(v))
      ensures GetDifyMessageId() == v
    {
      difyMessageId := Some(v);
    }

    method SetDifyConversationId(v: string)
      modifies this
      ensures Row() == old(Row()).(difyConversationId := Some(v))
      ensures GetDifyConversationId() == v
    {
      difyConversationId := Some(v);
    }

    method SetDifyApp(v: Option<App>)
      modifies this
      ensures Row() == old(Row()).(difyApp := v)
      ensures GetDifyApp() == v
    {
      difyApp := v;
    }

    method SetInputs(v: Option<seq<Entry>>)
      modifies this
      ensures Row() == old(Row()).(inputs := v)
      ensures GetInputs() == v
    {
      inputs := v;
    }

    method SetQuery(v: string)
      modifies this
      ensures Row() == old(Row()).(query := Some(v))
      ensures GetQuery() == v
    {
      query := Some(v);
    }

    method SetAnswer(v: string)
      modifies this
      ensures Row() == old(Row()).(answer := Some(v))
      ensures GetAnswer() == v
    {
      answer := Some(v);
    }

    /** Accepts any string or null; whether it is one of the allowed ratings is `ValidRating`'s concern. */
    method SetFeedbackRating(v: Option<string>)
      modifies this
      ensures Row() == old(Row()).(feedbackRating := v)
      ensures GetFeedbackRating() == v
    {
      feedbackRating := v;
    }

    method SetMessageFiles(v: Option<seq<Entry>>)
      modifies this
      ensures Row() == old(Row()).(messageFiles := v)
      ensures GetMessageFiles() == v
    {
      messageFiles := v;
    }

    method SetRetrieverResources(v: Option<seq<Entry>>)
      modifies this
      ensures Row() == old(Row()).(retrieverResources := v)
      ensures GetRetrieverResources() == v
    {
      retrieverResources := v;
    }

    method SetUser(v: string)
      modifies this
      ensures Row() == old(Row()).(user := Some(v))
      ensures GetUser() == v
    {
      user := Some(v);
    }

    method SetDifyCreatedAt(v: int)
      modifies this
      ensures Row() == old(Row()).(difyCreatedAt := Some(v))
      ensures GetDifyCreatedAt() == v
    {
      difyCreatedAt := Some(v);
    }

    /** `__toString`: the query is shown whole up to 50 characters, and cut to its first 50 beyond. */
    function ToString(): (s: string)
      reads this
      ensures var head := "Message[" + (if difyMessageId.Some? then difyMessageId.value else "new") + "]: ";
              var q := if query.Some? then query.value else "no query";
              && |head| <= |s| && s[..|head|] == head
              && (|q| <= 50 ==> s == head + q)
              && (|q| > 50 ==> s == head + q[..50])
    {
      Row().Label()
    }
  }

  // ---------------------------------------------------------------------
  // Properties of the labels and the constraints
  // ---------------------------------------------------------------------

  /** The labels of a fresh conversation and of one with only an id. */
  lemma ConversationLabels(id: string, name: string)
    ensures FreshConversation.Label() == "Conversation[new]: unnamed"
    ensures FreshConversation.(difyConversationId := Some(id)).Label() == "Conversation[" + id + "]: unnamed"
    ensures FreshConversation.(difyConversationId := Some(id), name := Some(name)).Label()
            == "Conversation[" + id + "]: " + name
  {
  }

  /**
   * The message label shows the query whole when it has at most 50
   * characters, and otherwise exactly its first 50; a fresh message reads
   * `Message[new]: no query`.
   */
  lemma MessageLabels(id: string, query: string)
    ensures FreshMessage.Label() == "Message[new]: no query"
    ensures var s := FreshMessage.(difyMessageId := Some(id), query := Some(query)).Label();
            var head := "Message[" + id + "]: ";
            && s[..|head|] == head
            && (|query| <= 50 ==> s == head + query)
            && (|query| > 50 ==> s == head + query[..50] && |s| == |head| + 50)
  {
    var s := FreshMessage.(difyMessageId := Some(id), query := Some(query)).Label();
    var head := "Message[" + id + "]: ";
    assert s == head + Prefix(query, 50);
    assert s[..|head|] == head;
  }

  /** A fresh conversation, and one with only its id set, violate the constraints. */
  lemma FreshConversationInvalid(id: string)
    ensures !FreshConversation.Valid()
    ensures !FreshConversation.(difyConversationId := Some(id)).Valid()
  {
  }

  /** The setter accepts ratings the constraint rejects: only `like`, `dislike` and null are valid. */
  lemma RatingChoice(r: string)
    ensures ValidRating(Some(r)) <==> r == "like" || r == "dislike"
    ensures ValidRating(None)
  {
  }

  /** The id used throughout the entity tests is a valid UUID; a 35-character prefix of it is not. */
  lemma SampleUuid()
    ensures IsUuid("123e4567-e89b-12d3-a456-426614174000")
    ensures !IsUuid("123e4567-e89b-12d3-a456-42661417400")
  {
    var s := "123e4567-e89b-12d3-a456-426614174000";
    assert forall i :: 0 <= i < |s| ==> if IsUuidHyphenPosition(i) then s[i] == '-' else IsHexDigit(s[i]);
  }
}
