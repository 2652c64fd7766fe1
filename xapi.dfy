/** The handler subscribed to the player's "xAPI" events: it decides whether
    an event's statement is sent to the block's result handler. Only
    completion statements of the root activity are sent; the player also
    emits one per sub-activity, which would duplicate the result. */
module XApi {
  import opened Js

  /** `event.data.statement` */
  const StatementPath: seq<Key> := [Name("data"), Name("statement")]
  /** `statement.verb.display["en-US"]` */
  const VerbPath: seq<Key> := [Name("verb"), Name("display"), Name("en-US")]
  /** `statement.context.contextActivities.parent[0].id` */
  const ParentIdPath: seq<Key> :=
    [Name("context"), Name("contextActivities"), Name("parent"), First, Name("id")]

  /** The verb display names that mark a statement as a completion. */
  const CompletionVerbs: set<string> := {"answered", "completed", "consumed"}

  /** A verb display value that is one of the completion verbs. */
  predicate IsCompletionVerb(v: Json) {
    v.Str? && v.s in CompletionVerbs
  }

  /** What is stored: a present statement whose English verb display name is a
      completion verb and whose first parent activity has no identifier. */
  predicate RootCompletion(statement: Json) {
    && Truthy(statement)
    && IsCompletionVerb(Walk(statement, VerbPath))
    && !Truthy(Walk(statement, ParentIdPath))
  }

  /** The handler as written: the statement it POSTs, if any. The statement is
      sent exactly when it is a root completion, and it is sent as it came,
      `event.data.statement`. */
  function HandleXApi(event: Json): (post: Option<Json>)
    ensures post.Some? <==> RootCompletion(Walk(event, StatementPath))
    ensures post.Some? ==> post.value == Walk(event, StatementPath)
  {
    var hasStatement := Chain(event, StatementPath);
    if !Truthy(hasStatement) then None
    else
      var statement := Walk(event, StatementPath);
      var validVerb := Chain(statement, VerbPath);
      if !Truthy(validVerb) then None
      else
        var display := Walk(statement, VerbPath);
        var isCompleted :=
          display == Str("answered") || display == Str("completed") || display == Str("consumed");
        var isChild := Chain(statement, ParentIdPath);
        if isCompleted && !Truthy(isChild) then Some(Walk(event, StatementPath)) else None
  }

  /** The `validVerb` early return never decides anything on its own: every
      completion verb is a non-empty string. */
  lemma CompletionVerbIsTruthy(v: Json)
    requires IsCompletionVerb(v)
    ensures Truthy(v)
  {
  }

  /** A statement whose first parent activity carries an identifier is a
      child statement and is never sent. */
  lemma ChildStatementNotSent(event: Json)
    requires Truthy(Walk(Walk(event, StatementPath), ParentIdPath))
    ensures HandleXApi(event) == None
  {
  }

  /** A statement without an "en-US" verb display name is never sent. */
  lemma MissingLocaleNotSent(event: Json)
    requires Walk(Walk(event, StatementPath), VerbPath) == Undefined
    ensures HandleXApi(event) == None
  {
  }

  /** A root "completed" statement with no context at all is sent. */
  lemma CompletedRootSent(verb: string)
    requires verb in CompletionVerbs
    ensures
      var statement := Obj(map["verb" := Obj(map["display" := Obj(map["en-US" := Str(verb)])])]);
      HandleXApi(Obj(map["data" := Obj(map["statement" := statement])])) == Some(statement)
  {
    var statement := Obj(map["verb" := Obj(map["display" := Obj(map["en-US" := Str(verb)])])]);
    var event := Obj(map["data" := Obj(map["statement" := statement])]);
    assert Walk(event, StatementPath) == statement by {
      assert Get(event, Name("data")) == Obj(map["statement" := statement]);
    }
    assert Walk(statement, VerbPath) == Str(verb) by {
      assert Get(statement, Name("verb")) == Obj(map["display" := Obj(map["en-US" := Str(verb)])]);
    }
    assert Walk(statement, ParentIdPath) == Undefined by {
      assert Get(statement, Name("context")) == Undefined;
    }
  }

  /** The same statement with an identified parent activity is not sent. */
  lemma CompletedChildNotSent(verb: string, parentId: string)
    requires parentId != ""
    ensures
      var parent := Arr([Obj(map["id" := Str(parentId)])]);
      var context := Obj(map["contextActivities" := Obj(map["parent" := parent])]);
      var statement := Obj(map[
        "verb" := Obj(map["display" := Obj(map["en-US" := Str(verb)])]),
        "context" := context]);
      HandleXApi(Obj(map["data" := Obj(map["statement" := statement])])) == None
  {
    var parent := Arr([Obj(map["id" := Str(parentId)])]);
    var context := Obj(map["contextActivities" := Obj(map["parent" := parent])]);
    var statement := Obj(map[
      "verb" := Obj(map["display" := Obj(map["en-US" := Str(verb)])]),
      "context" := context]);
    var event := Obj(map["data" := Obj(map["statement" := statement])]);
    assert Walk(event, StatementPath) == statement by {
      assert Get(event, Name("data")) == Obj(map["statement" := statement]);
    }
    assert Walk(statement, ParentIdPath) == Str(parentId) by {
      assert Get(statement, Name("context")) == context;
      assert Get(context, Name("contextActivities")) == Obj(map["parent" := parent]);
      assert Get(Obj(map["parent" := parent]), Name("parent")) == parent;
      assert Get(parent, First) == Obj(map["id" := Str(parentId)]);
    }
  }
}
