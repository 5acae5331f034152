/** The admin route that updates an assistant: a chain of checks (signed
    in, admin, configured, a JSON body with an assistant id and an object of
    updates holding at least one allowed field), then one update whose
    outcome is returned. The session, the role lookup, the environment and
    the update itself are parameters. */
module AssistantUpdateRoute {
  import opened Wrappers
  import opened JsText
  import opened JsObject
  import opened Http

  /** The assistant columns an admin may change, in order. */
  const AllowedFields: seq<string> := [
    "name", "description", "prompt", "temperature", "context_length",
    "include_profile_context", "include_workspace_instructions", "model",
    "image_path", "sharing", "folder_id", "embeddings_provider"]

  lemma {:induction false} AllowedFieldsDistinct()
    ensures forall i, j :: 0 <= i < j < |AllowedFields| ==> AllowedFields[i] != AllowedFields[j]
  {
  }

  /** The entries of `updates` under the keys of `allowed`, in that order. */
  function PickFrom(allowed: seq<string>, updates: Obj<Json>): (r: Obj<Json>)
    decreases |allowed|
  {
    if allowed == [] then []
    else
      var rest := PickFrom(allowed[..|allowed| - 1], updates);
      var k := allowed[|allowed| - 1];
      if k in Keys(updates) then
        rest + [(k, Get(updates, k).value)]
      else rest
  }

  /** A key is picked exactly when it is allowed and present. */
  lemma {:induction false} PickFromKeys(allowed: seq<string>, updates: Obj<Json>)
    ensures forall k :: k in Keys(PickFrom(allowed, updates)) <==> k in allowed && k in Keys(updates)
    decreases |allowed|
  {
    if allowed != [] {
      var front := allowed[..|allowed| - 1];
      var k := allowed[|allowed| - 1];
      assert allowed == front + [k];
      PickFromKeys(front, updates);
      var rest := PickFrom(front, updates);
      if k in Keys(updates) {
        assert Keys(rest + [(k, Get(updates, k).value)]) == Keys(rest) + [k];
      }
    }
  }

  /** `pickUpdateFields(updates)`, specified. */
  function Picked(updates: Obj<Json>): Obj<Json> {
    PickFrom(AllowedFields, updates)
  }

  /** Every picked value is the one `updates` holds. */
  lemma {:induction false} PickFromValues(allowed: seq<string>, updates: Obj<Json>, k: string)
    requires forall i, j :: 0 <= i < j < |allowed| ==> allowed[i] != allowed[j]
    ensures DistinctKeys(PickFrom(allowed, updates))
    ensures Get(PickFrom(allowed, updates), k) == if k in allowed then Get(updates, k) else None
    decreases |allowed|
  {
    if allowed != [] {
      var front := allowed[..|allowed| - 1];
      var last := allowed[|allowed| - 1];
      assert allowed == front + [last];
      PickFromValues(front, updates, k);
      PickFromKeys(front, updates);
      var rest := PickFrom(front, updates);
      if last in Keys(updates) {
        assert last !in Keys(rest);
        SetAppends(rest, last, Get(updates, last).value);
        GetSet(rest, last, Get(updates, last).value, k);
        var r := rest + [(last, Get(updates, last).value)];
        assert DistinctKeys(r) by {
          forall i, j | 0 <= i < j < |r| ensures r[i].0 != r[j].0 {
            assert Keys(rest)[i] == r[i].0;
            if j < |rest| { assert Keys(rest)[j] == r[j].0; }
          }
        }
      }
    }
  }

  /** The picked fields are exactly the allowed keys present in `updates`,
      with their values unchanged and no key repeated. */
  lemma {:induction false} PickedSpec(updates: Obj<Json>, k: string)
    ensures k in Keys(Picked(updates)) <==> k in AllowedFields && k in Keys(updates)
    ensures Get(Picked(updates), k) == if k in AllowedFields then Get(updates, k) else None
    ensures DistinctKeys(Picked(updates))
  {
    AllowedFieldsDistinct();
    PickFromValues(AllowedFields, updates, k);
  }

  /** Picking from picked fields changes nothing. */
  lemma {:induction false} PickFromIdempotent(allowed: seq<string>, updates: Obj<Json>, all: seq<string>)
    requires forall i, j :: 0 <= i < j < |all| ==> all[i] != all[j]
    requires |allowed| <= |all| && allowed == all[..|allowed|]
    ensures PickFrom(allowed, PickFrom(all, updates)) == PickFrom(allowed, updates)
    decreases |allowed|
  {
    if allowed != [] {
      var front := allowed[..|allowed| - 1];
      var last := allowed[|allowed| - 1];
      assert front == all[..|front|];
      PickFromIdempotent(front, updates, all);
      PickFromValues(all, updates, last);
      assert all[|allowed| - 1] == last;
    }
  }

  /** `pickUpdateFields` is idempotent. */
  lemma {:induction false} PickedIdempotent(updates: Obj<Json>)
    ensures Picked(Picked(updates)) == Picked(updates)
  {
    AllowedFieldsDistinct();
    PickFromIdempotent(AllowedFields, updates, AllowedFields);
  }

  /** `pickUpdateFields`: copies each allowed key present in `updates`. */
  method PickUpdateFields(updates: Obj<Json>) returns (payload: Obj<Json>)
    ensures payload == Picked(updates)
  {
    AllowedFieldsDistinct();
    payload := [];
    var i := 0;
    while i < |AllowedFields|
      invariant 0 <= i <= |AllowedFields|
      invariant payload == PickFrom(AllowedFields[..i], updates)
    {
      var key := AllowedFields[i];
      assert AllowedFields[..i + 1][..i] == AllowedFields[..i];
      assert AllowedFields[..i + 1][i] == key;
      if key in Keys(updates) {
        assert key !in AllowedFields[..i];
        PickFromKeys(AllowedFields[..i], updates);
        SetAppends(payload, key, Get(updates, key).value);
        payload := Set(payload, key, Get(updates, key).value);
      }
      i := i + 1;
    }
    assert AllowedFields[..i] == AllowedFields;
  }

  /** The caller's role lookup: failed, or the `user_role` it found. */
  datatype RoleLookup = LookupFailed | Role(userRole: Option<string>)

  /** `payload.updates ?? {}`. */
  function Updates(payload: Json): Json
    requires !payload.JNull?
  {
    match Prop(payload, "updates")
    case Found(v) => if v.JNull? then JObj([]) else v
    case _ => JObj([])
  }

  /** `POST`, given the signed-in user's id (`None` when there is none or
      the lookup failed), the role lookup, the two configuration values,
      the parsed body (`None` when it is not JSON), and the update, which
      returns the updated assistant or an error message. */
  function Post(user: Option<string>, role: RoleLookup, supabaseUrl: Option<string>, serviceKey: Option<string>,
                body: Option<Json>, update: (string, Obj<Json>) -> Result<Json>): (r: Outcome)
  {
    if user.None? then Respond(401, PlainText("Unauthorized"))
    else if role.LookupFailed? || role.userRole != Some("admin") then Respond(404, PlainText("Not Found"))
    else if supabaseUrl.None? || supabaseUrl.value == "" || serviceKey.None? || serviceKey.value == "" then
      Respond(500, Message("Missing Supabase config."))
    else if body.None? then Respond(400, Message("Invalid JSON payload."))
    else PostPayload(body.value, update)
  }

  /** The part of `POST` after the body is parsed: the id, the updates and
      the picked fields are checked in turn, then the update is run. */
  function PostPayload(payload: Json, update: (string, Obj<Json>) -> Result<Json>): Outcome {
    match TrimmedProp(payload, "assistantId")
    case Throws => Throw
    case Undefined => Respond(400, Message("assistantId is required."))
    case Found(id) =>
      var updates := Updates(payload);
      if id.s == "" then Respond(400, Message("assistantId is required."))
      else if !updates.JObj? then Respond(400, Message("updates must be an object."))
      else
        var fields := Picked(updates.fields);
        if fields == [] then Respond(400, Message("No valid fields provided."))
        else match update(id.s, fields)
          case Err(m) => Respond(500, Message(m))
          case Ok(assistant) => Respond(200, JsonBody(JObj([("assistant", assistant)])))
  }

  /** The body passes every check: a non-blank id and an object of updates
      with at least one allowed field. */
  predicate Accepted(payload: Json) {
    TrimmedProp(payload, "assistantId").Found? && TrimmedProp(payload, "assistantId").value.s != ""
    && Updates(payload).JObj? && Picked(Updates(payload).fields) != []
  }

  /** An accepted body runs the update with the trimmed id and the picked
      fields: its assistant is a 200, its error a 500 with the message; any
      other body is a 400 or a throw. */
  lemma {:induction false} PostPayloadOutcome(payload: Json, update: (string, Obj<Json>) -> Result<Json>)
    ensures Accepted(payload) ==>
              var u := update(TrimmedProp(payload, "assistantId").value.s, Picked(Updates(payload).fields));
              PostPayload(payload, update)
              == if u.Ok? then Respond(200, JsonBody(JObj([("assistant", u.value)]))) else Respond(500, Message(u.message))
    ensures !Accepted(payload) ==> PostPayload(payload, update).Throw? || PostPayload(payload, update).status == 400
  {
    match TrimmedProp(payload, "assistantId")
    case Throws =>
    case Undefined =>
    case Found(id) =>
      assert !payload.JNull?;
  }

  /** The checks run in order: an earlier failing check decides the
      response whatever the later inputs are. */
  lemma {:induction false} ChecksInOrder(user: Option<string>, role: RoleLookup, url: Option<string>, key: Option<string>,
                      body: Option<Json>, update: (string, Obj<Json>) -> Result<Json>,
                      body': Option<Json>, update': (string, Obj<Json>) -> Result<Json>)
    ensures user.None? ==> Post(user, role, url, key, body, update) == Respond(401, PlainText("Unauthorized"))
    ensures user.Some? && role != Role(Some("admin")) ==>
              Post(user, role, url, key, body, update) == Respond(404, PlainText("Not Found"))
    ensures user.Some? && role == Role(Some("admin")) && (url.None? || url == Some("") || key.None? || key == Some("")) ==>
              Post(user, role, url, key, body, update) == Respond(500, Message("Missing Supabase config."))
    ensures (user.None? || role != Role(Some("admin")) || url.None? || url == Some("") || key.None? || key == Some(""))
            ==> Post(user, role, url, key, body, update) == Post(user, role, url, key, body', update')
    ensures user.Some? && role == Role(Some("admin")) && url.Some? && url != Some("") && key.Some? && key != Some("") ==>
              Post(user, role, url, key, body, update)
              == if body.None? then Respond(400, Message("Invalid JSON payload.")) else PostPayload(body.value, update)
  {
  }

  /** After the body is parsed the checks on it run in order, each deciding
      the response before the update is attempted: a blank or missing id,
      then updates that are not an object, then no allowed field. (An id is
      found only on an object body.) */
  lemma {:induction false} PayloadChecksInOrder(payload: Json, update: (string, Obj<Json>) -> Result<Json>,
                                                update': (string, Obj<Json>) -> Result<Json>)
    ensures var id := TrimmedProp(payload, "assistantId");
            id.Undefined? || (id.Found? && id.value.s == "")
            ==> PostPayload(payload, update) == Respond(400, Message("assistantId is required."))
    ensures var id := TrimmedProp(payload, "assistantId");
            payload.JObj? && id.Found? && id.value.s != "" ==>
              (!Updates(payload).JObj? ==> PostPayload(payload, update) == Respond(400, Message("updates must be an object.")))
              && (Updates(payload).JObj? && Picked(Updates(payload).fields) == []
                  ==> PostPayload(payload, update) == Respond(400, Message("No valid fields provided.")))
    ensures !Accepted(payload) ==> PostPayload(payload, update) == PostPayload(payload, update')
  {
  }

  /** A 200 is given exactly when every check passes and the update
      succeeds. */
  lemma {:induction false} SuccessIff(user: Option<string>, role: RoleLookup, url: Option<string>, key: Option<string>,
                   body: Option<Json>, update: (string, Obj<Json>) -> Result<Json>)
    ensures var r := Post(user, role, url, key, body, update);
            r.Respond? && r.status == 200
            <==> (user.Some? && role == Role(Some("admin")) && url.Some? && url.value != "" && key.Some? && key.value != ""
                  && body.Some? && Accepted(body.value)
                  && update(TrimmedProp(body.value, "assistantId").value.s, Picked(Updates(body.value).fields)).Ok?)
  {
    if body.Some? {
      PostPayloadOutcome(body.value, update);
    }
  }

  /** Once every check passes, the update decides: its assistant is a 200,
      its error a 500 with the message. */
  lemma {:induction false} UpdateDecides(user: Option<string>, role: RoleLookup, url: Option<string>, key: Option<string>,
                   body: Option<Json>, update: (string, Obj<Json>) -> Result<Json>)
    requires user.Some? && role == Role(Some("admin")) && url.Some? && url.value != "" && key.Some? && key.value != ""
             && body.Some? && Accepted(body.value)
    ensures var u := update(TrimmedProp(body.value, "assistantId").value.s, Picked(Updates(body.value).fields));
            Post(user, role, url, key, body, update)
            == if u.Ok? then Respond(200, JsonBody(JObj([("assistant", u.value)]))) else Respond(500, Message(u.message))
  {
    PostPayloadOutcome(body.value, update);
  }

  /** An id of only whitespace counts as missing. */
  lemma {:induction false} BlankIdIsMissing(s: string, updates: Json, update: (string, Obj<Json>) -> Result<Json>)
    requires forall k :: 0 <= k < |s| ==> IsSpace(s[k])
    ensures Post(Some("u"), Role(Some("admin")), Some("url"), Some("key"),
                 Some(JObj([("assistantId", JStr(s)), ("updates", updates)])), update)
            == Respond(400, Message("assistantId is required."))
  {
    TrimEmptyIff(s);
    var payload := JObj([("assistantId", JStr(s)), ("updates", updates)]);
    assert TrimmedProp(payload, "assistantId") == Found(JStr("")) by {
      assert Get(payload.fields, "assistantId") == Some(JStr(s));
    }
    assert PostPayload(payload, update) == Respond(400, Message("assistantId is required."));
  }

  /** Absent or null updates are `{}`, which has no allowed field. */
  lemma {:induction false} MissingUpdatesHaveNoFields(payload: Json)
    requires payload.JObj?
    requires Get(payload.fields, "updates").None? || Get(payload.fields, "updates") == Some(JNull)
    ensures Updates(payload) == JObj([]) && Picked(Updates(payload).fields) == []
  {
    PickedEmpty(AllowedFields);
  }

  lemma {:induction false} PickedEmpty(allowed: seq<string>)
    ensures PickFrom(allowed, []) == []
    decreases |allowed|
  {
    if allowed != [] {
      PickedEmpty(allowed[..|allowed| - 1]);
    }
  }

  /** An array of updates is refused even when it is non-empty. */
  lemma {:induction false} ArrayUpdatesRefused(id: string, items: seq<Json>, update: (string, Obj<Json>) -> Result<Json>)
    requires Trim(id) != ""
    ensures Post(Some("u"), Role(Some("admin")), Some("url"), Some("key"),
                 Some(JObj([("assistantId", JStr(id)), ("updates", JArr(items))])), update)
            == Respond(400, Message("updates must be an object."))
  {
    var payload := JObj([("assistantId", JStr(id)), ("updates", JArr(items))]);
    assert TrimmedProp(payload, "assistantId") == Found(JStr(Trim(id))) by {
      assert Get(payload.fields, "assistantId") == Some(JStr(id));
    }
    assert Updates(payload) == JArr(items) by {
      assert Get(payload.fields, "updates") == Some(JArr(items));
    }
    assert PostPayload(payload, update) == Respond(400, Message("updates must be an object."));
  }
}
