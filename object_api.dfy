/** The decision logic of the Object REST controller
    (adrestia.ObjectController). HTTP types are reduced to a status and a
    reply body; the DAO is any function from a call to the envelope it
    answers, and every handler reports the calls it made, in order. */
module ObjectApi {
  import opened JavaValues
  import opened Envelopes
  import opened Clyman

  /** The HTTP statuses the controller chooses itself, and any other status
      produced by the error-code translation. */
  datatype Status = Ok | RequestedRangeNotSatisfiable | InternalServerError | OtherStatus(code: int)

  /** What a handler hands back to the web layer: a body with a status, or an
      exception escaping the handler (Spring answers it with its own error
      page). */
  datatype Reply = Reply(body: Document, status: Status) | Fault

  /** The DAO the controller is wired to: the envelope it answers to a call. */
  type Dao = DaoCall -> Envelope

  /** The translation of a backend error code into an HTTP status, whose
      mapping is not part of this model. */
  type Translation = int -> Status

  /** `isSuccessResponse`. */
  function IsSuccessResponse(response: Envelope): (r: bool)
    ensures r <==> response.numRecords > 0 && response.errorCode == 100
  {
    response.numRecords > 0 && response.errorCode == SuccessCode
  }

  /** `documents[0]` can be read without an exception. */
  predicate HasFirst(response: Envelope)
  {
    response.documents.Some? && |response.documents.value| > 0
  }

  /** The reply every handler builds from the envelope that decides it: the
      first document of a successful response, under the translated status of
      the success code; an empty document with 416 otherwise; an exception when
      a successful response carries no document to read. */
  function Respond(response: Envelope, translate: Translation): (r: Reply)
    ensures r.Fault? <==> IsSuccessResponse(response) && !HasFirst(response)
    ensures r.Reply? && IsSuccessResponse(response) ==>
      r.body == response.documents.value[0] && r.status == translate(100)
    ensures !IsSuccessResponse(response) ==> r == Reply(EmptyDocument, RequestedRangeNotSatisfiable)
  {
    if IsSuccessResponse(response) then
      if HasFirst(response) then Reply(response.documents.value[0], translate(response.errorCode))
      else Fault
    else Reply(EmptyDocument, RequestedRangeNotSatisfiable)
  }

  /** `saveObject`: the call it makes and the answer it returns. */
  function SaveObject(dao: Dao, doc: Document, docExists: bool): (r: (DaoCall, Envelope))
    ensures r.0.UpdateCall? <==> docExists
    ensures r.0.CreateCall? <==> !docExists
    ensures r.0.doc == doc && r.1 == dao(r.0)
  {
    if docExists then (UpdateCall(doc), dao(UpdateCall(doc)))
    else (CreateCall(doc), dao(CreateCall(doc)))
  }

  /** `objectQuery`: a fresh document naming the object and its scene. The
      ensures spells out the resulting document field by field, so that the
      handler contracts can be read without unfolding the update chain. */
  function NamedQuery(sceneName: string, objName: string): (q: Document)
    ensures q == Document(None, Some(objName), None, None, None, Some(sceneName), None)
  {
    EmptyDocument.(name := Some(objName)).(scene := Some(sceneName))
  }

  /** The key of the first document of a lookup response (possibly null). */
  function FoundKey(response: Envelope): JString
    requires HasFirst(response)
  {
    response.documents.value[0].key
  }

  /** The document `updateObject` saves: the request body with its name and
      scene taken from the path, and its key replaced by the stored object's
      key when the lookup found one. */
  function SavedDocument(inp: Document, sceneName: string, objName: string, lookup: Envelope): (d: Document)
    requires IsSuccessResponse(lookup) ==> HasFirst(lookup)
    ensures d.name == Some(objName) && d.scene == Some(sceneName)
    ensures d.key == if IsSuccessResponse(lookup) && IsNonEmpty(FoundKey(lookup)) then FoundKey(lookup) else inp.key
    ensures d.objType == inp.objType && d.subtype == inp.subtype && d.owner == inp.owner && d.assets == inp.assets
  {
    var keyed := if IsSuccessResponse(lookup) && IsNonEmpty(FoundKey(lookup))
                 then inp.(key := FoundKey(lookup)) else inp;
    keyed.(name := Some(objName)).(scene := Some(sceneName))
  }

  /** GET /{obj_name}: look the object up by name and scene. */
  method GetObject(dao: Dao, translate: Translation, sceneName: string, objName: string)
    returns (reply: Reply, calls: seq<DaoCall>)
    ensures calls == [QueryCall(NamedQuery(sceneName, objName))]
    ensures reply == Respond(dao(calls[0]), translate)
  {
    var call := QueryCall(NamedQuery(sceneName, objName));
    var response := dao(call);
    calls := [call];
    reply := Respond(response, translate);
  }

  /** POST /{obj_name}: update the object when the lookup finds it, create it
      otherwise. */
  method UpdateObject(dao: Dao, translate: Translation, sceneName: string, objName: string, inp: Document)
    returns (reply: Reply, calls: seq<DaoCall>)
    ensures 1 <= |calls| <= 2 && calls[0] == QueryCall(NamedQuery(sceneName, objName))
    ensures var lookup := dao(calls[0]);
      if IsSuccessResponse(lookup) && !HasFirst(lookup) then
        reply == Fault && |calls| == 1
      else
        |calls| == 2 &&
        (calls[1].UpdateCall? <==> IsSuccessResponse(lookup)) &&
        (calls[1].CreateCall? <==> !IsSuccessResponse(lookup)) &&
        calls[1].doc == SavedDocument(inp, sceneName, objName, lookup) &&
        reply == Respond(dao(calls[1]), translate)
  {
    var doc := inp;
    var queryCall := QueryCall(NamedQuery(sceneName, objName));
    var lookup := dao(queryCall);
    calls := [queryCall];
    var objectExists := false;
    if IsSuccessResponse(lookup) {
      objectExists := true;
      if !HasFirst(lookup) {
        reply := Fault;
        return;
      }
      var respKey := lookup.documents.value[0].key;
      if respKey.Some? && respKey.value != "" {
        doc := doc.(key := respKey);
      }
    }
    doc := doc.(name := Some(objName));
    doc := doc.(scene := Some(sceneName));
    var (saveCall, saved) := SaveObject(dao, doc, objectExists);
    calls := calls + [saveCall];
    reply := Respond(saved, translate);
  }

  /** DELETE /{obj_name}: destroy the object only when the lookup succeeds and
      names a non-empty key. */
  method DeleteObject(dao: Dao, translate: Translation, sceneName: string, objName: string)
    returns (reply: Reply, calls: seq<DaoCall>)
    ensures 1 <= |calls| <= 2 && calls[0] == QueryCall(NamedQuery(sceneName, objName))
    ensures var lookup := dao(calls[0]);
      (|calls| == 2 <==> IsSuccessResponse(lookup) && HasFirst(lookup) && IsNonEmpty(FoundKey(lookup))) &&
      (!IsSuccessResponse(lookup) ==> reply == Reply(EmptyDocument, InternalServerError)) &&
      (IsSuccessResponse(lookup) && !HasFirst(lookup) ==> reply == Fault) &&
      (IsSuccessResponse(lookup) && HasFirst(lookup) && !IsNonEmpty(FoundKey(lookup)) ==>
         reply == Reply(EmptyDocument, Ok)) &&
      (|calls| == 2 ==> calls[1] == DestroyCall(FoundKey(lookup)) && reply == Respond(dao(calls[1]), translate))
  {
    reply := Reply(EmptyDocument, Ok);
    var queryCall := QueryCall(NamedQuery(sceneName, objName));
    var lookup := dao(queryCall);
    calls := [queryCall];
    if IsSuccessResponse(lookup) {
      if !HasFirst(lookup) {
        reply := Fault;
        return;
      }
      var respKey := lookup.documents.value[0].key;
      if respKey.Some? && respKey.value != "" {
        var destroyCall := DestroyCall(respKey);
        var deleted := dao(destroyCall);
        calls := calls + [destroyCall];
        reply := Respond(deleted, translate);
      }
    } else {
      reply := Reply(EmptyDocument, InternalServerError);
    }
  }

  /** The filter document of a query: always the scene, and each of type,
      subtype and owner only when its request parameter is not empty. */
  function QueryFilter(sceneName: string, objType: string, subtype: string, owner: string): (q: Document)
    ensures q.scene == Some(sceneName)
    ensures q.objType == (if objType == "" then None else Some(objType))
    ensures q.subtype == (if subtype == "" then None else Some(subtype))
    ensures q.owner == (if owner == "" then None else Some(owner))
    ensures q.key == None && q.name == None && q.assets == None
  {
    var withScene := EmptyDocument.(scene := Some(sceneName));
    var withType := if objType == "" then withScene else withScene.(objType := Some(objType));
    var withSubtype := if subtype == "" then withType else withType.(subtype := Some(subtype));
    if owner == "" then withSubtype else withSubtype.(owner := Some(owner))
  }

  /** GET with request parameters: query by scene and the given filters. */
  method QueryObject(dao: Dao, translate: Translation, sceneName: string,
                     objType: string, subtype: string, owner: string)
    returns (reply: Reply, calls: seq<DaoCall>)
    ensures calls == [QueryCall(QueryFilter(sceneName, objType, subtype, owner))]
    ensures reply == Respond(dao(calls[0]), translate)
  {
    var filter := EmptyDocument.(scene := Some(sceneName));
    if objType != "" {
      filter := filter.(objType := Some(objType));
    }
    if subtype != "" {
      filter := filter.(subtype := Some(subtype));
    }
    if owner != "" {
      filter := filter.(owner := Some(owner));
    }
    var call := QueryCall(filter);
    var response := dao(call);
    calls := [call];
    reply := Respond(response, translate);
  }

  /** The shared lock/unlock flow: look the object up, then lock or unlock the
      key of the first document found, on behalf of `owner`. */
  method LockTransaction(dao: Dao, translate: Translation, sceneName: string, objName: string,
                         owner: string, isLocking: bool)
    returns (reply: Reply, calls: seq<DaoCall>)
    ensures 1 <= |calls| <= 2 && calls[0] == QueryCall(NamedQuery(sceneName, objName))
    ensures var lookup := dao(calls[0]);
      (|calls| == 2 <==> IsSuccessResponse(lookup) && HasFirst(lookup)) &&
      (!IsSuccessResponse(lookup) ==> reply == Reply(EmptyDocument, RequestedRangeNotSatisfiable)) &&
      (IsSuccessResponse(lookup) && !HasFirst(lookup) ==> reply == Fault) &&
      (|calls| == 2 ==>
         calls[1] == (if isLocking then LockCall(FoundKey(lookup), Some(owner))
                      else UnlockCall(FoundKey(lookup), Some(owner))) &&
         reply == Respond(dao(calls[1]), translate))
  {
    reply := Reply(EmptyDocument, Ok);
    var query := EmptyDocument.(scene := Some(sceneName));
    query := query.(name := Some(objName));
    var queryCall := QueryCall(query);
    var lookup := dao(queryCall);
    calls := [queryCall];
    if IsSuccessResponse(lookup) {
      if !HasFirst(lookup) {
        reply := Fault;
        return;
      }
      var key := lookup.documents.value[0].key;
      var lockCall := if isLocking then LockCall(key, Some(owner)) else UnlockCall(key, Some(owner));
      var lockResponse := dao(lockCall);
      calls := calls + [lockCall];
      reply := Respond(lockResponse, translate);
    } else {
      reply := Reply(EmptyDocument, RequestedRangeNotSatisfiable);
    }
  }

  /** GET /{obj_name}/lock: lock the object found for `owner`. */
  method LockObject(dao: Dao, translate: Translation, sceneName: string, objName: string, owner: string)
    returns (reply: Reply, calls: seq<DaoCall>)
    ensures 1 <= |calls| <= 2 && calls[0] == QueryCall(NamedQuery(sceneName, objName))
    ensures |calls| == 2 <==> IsSuccessResponse(dao(calls[0])) && HasFirst(dao(calls[0]))
    ensures |calls| == 2 ==> calls[1] == LockCall(FoundKey(dao(calls[0])), Some(owner))
    ensures !IsSuccessResponse(dao(calls[0])) ==> reply == Reply(EmptyDocument, RequestedRangeNotSatisfiable)
    ensures IsSuccessResponse(dao(calls[0])) && !HasFirst(dao(calls[0])) ==> reply == Fault
    ensures |calls| == 2 ==> reply == Respond(dao(calls[1]), translate)
  {
    reply, calls := LockTransaction(dao, translate, sceneName, objName, owner, true);
  }

  /** DELETE /{obj_name}/lock: unlock the object found for `owner`. */
  method UnlockObject(dao: Dao, translate: Translation, sceneName: string, objName: string, owner: string)
    returns (reply: Reply, calls: seq<DaoCall>)
    ensures 1 <= |calls| <= 2 && calls[0] == QueryCall(NamedQuery(sceneName, objName))
    ensures |calls| == 2 <==> IsSuccessResponse(dao(calls[0])) && HasFirst(dao(calls[0]))
    ensures |calls| == 2 ==> calls[1] == UnlockCall(FoundKey(dao(calls[0])), Some(owner))
    ensures !IsSuccessResponse(dao(calls[0])) ==> reply == Reply(EmptyDocument, RequestedRangeNotSatisfiable)
    ensures IsSuccessResponse(dao(calls[0])) && !HasFirst(dao(calls[0])) ==> reply == Fault
    ensures |calls| == 2 ==> reply == Respond(dao(calls[1]), translate)
  {
    reply, calls := LockTransaction(dao, translate, sceneName, objName, owner, false);
  }

  /** The sentinel of an unanswered transaction is never a success. */
  lemma SentinelIsNotSuccess(msgType: int)
    ensures !IsSuccessResponse(Sentinel(msgType))
  {
  }

  /** Wired to the CLyman connector over a transport that never answers, every
      DAO call fails the success test and every handler step built on it
      replies 416 with an empty document. */
  lemma UnreachableBackendRejectsEveryCall(b: Backend, call: DaoCall, translate: Translation)
    requires Unreachable(b)
    ensures !IsSuccessResponse(Perform(b, call))
    ensures Respond(Perform(b, call), translate) == Reply(EmptyDocument, RequestedRangeNotSatisfiable)
  {
    UnreachableYieldsSentinel(b, call);
  }
}
