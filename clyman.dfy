/** The CLyman connector (adrestia.ClymanConnector): each DAO verb wraps one
    document into a one-record envelope with the verb's operation code, sends
    it, and returns the decoded reply, or a fixed sentinel envelope when no
    reply could be obtained. */
module Clyman {
  import opened JavaValues
  import opened Envelopes

  /** The collaborators a transaction calls: JSON encoding of the request,
      the ZeroMQ exchange (which may answer null) and JSON decoding of the
      reply. Each of them may throw. */
  datatype Backend = Backend(
    encode: Envelope -> Outcome<string>,
    send: string -> Outcome<JString>,
    decode: string -> Outcome<Envelope>)

  const SuccessCode := 100
  const TransportErrorCode := 120
  const TransportErrorMessage := "Error Processing Request"

  /** The backend answered `request` with `reply`: the request was encoded,
      the exchange produced a non-null reply string, and that string decoded
      to `reply`. */
  ghost predicate Answered(b: Backend, request: Envelope, reply: Envelope)
  {
    exists message, text ::
      b.encode(request) == Returned(message) &&
      b.send(message) == Returned(Some(text)) &&
      b.decode(text) == Returned(reply)
  }

  /** The envelope returned when no reply was obtained. It claims one record
      while its document array is empty. */
  function Sentinel(msgType: int): (r: Envelope)
    ensures r.msgType == msgType && r.errorCode == 120 && r.errorMessage == Some("Error Processing Request")
    ensures r.numRecords == 1 && r.documents == Some([]) && r.transactionId == Some("")
  {
    Envelope(msgType, 1, Some([]), TransportErrorCode, Some(TransportErrorMessage), Some(""))
  }

  /** `transaction`: never throws. A decoded reply is returned verbatim, without
      any check of its contents; every other path yields the sentinel carrying
      the request's message type. */
  function Transaction(b: Backend, request: Envelope): (r: Envelope)
    ensures forall reply :: Answered(b, request, reply) ==> r == reply
    ensures !(exists reply :: Answered(b, request, reply)) ==>
      r.msgType == request.msgType && r.numRecords == 1 && r.documents == Some([]) &&
      r.errorCode == 120 && r.errorMessage == Some("Error Processing Request") &&
      r.transactionId == Some("")
  {
    var fallback := Sentinel(request.msgType);
    match b.encode(request)
    case Threw => fallback
    case Returned(message) =>
      match b.send(message)
      case Threw => fallback
      case Returned(None) => fallback
      case Returned(Some(text)) =>
        match b.decode(text)
        case Threw => fallback
        case Returned(reply) =>
          assert Answered(b, request, reply);
          reply
  }

  /** `buildObjectList`: a one-record envelope around `doc`. */
  function BuildObjectList(doc: Document, msgType: int): (r: Envelope)
    ensures r.msgType == msgType && r.numRecords == 1 && r.documents == Some([doc])
    ensures r.errorCode == 100 && r.errorMessage == Some("") && r.transactionId == Some("")
  {
    Envelope(msgType, 1, Some([doc]), SuccessCode, Some(""), Some(""))
  }

  /** `crudTransaction`: send `doc` alone under `msgType`. A reply is returned
      as decoded; without one the sentinel carries `msgType`. */
  function CrudTransaction(b: Backend, doc: Document, msgType: int): (r: Envelope)
    ensures forall reply :: Answered(b, BuildObjectList(doc, msgType), reply) ==> r == reply
    ensures !(exists reply :: Answered(b, BuildObjectList(doc, msgType), reply)) ==> r == Sentinel(msgType)
  {
    Transaction(b, BuildObjectList(doc, msgType))
  }

  /** `lockTransaction`: send a fresh document carrying only a key and an
      owner. */
  function LockTransaction(b: Backend, docKey: JString, ownerKey: JString, msgType: int): (r: Envelope)
    ensures r == CrudTransaction(b, Document(docKey, None, None, None, ownerKey, None, None), msgType)
  {
    CrudTransaction(b, EmptyDocument.(key := docKey, owner := ownerKey), msgType)
  }

  function Create(b: Backend, doc: Document): (r: Envelope)
    ensures r == Transaction(b, Envelope(0, 1, Some([doc]), 100, Some(""), Some("")))
  {
    CrudTransaction(b, doc, 0)
  }

  function Update(b: Backend, doc: Document): (r: Envelope)
    ensures r == Transaction(b, Envelope(1, 1, Some([doc]), 100, Some(""), Some("")))
  {
    CrudTransaction(b, doc, 1)
  }

  function Get(b: Backend, docKey: JString): (r: Envelope)
    ensures r == Transaction(b, Envelope(2, 1, Some([Document(docKey, None, None, None, None, None, None)]),
                                         100, Some(""), Some("")))
  {
    CrudTransaction(b, EmptyDocument.(key := docKey), 2)
  }

  function Destroy(b: Backend, docKey: JString): (r: Envelope)
    ensures r == Transaction(b, Envelope(3, 1, Some([Document(docKey, None, None, None, None, None, None)]),
                                         100, Some(""), Some("")))
  {
    CrudTransaction(b, EmptyDocument.(key := docKey), 3)
  }

  function Query(b: Backend, doc: Document): (r: Envelope)
    ensures r == Transaction(b, Envelope(4, 1, Some([doc]), 100, Some(""), Some("")))
  {
    CrudTransaction(b, doc, 4)
  }

  function Lock(b: Backend, docKey: JString, ownerKey: JString): (r: Envelope)
    ensures r == Transaction(b, Envelope(5, 1, Some([Document(docKey, None, None, None, ownerKey, None, None)]),
                                         100, Some(""), Some("")))
  {
    LockTransaction(b, docKey, ownerKey, 5)
  }

  function Unlock(b: Backend, docKey: JString, ownerKey: JString): (r: Envelope)
    ensures r == Transaction(b, Envelope(6, 1, Some([Document(docKey, None, None, None, ownerKey, None, None)]),
                                         100, Some(""), Some("")))
  {
    LockTransaction(b, docKey, ownerKey, 6)
  }

  /** The calls of the ObjectDao interface, which this connector implements. */
  datatype DaoCall =
    | CreateCall(doc: Document)
    | UpdateCall(doc: Document)
    | GetCall(key: JString)
    | DestroyCall(key: JString)
    | QueryCall(doc: Document)
    | LockCall(key: JString, owner: JString)
    | UnlockCall(key: JString, owner: JString)

  /** The wire operation code of each verb. */
  function OpCode(call: DaoCall): (code: int)
    ensures 0 <= code <= 6
  {
    match call
    case CreateCall(_) => 0
    case UpdateCall(_) => 1
    case GetCall(_) => 2
    case DestroyCall(_) => 3
    case QueryCall(_) => 4
    case LockCall(_, _) => 5
    case UnlockCall(_, _) => 6
  }

  /** Serving one DAO call with this connector. */
  function Perform(b: Backend, call: DaoCall): Envelope
  {
    match call
    case CreateCall(d) => Create(b, d)
    case UpdateCall(d) => Update(b, d)
    case GetCall(k) => Get(b, k)
    case DestroyCall(k) => Destroy(b, k)
    case QueryCall(d) => Query(b, d)
    case LockCall(k, o) => Lock(b, k, o)
    case UnlockCall(k, o) => Unlock(b, k, o)
  }

  /** The one document each verb sends: the argument document for create,
      update and query, and a fresh document otherwise. */
  function SentDocument(call: DaoCall): Document
  {
    match call
    case CreateCall(d) => d
    case UpdateCall(d) => d
    case GetCall(k) => EmptyDocument.(key := k)
    case DestroyCall(k) => EmptyDocument.(key := k)
    case QueryCall(d) => d
    case LockCall(k, o) => EmptyDocument.(key := k, owner := o)
    case UnlockCall(k, o) => EmptyDocument.(key := k, owner := o)
  }

  /** Every verb is a `crudTransaction` of its document under the code the
      table gives it, whatever the backend does. */
  lemma PerformIsCrudTransaction(b: Backend, call: DaoCall)
    ensures Perform(b, call) == CrudTransaction(b, SentDocument(call), OpCode(call))
  {
  }

  /** Different verbs never share an operation code. */
  lemma OpCodesDistinguishVerbs(c1: DaoCall, c2: DaoCall)
    requires OpCode(c1) == OpCode(c2)
    ensures c1.CreateCall? <==> c2.CreateCall?
    ensures c1.UpdateCall? <==> c2.UpdateCall?
    ensures c1.GetCall? <==> c2.GetCall?
    ensures c1.DestroyCall? <==> c2.DestroyCall?
    ensures c1.QueryCall? <==> c2.QueryCall?
    ensures c1.LockCall? <==> c2.LockCall?
    ensures c1.UnlockCall? <==> c2.UnlockCall?
  {
  }

  /** The transport never answers: it throws or replies null to every message. */
  ghost predicate Unreachable(b: Backend)
  {
    forall message :: b.send(message) == Threw || b.send(message) == Returned(None)
  }

  /** Against an unreachable backend every verb yields the sentinel for its own
      operation code: one counted record, no documents, error code 120. */
  lemma UnreachableYieldsSentinel(b: Backend, call: DaoCall)
    requires Unreachable(b)
    ensures Perform(b, call) == Sentinel(OpCode(call))
  {
    match call
    case CreateCall(d) =>
    case UpdateCall(d) =>
    case GetCall(k) =>
    case DestroyCall(k) =>
    case QueryCall(d) =>
    case LockCall(k, o) =>
    case UnlockCall(k, o) =>
  }
}
