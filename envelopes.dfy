/** The request/response envelope exchanged with the CLyman document store
    (adrestia.ObjectList) and the scene-object documents it carries. */
module Envelopes {
  import opened JavaValues

  /** A scene-object document (adrestia.ObjectDocument). Only its string fields
      and its asset list are kept; its floating-point transform arrays are not
      part of this model. */
  datatype Document = Document(
    key: JString,
    name: JString,
    objType: JString,
    subtype: JString,
    owner: JString,
    scene: JString,
    assets: Option<seq<string>>)

  /** `new ObjectDocument()`: every reference field is null. */
  const EmptyDocument := Document(None, None, None, None, None, None, None)

  /** The value held by an ObjectList at one moment: message type (the operation
      code), record count, document array (null allowed), error code, error
      message and transaction id. Nothing ties `numRecords` to the number of
      documents. */
  datatype Envelope = Envelope(
    msgType: int,
    numRecords: int,
    documents: Option<seq<Document>>,
    errorCode: int,
    errorMessage: JString,
    transactionId: JString)

  /** The mutable envelope record: six private fields, each with a getter and a
      setter. */
  class ObjectList {
    var msgType: int
    var numRecords: int
    var documents: Option<seq<Document>>
    var errorCode: int
    var errorMessage: JString
    var transactionId: JString

    /** The envelope this record currently holds. */
    function Value(): Envelope
      reads this
    {
      Envelope(msgType, numRecords, documents, errorCode, errorMessage, transactionId)
    }

    /** The no-argument constructor: Java's default field values. */
    constructor Empty()
      ensures Value() == Envelope(0, 0, None, 0, None, None)
    {
      msgType, numRecords, documents := 0, 0, None;
      errorCode, errorMessage, transactionId := 0, None, None;
    }

    /** The six-argument constructor stores each argument in its own field. */
    constructor (msgType: int, numRecords: int, documents: Option<seq<Document>>,
                 errorCode: int, errorMessage: JString, transactionId: JString)
      ensures Value() == Envelope(msgType, numRecords, documents, errorCode, errorMessage, transactionId)
    {
      this.msgType := msgType;
      this.numRecords := numRecords;
      this.documents := documents;
      this.errorCode := errorCode;
      this.errorMessage := errorMessage;
      this.transactionId := transactionId;
    }

    method GetMsgType() returns (r: int)
      ensures r == Value().msgType
    {
      r := msgType;
    }

    method GetNumRecords() returns (r: int)
      ensures r == Value().numRecords
    {
      r := numRecords;
    }

    method GetDocuments() returns (r: Option<seq<Document>>)
      ensures r == Value().documents
    {
      r := documents;
    }

    method GetErrorCode() returns (r: int)
      ensures r == Value().errorCode
    {
      r := errorCode;
    }

    method GetErrorMessage() returns (r: JString)
      ensures r == Value().errorMessage
    {
      r := errorMessage;
    }

    method GetTransactionId() returns (r: JString)
      ensures r == Value().transactionId
    {
      r := transactionId;
    }

    method SetMsgType(msgType: int)
      modifies this
      ensures Value() == old(Value()).(msgType := msgType)
    {
      this.msgType := msgType;
    }

    method SetNumRecords(numRecords: int)
      modifies this
      ensures Value() == old(Value()).(numRecords := numRecords)
    {
      this.numRecords := numRecords;
    }

    /** Replacing the documents leaves the record count as it was. */
    method SetDocuments(documents: Option<seq<Document>>)
      modifies this
      ensures Value() == old(Value()).(documents := documents)
      ensures numRecords == old(numRecords)
    {
      this.documents := documents;
    }

    method SetErrorCode(errorCode: int)
      modifies this
      ensures Value() == old(Value()).(errorCode := errorCode)
    {
      this.errorCode := errorCode;
    }

    method SetErrorMessage(errorMessage: JString)
      modifies this
      ensures Value() == old(Value()).(errorMessage := errorMessage)
    {
      this.errorMessage := errorMessage;
    }

    method SetTransactionId(transactionId: JString)
      modifies this
      ensures Value() == old(Value()).(transactionId := transactionId)
    {
      this.transactionId := transactionId;
    }
  }

  /** Calling setDocuments on a one-record envelope with an empty array leaves
      an envelope that counts one record and holds none: the count is not an
      invariant of the record. */
  method CountNotTiedToDocuments() returns (e: Envelope)
    ensures e.numRecords == 1 && e.documents == Some([])
  {
    var list := new ObjectList(0, 1, Some([EmptyDocument]), 100, Some(""), Some(""));
    list.SetDocuments(Some([]));
    e := list.Value();
  }
}
