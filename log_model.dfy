/**
 * The persisted log schema: a document is built from the fields a handler
 * supplies, the `ts` default is filled in when it is built, and `save`
 * checks the required paths before anything is written.
 */
module LogModel {
  import opened Wrappers

  /** The fields handed to the model's constructor; any of them may be absent. */
  datatype LogDoc = LogDoc(
    kind: Option<string>,
    detail: Option<string>,
    ts: Option<int>,
    sessionId: Option<string>,
    candidateId: Option<string>)

  /** A row that passed validation: `type`, `ts` and `sessionId` are always there. */
  datatype LogRecord = LogRecord(
    kind: string,
    detail: Option<string>,
    ts: int,
    sessionId: string,
    candidateId: Option<string>)

  /** The paths whose `required` check failed. */
  datatype ValidationError = ValidationError(missing: set<string>)

  /** The `required` check of a String path: the value is there and is not the empty string. */
  predicate RequiredString(v: Option<string>): (ok: bool)
    ensures ok <==> v != None && v != Some("")
  {
    v.Some? && v.value != ""
  }

  /** The schema default: a document built without `ts` gets the construction time. */
  function ApplyDefaults(doc: LogDoc, now: int): (r: LogDoc)
    ensures r.ts.Some?
    ensures doc.ts.Some? ==> r.ts == doc.ts
    ensures doc.ts.None? ==> r.ts == Some(now)
    ensures r.(ts := doc.ts) == doc
  {
    match doc.ts
    case Some(_) => doc
    case None => doc.(ts := Some(now))
  }

  function MissingPaths(doc: LogDoc): set<string> {
    (if RequiredString(doc.kind) then {} else {"type"}) +
    (if RequiredString(doc.sessionId) then {} else {"sessionId"})
  }

  /**
   * Builds the document at time `now` and validates it: it is accepted exactly
   * when `type` and `sessionId` pass their `required` checks; `detail` and
   * `candidateId` are optional and are kept as given.
   */
  function Validate(doc: LogDoc, now: int): (r: Result<LogRecord, ValidationError>)
    ensures r.Success? <==> RequiredString(doc.kind) && RequiredString(doc.sessionId)
    ensures r.Failure? ==>
      && ("type" in r.error.missing <==> !RequiredString(doc.kind))
      && ("sessionId" in r.error.missing <==> !RequiredString(doc.sessionId))
      && r.error.missing <= {"type", "sessionId"}
    ensures r.Success? ==>
      && Some(r.value.kind) == doc.kind
      && Some(r.value.sessionId) == doc.sessionId
      && r.value.detail == doc.detail
      && r.value.candidateId == doc.candidateId
      && (doc.ts.Some? ==> r.value.ts == doc.ts.value)
      && (doc.ts.None? ==> r.value.ts == now)
  {
    var d := ApplyDefaults(doc, now);
    if MissingPaths(d) == {} then
      Success(LogRecord(d.kind.value, d.detail, d.ts.value, d.sessionId.value, d.candidateId))
    else
      Failure(ValidationError(MissingPaths(d)))
  }

  /** A stored row, read back as the fields of a document. */
  function ToDoc(rec: LogRecord): LogDoc {
    LogDoc(Some(rec.kind), rec.detail, Some(rec.ts), Some(rec.sessionId), rec.candidateId)
  }

  /** Validation is idempotent: any row it produced validates again to itself, at any time. */
  lemma RevalidateStored(doc: LogDoc, now: int, later: int)
    requires Validate(doc, now).Success?
    ensures Validate(ToDoc(Validate(doc, now).value), later) == Validate(doc, now)
  {
  }
}
