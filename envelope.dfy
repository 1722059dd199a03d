/** What a handler sends back. JSON replies carry the `{responseCode,
    responseDescription}` envelope: "00" for success and "99" for a record that was
    not found or a list that came back empty. The business code is independent of
    the HTTP status, which stays at Express's default 200 unless a handler sets it. */
module Envelope {
  import opened Wrappers
  import opened Seqs

  const DefaultStatus: nat := 200
  const BadRequest: nat := 400
  const SuccessCode := "00"
  const NotFoundCode := "99"

  datatype Envelope<T> = Envelope(responseCode: string, responseDescription: string, data: Option<T>)

  datatype Response<T> =
    | NoResponse                              // an exception ended the handler before any reply
    | Text(status: nat, message: string)      // `res.status(400).send(error.details[0].message)`
    | Json(status: nat, envelope: Envelope<T>)

  /** `res.send({ <data>, responseCode: "00", ... })` at the default status. */
  function Success<T>(description: string, data: T): Response<T> {
    Json(DefaultStatus, Envelope(SuccessCode, description, Some(data)))
  }

  /** A success reply whose body carries no record. */
  function Done<T>(description: string): Response<T> {
    Json(DefaultStatus, Envelope(SuccessCode, description, None))
  }

  /** `res.send({ responseCode: "99", ... })`: not found, at the default status. */
  function Missing<T>(description: string): Response<T> {
    Json(DefaultStatus, Envelope(NotFoundCode, description, None))
  }

  /** A validator's first message, sent as plain text with status 400. */
  function Rejected<T>(message: string): Response<T> {
    Text(BadRequest, message)
  }

  /** The list endpoints' rule: an empty result is 400 with "99"; otherwise 200 with
      "00" and the whole result. */
  function ListResponse<T>(records: seq<T>): (r: Response<seq<T>>)
    ensures r.Json?
    ensures r.status == BadRequest <==> records == []
    ensures r.status == DefaultStatus <==> records != []
    ensures r.envelope.responseCode == NotFoundCode <==> records == []
    ensures r.envelope.responseCode == SuccessCode <==> records != []
    ensures r.envelope.data == (if records == [] then None else Some(records))
  {
    if |records| <= 0 then
      Json(BadRequest, Envelope(NotFoundCode, "No record found", None))
    else
      Json(DefaultStatus, Envelope(SuccessCode, "Succesfull", Some(records)))
  }

  /** A list endpoint over the records matching a query: "99" with status 400 exactly
      when no record matches, otherwise "00" with every matching record in stored order. */
  function MatchingList<T>(stored: seq<T>, matches: T -> bool): (r: Response<seq<T>>)
    ensures r.Json?
    ensures r.envelope.responseCode == NotFoundCode <==>
      forall i :: 0 <= i < |stored| ==> !matches(stored[i])
    ensures r.status == BadRequest <==> forall i :: 0 <= i < |stored| ==> !matches(stored[i])
    ensures r.envelope.responseCode == SuccessCode <==>
      exists i :: 0 <= i < |stored| && matches(stored[i])
    ensures r.status == DefaultStatus <==> exists i :: 0 <= i < |stored| && matches(stored[i])
    ensures r.envelope.responseCode == NotFoundCode ==> r.envelope.data == None
    ensures r.envelope.responseCode == SuccessCode ==>
      r.envelope.data == Some(Filter(stored, matches))
  {
    FilterEmpty(stored, matches);
    ListResponse(Filter(stored, matches))
  }
}
