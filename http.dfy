/**
 * What the bridge learns from one HTTP request: a status code, or a
 * transport failure (`requests` raising `RequestException`).
 */
module Http {

  datatype Reply = Status(code: int) | RequestFailed

  /** The API probe passes on status 200 only. */
  predicate Answers200(r: Reply) {
    r.Status? && r.code == 200
  }

  /** A POST of a reading counts as sent on status 201 only. */
  predicate Created(r: Reply) {
    r.Status? && r.code == 201
  }

  /** A send succeeds on exactly one status; a reply acceptable to the probe is not a successful send, and a transport failure is neither. */
  lemma SendSucceedsOnlyOn201(r: Reply)
    ensures Created(r) <==> r == Status(201)
    ensures Answers200(r) ==> !Created(r)
    ensures r.RequestFailed? ==> !Created(r) && !Answers200(r)
  {
  }
}
