/**
  What a handler sends back: a status code and a JSON body. Each body
  constructor is one JSON shape the routes produce.
 */
module Http {
  import opened Wrappers
  import opened Schema

  /**
    A session token as `jwt.sign({ userId }, secret, { expiresIn: "7d" })`
    issues it; signing is opaque, so the token is identified by its subject.
   */
  datatype Token = Token(userId: int)

  datatype Body =
    | TrackerJson(tracker: Tracker)               // a tracker row
    | TrackerListJson(trackers: set<Tracker>)     // an array of tracker rows, order unspecified
    | Message(message: string)                    // { message }
    | Error(error: string)                        // { error: "<text>" }
    | IssueList(paths: set<string>)               // { error: issues }, one path per failing field
    | TokenJson(token: Token)                     // { token }
    | ProfileJson(fullName: string, email: string) // { fullName, email }

  datatype Response = Response(status: int, body: Body)

  /** The answer of both the auth gate and GET `/user/me` when the id has no row. */
  const UserNotFound := Response(404, Error("User not found"))

  /** The outcome of validating a request body against a schema. */
  datatype Parsed<T> = Accepted(value: T) | Rejected(paths: set<string>)

  /** `validateBody` answers a schema mismatch with 400 and the failing fields. */
  function ValidationFailure(paths: set<string>): Response
  {
    Response(400, IssueList(paths))
  }

  /** A JSON field holding a string whose length is within [min, max]. */
  predicate StringWithin(v: Option<string>, min: nat, max: nat)
  {
    v.Some? && min <= |v.value| <= max
  }

  /** The path of a field that fails its check, or nothing when it passes. */
  function Issue(path: string, ok: bool): set<string>
  {
    if ok then {} else {path}
  }
}
