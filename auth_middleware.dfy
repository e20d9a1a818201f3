/**
  The auth gate in front of every protected route: read the Authorization
  header, strip the bearer prefix, verify the token, and resolve its subject
  against the users table. Token verification, signature and expiry
  included, is the opaque function `verify`.
 */
module Auth {
  import opened Wrappers
  import opened Schema
  import opened Http
  import opened UserRoutes

  const NoTokenProvided := Response(401, Error("No token provided"))
  const InvalidOrExpired := Response(403, Error("Invalid or expired token"))
  const BearerPrefix := "Bearer "

  /** `pat` occurs in `s` starting at index `i`. */
  predicate OccursAt(s: string, pat: string, i: int)
  {
    0 <= i && i + |pat| <= |s| && s[i..i + |pat|] == pat
  }

  lemma OccursAtTail(s: string, pat: string, j: int)
    requires |s| > 0 && 0 <= j
    ensures OccursAt(s[1..], pat, j) <==> OccursAt(s, pat, j + 1)
  {
  }

  /** The first index at which `pat` occurs in `s`, as `String.prototype.indexOf` finds it. */
  function IndexOf(s: string, pat: string): (r: Option<nat>)
    ensures r.Some? ==> OccursAt(s, pat, r.value)
    ensures r.Some? ==> forall j :: 0 <= j < r.value ==> !OccursAt(s, pat, j)
    ensures r.None? ==> forall j :: !OccursAt(s, pat, j)
    decreases |s|
  {
    if |s| < |pat| then None
    else if s[..|pat|] == pat then Some(0)
    else
      var rest := IndexOf(s[1..], pat);
      assert forall j :: 0 <= j ==> (OccursAt(s[1..], pat, j) <==> OccursAt(s, pat, j + 1)) by {
        forall j | 0 <= j ensures OccursAt(s[1..], pat, j) <==> OccursAt(s, pat, j + 1) {
          OccursAtTail(s, pat, j);
        }
      }
      assert forall j :: OccursAt(s, pat, j) ==> j == 0 || OccursAt(s[1..], pat, j - 1);
      match rest
      case None => None
      case Some(i) => Some(i + 1)
  }

  /** `s.replace(pat, rep)` with a string pattern: only the first occurrence is replaced. */
  function ReplaceFirst(s: string, pat: string, rep: string): string
  {
    match IndexOf(s, pat)
    case None => s
    case Some(i) => s[..i] + rep + s[i + |pat|..]
  }

  /**
    `authHeader.replace("Bearer ", "")`: the first occurrence of the prefix,
    wherever it stands, is cut out, and a header without one is kept whole.
   */
  function ExtractToken(header: string): (t: string)
    ensures (forall j :: !OccursAt(header, BearerPrefix, j)) ==> t == header
    ensures forall i :: OccursAt(header, BearerPrefix, i) && (forall j :: 0 <= j < i ==> !OccursAt(header, BearerPrefix, j)) ==>
      t == header[..i] + header[i + |BearerPrefix|..]
  {
    ReplaceFirst(header, BearerPrefix, "")
  }

  /** The usual header `Bearer <t>` yields `<t>`, whatever `<t>` holds. */
  lemma BearerTokenExtracted(t: string)
    ensures ExtractToken(BearerPrefix + t) == t
  {
  }

  /** What the gate does with a request: answer it, or let it through as a user. */
  datatype GateOutcome = Reject(response: Response) | Proceed(user: User)

  /** The header is there and is not the empty string. */
  predicate HeaderPresent(authorization: Option<string>)
  {
    authorization.Some? && authorization.value != ""
  }

  /**
    The decision of the gate. An absent header is 401; a token that does not
    verify, or a lookup that fails, is 403; a verified subject without a row
    is 404; otherwise the stored row of the subject is the caller.
   */
  function Gate(authorization: Option<string>, verify: string -> Option<int>, users: map<int, User>, lookupFault: bool)
    : (o: GateOutcome)
    ensures o == Reject(NoTokenProvided) <==> !HeaderPresent(authorization)
    ensures o == Reject(InvalidOrExpired) <==>
      HeaderPresent(authorization) && (verify(ExtractToken(authorization.value)).None? || lookupFault)
    ensures o == Reject(UserNotFound) <==>
      && HeaderPresent(authorization) && !lookupFault
      && verify(ExtractToken(authorization.value)).Some?
      && verify(ExtractToken(authorization.value)).value !in users
    ensures o.Proceed? <==>
      && HeaderPresent(authorization) && !lookupFault
      && verify(ExtractToken(authorization.value)).Some?
      && verify(ExtractToken(authorization.value)).value in users
    ensures o.Proceed? ==> o.user == users[verify(ExtractToken(authorization.value)).value]
    ensures o.Reject? ==> o.response in {NoTokenProvided, InvalidOrExpired, UserNotFound}
  {
    if !HeaderPresent(authorization) then Reject(NoTokenProvided)
    else
      match verify(ExtractToken(authorization.value))
      case None => Reject(InvalidOrExpired)
      case Some(id) =>
        if lookupFault then Reject(InvalidOrExpired)
        else if id in users then Proceed(users[id])
        else Reject(UserNotFound)
  }

  /** A well-formed header whose token verifies to an existing user lets that user's stored row through. */
  lemma BearerOfKnownUserProceeds(t: string, verify: string -> Option<int>, users: map<int, User>, id: int)
    requires verify(t) == Some(id) && id in users
    ensures Gate(Some(BearerPrefix + t), verify, users, false) == Proceed(users[id])
  {
    BearerTokenExtracted(t);
  }

  /** The request object; `user` is `req.user`, set by the gate. */
  class Request {
    var user: Option<User>

    constructor ()
      ensures user == None
    {
      user := None;
    }
  }

  /**
    `authMiddleware`: on every path it either sends exactly one response
    or sets `req.user` and calls `next` exactly once, as `Gate` decides.
   */
  method AuthMiddleware(req: Request, authorization: Option<string>, verify: string -> Option<int>,
                        users: UserTable, lookupFault: bool)
    returns (sent: Option<Response>, nextCalls: nat)
    requires users.Valid()
    modifies req
    ensures (sent.Some? && nextCalls == 0) || (sent.None? && nextCalls == 1)
    ensures Gate(authorization, verify, users.rows, lookupFault).Reject? ==>
      sent == Some(Gate(authorization, verify, users.rows, lookupFault).response) && req.user == old(req.user)
    ensures Gate(authorization, verify, users.rows, lookupFault).Proceed? ==>
      nextCalls == 1 && req.user == Some(Gate(authorization, verify, users.rows, lookupFault).user)
  {
    sent, nextCalls := None, 0;
    if authorization.None? || authorization.value == "" {
      sent := Some(NoTokenProvided);
      return;
    }
    var token := ExtractToken(authorization.value);
    var decoded := verify(token);
    if decoded.None? {
      // jwt.verify threw
      sent := Some(InvalidOrExpired);
      return;
    }
    if lookupFault {
      // the lookup threw, and the same catch answers it
      sent := Some(InvalidOrExpired);
      return;
    }
    var found := UsersWithId(users.rows, decoded.value);
    UserIdQuery(users.rows, users.nextId, decoded.value);
    if found == {} {
      sent := Some(UserNotFound);
      return;
    }
    var k :| k in found;
    req.user := Some(users.rows[k]);
    nextCalls := nextCalls + 1;
  }
}
