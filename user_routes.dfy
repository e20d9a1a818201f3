/**
  The `/user` routes: the body schemas, account creation, credential check
  and the caller's profile. Password hashing and comparison are the opaque
  functions `hash` and `compare`; a token is issued as `Token(id)`.
 */
module UserRoutes {
  import opened Wrappers
  import opened Schema
  import opened Http

  const InvalidCredentials := Response(401, Error("Invalid credentials"))
  const ServerError := Response(500, Error("Internal server error"))
  /** What the signup transaction throws for an email already in use. */
  const EmailExists := "Email already exists"

  /** A signup request body as received; `None` is a field that is absent or not a string. */
  datatype SignupInput = SignupInput(fullName: Option<string>, email: Option<string>, password: Option<string>)
  datatype SignupBody = SignupBody(fullName: string, email: string, password: string)

  datatype LoginInput = LoginInput(email: Option<string>, password: Option<string>)
  datatype LoginBody = LoginBody(email: string, password: string)

  /** A field holding an email address, as the format check `isEmail` judges it. */
  predicate EmailField(v: Option<string>, isEmail: string -> bool)
  {
    v.Some? && isEmail(v.value)
  }

  /**
    `signupSchema`: fullName non-empty, email well-formed, password at least
    six characters; no upper bound on any of them.
   */
  function ParseSignupBody(input: SignupInput, isEmail: string -> bool): (r: Parsed<SignupBody>)
    ensures r.Accepted? <==>
      && input.fullName.Some? && 1 <= |input.fullName.value|
      && input.email.Some? && isEmail(input.email.value)
      && input.password.Some? && 6 <= |input.password.value|
    ensures r.Accepted? ==>
      input.fullName == Some(r.value.fullName) && input.email == Some(r.value.email) && input.password == Some(r.value.password)
    ensures r.Rejected? ==>
      && ("fullName" in r.paths <==> !(input.fullName.Some? && 1 <= |input.fullName.value|))
      && ("email" in r.paths <==> !EmailField(input.email, isEmail))
      && ("password" in r.paths <==> !(input.password.Some? && 6 <= |input.password.value|))
      && r.paths <= {"fullName", "email", "password"}
  {
    var paths :=
      Issue("fullName", input.fullName.Some? && 1 <= |input.fullName.value|)
      + Issue("email", EmailField(input.email, isEmail))
      + Issue("password", input.password.Some? && 6 <= |input.password.value|);
    if paths == {} then Accepted(SignupBody(input.fullName.value, input.email.value, input.password.value))
    else Rejected(paths)
  }

  /** `loginSchema`: a well-formed email and any string as password. */
  function ParseLoginBody(input: LoginInput, isEmail: string -> bool): (r: Parsed<LoginBody>)
    ensures r.Accepted? <==> EmailField(input.email, isEmail) && input.password.Some?
    ensures r.Accepted? ==> input.email == Some(r.value.email) && input.password == Some(r.value.password)
    ensures r.Rejected? ==>
      && ("email" in r.paths <==> !EmailField(input.email, isEmail))
      && ("password" in r.paths <==> input.password.None?)
      && r.paths <= {"email", "password"}
  {
    var paths := Issue("email", EmailField(input.email, isEmail)) + Issue("password", input.password.Some?);
    if paths == {} then Accepted(LoginBody(input.email.value, input.password.value))
    else Rejected(paths)
  }

  /** How the signup transaction callback ends: it returns the inserted row or throws. */
  datatype TransactionResult = Committed(user: User) | Threw(message: string)

  /**
    The `users` table. `rows` maps each generated id to its row and `nextId`
    is the next value of the identity column.
   */
  class UserTable {
    var rows: map<int, User>
    var nextId: int

    ghost predicate Valid()
      reads this
    {
      UsersInvariant(rows, nextId)
    }

    constructor ()
      ensures Valid() && rows == map[] && nextId == 1
    {
      rows := map[];
      nextId := 1;
    }

    /**
      The transaction inside POST `/signup`: look the email up, throw when it
      is taken, otherwise insert the row. Each value is assigned to its
      varchar column as `StoreUser` says; the insert fails, and the
      transaction rolls back, when a value is refused, when the email as
      stored (cut of trailing spaces) is already in use, or when the store
      fails.
     */
    method SignupTransaction(fullName: string, email: string, passwordHash: string, storeFault: bool)
      returns (tx: TransactionResult)
      requires Valid()
      modifies this
      ensures Valid()
      ensures tx.Threw? ==> rows == old(rows) && nextId == old(nextId)
      ensures UsersWithEmail(old(rows), email) != {} ==> tx == Threw(EmailExists)
      ensures UsersWithEmail(old(rows), email) == {} ==>
        var stored := StoreUser(old(nextId), fullName, email, passwordHash);
        (tx.Committed? <==> !storeFault && stored.Some? && UsersWithEmail(old(rows), stored.value.email) == {})
      ensures tx.Committed? ==>
        && Some(tx.user) == StoreUser(old(nextId), fullName, email, passwordHash)
        && old(nextId) !in old(rows)
        && rows == old(rows)[old(nextId) := tx.user]
        && nextId == old(nextId) + 1
    {
      var existing := UsersWithEmail(rows, email);
      if existing != {} {
        return Threw(EmailExists);
      }
      var stored := StoreUser(nextId, fullName, email, passwordHash);
      if storeFault || stored.None? {
        return Threw("insert failed");
      }
      var user := stored.value;
      // an email cut of its trailing spaces can equal one already stored
      var clashing := UsersWithEmail(rows, user.email);
      if clashing != {} {
        return Threw("duplicate key value violates unique constraint");
      }
      forall k | k in rows ensures rows[k].email != user.email {
        assert k !in clashing;
      }
      InsertKeepsEmailsUnique(rows, user);
      rows := rows[nextId := user];
      nextId := nextId + 1;
      tx := Committed(user);
    }

    /**
      POST `/signup`: validate, hash the password, run the transaction and
      issue a token for the new id. A taken email makes the transaction
      throw, so the outer handler answers 500; the 400 branch written for
      that case never runs.
     */
    method Signup(input: SignupInput, isEmail: string -> bool, hash: string -> string, storeFault: bool)
      returns (r: Response)
      requires Valid()
      modifies this
      ensures Valid()
      ensures r != Response(400, Error(EmailExists))
      ensures ParseSignupBody(input, isEmail).Rejected? ==>
        r == ValidationFailure(ParseSignupBody(input, isEmail).paths) && rows == old(rows) && nextId == old(nextId)
      ensures ParseSignupBody(input, isEmail).Accepted? ==>
        var b := ParseSignupBody(input, isEmail).value;
        var stored := StoreUser(old(nextId), b.fullName, b.email, hash(b.password));
        var inserts := UsersWithEmail(old(rows), b.email) == {} && !storeFault
          && stored.Some? && UsersWithEmail(old(rows), stored.value.email) == {};
        && (UsersWithEmail(old(rows), b.email) != {} ==> !inserts)
        && (!inserts ==> r == ServerError && rows == old(rows) && nextId == old(nextId))
        && (inserts ==>
              && old(nextId) !in old(rows)
              && rows == old(rows)[old(nextId) := stored.value]
              && nextId == old(nextId) + 1
              && r == Response(200, TokenJson(Token(old(nextId)))))
    {
      match ParseSignupBody(input, isEmail)
      case Rejected(paths) =>
        r := ValidationFailure(paths);
      case Accepted(body) =>
        var passwordHash := hash(body.password);
        var tx := SignupTransaction(body.fullName, body.email, passwordHash, storeFault);
        match tx
        case Threw(_) =>
          // a rejected transaction propagates its error to the outer catch
          r := ServerError;
        case Committed(user) =>
          r := Response(200, TokenJson(Token(user.id)));
    }

    /**
      POST `/login`: the same 401 answers an unknown email and a wrong
      password; otherwise a token for the matching user.
     */
    method Login(input: LoginInput, isEmail: string -> bool, compare: (string, string) -> bool, storeFault: bool)
      returns (r: Response)
      requires Valid()
      ensures ParseLoginBody(input, isEmail).Rejected? ==> r == ValidationFailure(ParseLoginBody(input, isEmail).paths)
      ensures ParseLoginBody(input, isEmail).Accepted? && storeFault ==> r == ServerError
      ensures ParseLoginBody(input, isEmail).Accepted? && !storeFault ==>
        var b := ParseLoginBody(input, isEmail).value;
        && (UsersWithEmail(rows, b.email) == {} ==> r == InvalidCredentials)
        && (forall k :: k in rows && rows[k].email == b.email ==>
              r == if compare(b.password, rows[k].passwordHash) then Response(200, TokenJson(Token(k))) else InvalidCredentials)
      ensures r.status == 200 ==>
        && ParseLoginBody(input, isEmail).Accepted? && !storeFault
        && r.body.TokenJson? && r.body.token.userId in rows
        && rows[r.body.token.userId].email == ParseLoginBody(input, isEmail).value.email
        && compare(ParseLoginBody(input, isEmail).value.password, rows[r.body.token.userId].passwordHash)
    {
      match ParseLoginBody(input, isEmail)
      case Rejected(paths) =>
        r := ValidationFailure(paths);
      case Accepted(body) =>
        if storeFault {
          return ServerError;
        }
        var found := UsersWithEmail(rows, body.email);
        UserEmailQuery(rows, nextId, body.email);
        if found == {} {
          return InvalidCredentials;
        }
        var k :| k in rows && rows[k].email == body.email;
        var user := rows[k];
        if !compare(body.password, user.passwordHash) {
          return InvalidCredentials;
        }
        r := Response(200, TokenJson(Token(user.id)));
    }

    /** GET `/me`: the caller's name and email, and nothing else of the row; 404 when the id has no row. */
    method Me(callerId: int, storeFault: bool) returns (r: Response)
      requires Valid()
      ensures storeFault ==> r == ServerError
      ensures !storeFault && callerId in rows ==> r == Response(200, ProfileJson(rows[callerId].fullName, rows[callerId].email))
      ensures !storeFault && callerId !in rows ==> r == UserNotFound
    {
      if storeFault {
        return ServerError;
      }
      var found := UsersWithId(rows, callerId);
      UserIdQuery(rows, nextId, callerId);
      if found == {} {
        return UserNotFound;
      }
      var k :| k in found;
      var user := rows[k];
      r := Response(200, ProfileJson(user.fullName, user.email));
    }
  }
}
