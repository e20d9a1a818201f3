/**
  The two tables of the backend and the enum they share, with the
  constraints the database schema declares on them.
 */
module Schema {
  import opened Wrappers

  /** The `tracker_compare_modes` enum: exactly two values. */
  datatype CompareMode = InnerText | InnerHtml

  /** The label the enum stores and the API exchanges for each mode. */
  function CompareModeName(m: CompareMode): (s: string)
    ensures s == "innerText" || s == "innerHtml"
  {
    match m
    case InnerText => "innerText"
    case InnerHtml => "innerHtml"
  }

  /** Reads a label back; any string other than the two enum labels is refused. */
  function ParseCompareMode(s: string): (r: Option<CompareMode>)
    ensures r.Some? <==> (s == "innerText" || s == "innerHtml")
    ensures r.Some? ==> CompareModeName(r.value) == s
  {
    if s == "innerText" then Some(InnerText)
    else if s == "innerHtml" then Some(InnerHtml)
    else None
  }

  lemma CompareModeRoundTrip(m: CompareMode)
    ensures ParseCompareMode(CompareModeName(m)) == Some(m)
  {
  }

  /** A row of `users`. */
  datatype User = User(id: int, fullName: string, email: string, passwordHash: string)

  /**
    A row of `trackers`. `userId` is a nullable column, hence an Option;
    timestamps are abstract instants.
   */
  datatype Tracker = Tracker(
    id: int,
    userId: Option<int>,
    name: string,
    cronExpr: string,
    compareMode: CompareMode,
    websiteUrl: string,
    selector: string,
    createdAt: int,
    updatedAt: int)

  // varchar lengths declared by the schema
  const UserColumnLength := 255
  const NameColumnLength := 255
  const CronExprColumnLength := 255
  const WebsiteUrlColumnLength := 2550
  const SelectorColumnLength := 255

  /** The row can be stored: every varchar column is within its declared length. */
  predicate FitsUserColumns(u: User)
  {
    && |u.fullName| <= UserColumnLength
    && |u.email| <= UserColumnLength
    && |u.passwordHash| <= UserColumnLength
  }

  /** Nothing but spaces. */
  predicate AllSpaces(s: string)
  {
    forall i :: 0 <= i < |s| ==> s[i] == ' '
  }

  /**
    Assigns a value to a `varchar(n)` column. PostgreSQL refuses a longer
    value unless every character beyond the n-th is a space; such a value is
    cut to n characters and stored.
   */
  function StoreVarchar(s: string, n: nat): (r: Option<string>)
    ensures r.Some? <==> |s| <= n || AllSpaces(s[n..])
    ensures |s| <= n ==> r == Some(s)
    ensures r.Some? ==> |r.value| <= n && r.value <= s && AllSpaces(s[|r.value|..])
    ensures r.Some? && n < |s| ==> r.value == s[..n]
  {
    if |s| <= n then Some(s)
    else if AllSpaces(s[n..]) then Some(s[..n])
    else None
  }

  /** A value followed only by spaces is stored with all of its own characters kept. */
  lemma TrailingSpacesCut(s: string, pad: string, n: nat)
    requires |s| <= n && AllSpaces(pad)
    ensures StoreVarchar(s + pad, n).Some?
    ensures s <= StoreVarchar(s + pad, n).value
  {
  }

  /**
    The row an `INSERT INTO users` stores for the given values, each one
    assigned to its `varchar(255)` column; None when a value is refused.
   */
  function StoreUser(id: int, fullName: string, email: string, passwordHash: string): (r: Option<User>)
    ensures r.Some? <==>
      && StoreVarchar(fullName, UserColumnLength).Some?
      && StoreVarchar(email, UserColumnLength).Some?
      && StoreVarchar(passwordHash, UserColumnLength).Some?
    ensures r.Some? ==>
      && r.value.id == id
      && FitsUserColumns(r.value)
      && r.value.fullName <= fullName && r.value.email <= email && r.value.passwordHash <= passwordHash
    ensures r.Some? ==> r.value == User(id,
      StoreVarchar(fullName, UserColumnLength).value,
      StoreVarchar(email, UserColumnLength).value,
      StoreVarchar(passwordHash, UserColumnLength).value)
    ensures FitsUserColumns(User(id, fullName, email, passwordHash)) ==>
      r == Some(User(id, fullName, email, passwordHash))
  {
    match (StoreVarchar(fullName, UserColumnLength), StoreVarchar(email, UserColumnLength), StoreVarchar(passwordHash, UserColumnLength))
    case (Some(n), Some(e), Some(h)) => Some(User(id, n, e, h))
    case _ => None
  }

  /** A signup whose name overruns its column only by spaces is stored, with the name cut back and kept whole. */
  lemma PaddedNameStored(id: int, fullName: string, pad: string, email: string, passwordHash: string)
    requires FitsUserColumns(User(id, fullName, email, passwordHash)) && AllSpaces(pad)
    ensures StoreUser(id, fullName + pad, email, passwordHash).Some?
    ensures fullName <= StoreUser(id, fullName + pad, email, passwordHash).value.fullName
  {
  }

  predicate FitsTrackerColumns(t: Tracker)
  {
    && |t.name| <= NameColumnLength
    && |t.cronExpr| <= CronExprColumnLength
    && |t.websiteUrl| <= WebsiteUrlColumnLength
    && |t.selector| <= SelectorColumnLength
  }

  /** The `email` column is unique. */
  predicate UniqueEmails(users: map<int, User>)
  {
    forall i, j :: i in users && j in users && users[i].email == users[j].email ==> i == j
  }

  /**
    Invariant of `users`: each row is stored under its generated identity id,
    ids are positive and below the next identity value, rows fit their
    columns, and emails are unique.
   */
  predicate UsersInvariant(users: map<int, User>, nextId: int)
  {
    && 1 <= nextId
    && (forall k :: k in users ==> users[k].id == k && 1 <= k < nextId && FitsUserColumns(users[k]))
    && UniqueEmails(users)
  }

  /** Invariant of `trackers`, as for `users` without the uniqueness of email. */
  predicate TrackersInvariant(trackers: map<int, Tracker>, nextId: int)
  {
    && 1 <= nextId
    && forall k :: k in trackers ==> trackers[k].id == k && 1 <= k < nextId && FitsTrackerColumns(trackers[k])
  }

  /** The foreign key `trackers.userId -> users.id` (a NULL owner references nothing). */
  predicate ReferencesUsers(trackers: map<int, Tracker>, users: map<int, User>)
  {
    forall k :: k in trackers && trackers[k].userId.Some? ==> trackers[k].userId.value in users
  }

  /** The keys of `users` whose row has the given id: `WHERE users.id = id`. */
  function UsersWithId(users: map<int, User>, id: int): set<int>
  {
    set k | k in users && users[k].id == id
  }

  /** The keys of `users` whose row has the given email: `WHERE users.email = email`. */
  function UsersWithEmail(users: map<int, User>, email: string): set<int>
  {
    set k | k in users && users[k].email == email
  }

  /** Because id is the primary key, selecting by id finds the row stored under that key or nothing. */
  lemma UserIdQuery(users: map<int, User>, nextId: int, id: int)
    requires UsersInvariant(users, nextId)
    ensures UsersWithId(users, id) == if id in users then {id} else {}
  {
    forall k | k in UsersWithId(users, id) ensures k == id {
    }
  }

  /**
    Because email is unique, selecting by email finds at most one row, and
    every row with that email is the one found.
   */
  lemma {:induction false} UserEmailQuery(users: map<int, User>, nextId: int, email: string)
    requires UsersInvariant(users, nextId)
    ensures |UsersWithEmail(users, email)| <= 1
    ensures forall k :: k in users && users[k].email == email ==> UsersWithEmail(users, email) == {k}
    ensures UsersWithEmail(users, email) != {} ==> exists k :: k in users && users[k].email == email
  {
    var s := UsersWithEmail(users, email);
    if exists k :: k in users && users[k].email == email {
      var k :| k in users && users[k].email == email;
      forall k' | k' in s ensures k' == k {
        assert users[k'].email == users[k].email;
      }
      assert s == {k};
    } else {
      assert s == {};
    }
  }

  /** Inserting a row with a fresh email under a fresh key keeps emails unique. */
  lemma InsertKeepsEmailsUnique(users: map<int, User>, u: User)
    requires UniqueEmails(users)
    requires u.id !in users
    requires forall k :: k in users ==> users[k].email != u.email
    ensures UniqueEmails(users[u.id := u])
  {
  }

  /** Adding users never breaks the foreign key of existing trackers. */
  lemma ReferencesSurviveNewUser(trackers: map<int, Tracker>, users: map<int, User>, u: User)
    requires ReferencesUsers(trackers, users)
    ensures ReferencesUsers(trackers, users[u.id := u])
  {
  }

  /** A tracker owned by an existing user can be added without breaking the foreign key. */
  lemma ReferencesSurviveNewTracker(trackers: map<int, Tracker>, users: map<int, User>, t: Tracker)
    requires ReferencesUsers(trackers, users)
    requires t.userId.Some? && t.userId.value in users
    ensures ReferencesUsers(trackers[t.id := t], users)
  {
  }
}
