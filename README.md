# Web change tracker backend: tables, handlers and auth gate

This project models the stateful core of a small Express backend in Dafny. Registered users keep "trackers": a watch on a web page region given by a URL, a CSS selector, a compare mode and a cron string. The model covers:

- the two tables, `users` and `trackers`, and their invariants: primary keys, the unique email column, column lengths, and the owner foreign key;
- the request-body schemas, as pure validators that either accept a body or list every failing field;
- the tracker handlers: create, list, get, update and delete. Every read or write by id is scoped by the pair (tracker id, owner id);
- the user handlers: signup, login and `/me`;
- the auth gate that runs in front of every protected route. It reads the `Authorization` header, strips the `Bearer ` prefix, verifies the token and resolves its subject against `users`.

Each table is a class. Its `rows` field maps the generated id to the row, and `nextId` is the next identity value. Each handler is a method that returns a `Response`, which is a status code plus a JSON body shape. The method bodies follow the SQL: they compute the set of rows that match the `WHERE` predicate, then branch on whether that set is empty. The contracts state the result as a plain key lookup ("the caller owns the row under `id`"). The primary-key invariant is what makes the two agree.

These outside pieces are parameters of the model:

- the URL and email format checks: `isUrl`, `isEmail`;
- password hashing and comparison: `hash`, `compare`;
- token verification, with signature and expiry folded in: `verify: string -> Option<int>`;
- the clock: `now`;
- a thrown database error: `storeFault`, which leads to the handlers' `catch` and a 500.

A signed token is represented by the user id it carries, `Token(userId)`.

## How the code behaves where one might expect otherwise

- **Signup with a taken email gives 500, not 400.** The transaction callback throws `Error("Email already exists")`. The transaction rejects with that error, so control reaches the outer `catch`, which answers 500 `{error: "Internal server error"}`. The `result instanceof Error` branch, which would answer 400 with the message, can never run. `UserRoutes.UserTable.Signup` models the code as written and states that it never sends that 400.
- **Some signups fail with 500 even with a valid body.** The signup schema puts no upper bound on `fullName`, but the column is `varchar(255)`. PostgreSQL refuses a longer value, so the insert fails and the handler answers 500. The exception is a value whose characters beyond the 255th are all spaces: it is cut to 255 characters and stored, and the signup succeeds. The same rule applies to the email and the hash. A cut email that equals one already stored breaks the unique constraint, which again gives 500.
- **An empty `Authorization` header counts as missing** (401), because the empty string is falsy.
- **Token extraction removes the first `Bearer ` wherever it stands.** `"xBearer t"` becomes `"xt"`, and `"Bearer Bearer t"` becomes `"Bearer t"`. A header without the prefix is used whole.
- **A database error during the gate's user lookup gives 403** "Invalid or expired token", because the same `catch` handles it.
- **The tracker handlers' own errors are answered as `{message}`; the user routes, the gate and the body validation (a 400 on any route) answer as `{error}`.** The model keeps the two shapes apart.

## Model

| member | source | states |
|---|---|---|
| Schema.CompareModeName | src/db/schema.ts:16-19 | a compare mode is stored as one of exactly two labels, innerText or innerHtml |
| Schema.ParseCompareMode | src/db/schema.ts:16-19 | a label is accepted iff it is one of the two enum values, and it reads back to the same label |
| Schema.CompareModeRoundTrip | src/db/schema.ts:16-19 | reading back the label of a mode gives that mode |
| Schema.UserIdQuery | src/db/schema.ts:10 | since id is the primary key, selecting users by id finds the row under that key or nothing |
| Schema.UserEmailQuery | src/db/schema.ts:12 | since email is unique, selecting by email finds at most one row, and any row with that email is the one found |
| Schema.InsertKeepsEmailsUnique | src/db/schema.ts:12 | inserting a row with a fresh email under a fresh id keeps emails unique |
| Schema.StoreVarchar | src/db/schema.ts:11-13 | a value is accepted by a varchar(n) column iff it is at most n long or everything past the n-th character is spaces; a value that fits is stored unchanged, and a longer accepted value is cut to exactly n characters, dropping only spaces |
| Schema.TrailingSpacesCut | src/db/schema.ts:11-13 | a value that overruns its column only with spaces is stored, keeping every character before the padding |
| Schema.StoreUser | src/db/schema.ts:9-14 | a user row is stored iff each of its three varchar values is accepted; the stored row keeps the id and holds, in each column, exactly the value that column stores; it fits the columns, and a row that already fits is stored unchanged |
| Schema.PaddedNameStored | src/db/schema.ts:11 | a signup whose name overruns 255 characters only with spaces is stored, and the stored name keeps the whole original name |
| Schema.ReferencesSurviveNewUser | src/db/schema.ts:23 | adding a user keeps every tracker's owner reference valid |
| Schema.ReferencesSurviveNewTracker | src/db/schema.ts:23 | a tracker whose owner exists can be added without breaking the foreign key; a NULL owner references nothing |
| TrackerRoutes.ParseTrackerBody | src/routes/tracker.routes.ts:9-15 | a body is accepted iff name, cronExpr and selector are strings of 1..255 characters, websiteUrl is a URL of at most 255, and compareMode is innerText or innerHtml; the accepted body carries exactly those values; a rejection names exactly the failing fields |
| TrackerRoutes.ParseTestTrackerBody | src/routes/tracker.routes.ts:18-22 | the probe draft is accepted iff websiteUrl, selector and compareMode pass the same rules; a rejection names exactly the failing fields |
| TrackerRoutes.Replaced | src/routes/tracker.routes.ts:97-102 | an update replaces all five client fields and sets updatedAt, while id, owner and createdAt stay the same |
| TrackerRoutes.AcceptedBodyFits | src/db/schema.ts:24-28 | every accepted body fits the varchar columns; the URL cap of 255 is within the column's 2550 |
| TrackerRoutes.MatchingIsOwnedKey | src/routes/tracker.routes.ts:73-75 | the compound predicate id = trackerId AND userId = caller matches the caller's row under that id, or nothing |
| TrackerRoutes.OwnedByIsLookup | src/routes/tracker.routes.ts:54-59 | a row is in the caller's list exactly when it is the caller's row under its own id |
| TrackerRoutes.OwnedByDisjoint | src/routes/tracker.routes.ts:54-59 | the lists of two different callers share no row |
| TrackerRoutes.OwnedByAfterInsert | src/routes/tracker.routes.ts:35-41 | an insert adds the new row to its owner's list and changes no other list |
| TrackerRoutes.TrackerTable.Create | src/routes/tracker.routes.ts:27-48 | an invalid body gets 400 with its failing fields and no change; a store failure gets 500 and no change; otherwise exactly one row is added under a fresh id, with the body's fields, the caller as owner and both timestamps set to now; it is returned, and the existing rows stay as they were |
| TrackerRoutes.TrackerTable.List | src/routes/tracker.routes.ts:50-63 | answers 200 with exactly the rows whose owner is the caller, or 500 on a store failure |
| TrackerRoutes.TrackerTable.Get | src/routes/tracker.routes.ts:65-86 | answers 200 with the row only when both the id and the owner match; otherwise 404 "Tracker not found" |
| TrackerRoutes.TrackerTable.Update | src/routes/tracker.routes.ts:88-118 | on a matching (id, owner) row, replaces it with the body and updatedAt = now, returns it and changes no other row; without a match, answers 404 and changes nothing; an invalid body gets 400 and no change |
| TrackerRoutes.TrackerTable.Delete | src/routes/tracker.routes.ts:120-141 | on a matching (id, owner) row, removes only that row and answers with the confirmation message, not the row; without a match, answers 404 and changes nothing |
| TrackerRoutes.CreateThenGet | src/routes/tracker.routes.ts:35-82 | fetching the id that a successful create returns answers with the same row |
| TrackerRoutes.DeleteTwice | src/routes/tracker.routes.ts:125-137 | the first delete succeeds iff the caller owns the id; an immediate second delete answers 404 |
| TrackerRoutes.ForeignRowLooksAbsent | src/routes/tracker.routes.ts:65-86 | fetching another user's row gets exactly the answer that fetching an id with no row gets: 404 "Tracker not found" |
| UserRoutes.ParseSignupBody | src/routes/user.routes.ts:12-16 | a signup body is accepted iff fullName is non-empty, email is well-formed and password has at least 6 characters; a rejection names exactly the failing fields |
| UserRoutes.ParseLoginBody | src/routes/user.routes.ts:19-22 | a login body is accepted iff email is well-formed and password is a string |
| UserRoutes.UserTable.SignupTransaction | src/routes/user.routes.ts:55-72 | a taken email throws "Email already exists" and inserts nothing; otherwise exactly one row is inserted under a fresh id, holding the values as the varchar columns store them, unless a column refuses a value, the stored email is already in use or the store fails; emails stay unique |
| UserRoutes.UserTable.Signup | src/routes/user.routes.ts:50-88 | a taken email answers 500 and inserts nothing, and the 400 "Email already exists" answer never occurs; a fresh email inserts exactly one user holding the name, email and hash(password) as the columns store them, and answers with a token for the new id; when a column refuses a value or the store fails, 500 and no insert |
| UserRoutes.UserTable.Login | src/routes/user.routes.ts:90-121 | an unknown email and a wrong password both get the same 401 "Invalid credentials"; a token is issued, for that user's id, only when a user with the email exists and compare(password, passwordHash) holds |
| UserRoutes.UserTable.Me | src/routes/user.routes.ts:27-48 | answers the caller's fullName and email and nothing else of the row, or 404 "User not found" when the id has no row |
| Auth.IndexOf | src/middlewares/auth.middleware.ts:37 | finds the first index at which the pattern occurs, or reports that it occurs nowhere |
| Auth.BearerTokenExtracted | src/middlewares/auth.middleware.ts:37 | the header "Bearer t" yields the token t |
| Auth.ExtractToken | src/middlewares/auth.middleware.ts:37 | a header without "Bearer " anywhere is taken whole as the token; otherwise only the first occurrence of "Bearer " is cut out, wherever it stands, and any later one stays |
| Auth.Gate | src/middlewares/auth.middleware.ts:29-56 | a missing or empty header gives 401; a failed verification or a failed lookup gives 403; a verified subject without a row gives 404; otherwise the stored row of the subject is the caller |
| Auth.BearerOfKnownUserProceeds | src/middlewares/auth.middleware.ts:37-52 | "Bearer t", where t verifies to an existing id, lets that user's stored row through |
| Auth.AuthMiddleware | src/middlewares/auth.middleware.ts:24-56 | on every path, either exactly one response is sent and `next` is not called, or `req.user` is set to the stored row and `next` is called exactly once, as Gate decides |

## Left out

- POST `/trackers/test`, the probe. It launches a headless browser, navigates, waits for the selector, reads innerHTML or innerText and closes the browser. All of that is foreign calls. Only its body schema is modelled.
- The internals of bcrypt and of the JSON web token library: hashing, salts, signatures and the 7-day expiry arithmetic. They are opaque parameters. `verify` folds expiry in, with "now" implicit in the oracle. Because the bcrypt salt is random, one call to `hash` stands for one draw.
- The format rules of the email and URL validators. They are the parameters `isEmail` and `isUrl`.
- String lengths are counted as the length of the character sequence. The validators count UTF-16 code units, and the database counts characters. The model does not tell the two apart.
- The zod error objects. A rejection is modelled as the set of failing field paths; the messages are not modelled, and neither is more than one issue per field. The generic 500 that `validateBody` sends on a non-validation error is also not modelled.
- `Number(req.params.id)` on a non-numeric id. Path ids are integers in the model. What the database driver does with NaN or a fraction is not modelled.
- The 32-bit range of the `integer` id columns.
- Identity values consumed by failed inserts. In the model, a failed insert leaves `nextId` unchanged.
- The concurrency of requests, and so the duplicate-email race that the transaction and the unique constraint guard against. Requests are modelled one at a time.
- The two tables are separate objects. The foreign key from tracker owner to user is stated and proved preserved as a lemma (`ReferencesSurviveNewTracker`), not threaded through the handlers. Every caller id comes from the auth gate, which found that user's row.
- Startup, routing and configuration (app wiring, environment loading, migration config). Which routes sit behind the gate is described in the doc comments.
- The `console.error` logging in the `catch` blocks of `/me`, `/signup` and `/login`. It is output only and does not change any answer.
- `cronExpr` is stored and never interpreted. There is no scheduling in the code.
- TrackerRoutes.Replaced: does not state that updatedAt strictly increases, because that depends on the clock passed in as `now`.
