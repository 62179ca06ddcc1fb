# fitness-api, modelled in Dafny

fitness-api is a CRUD service for a fitness studio. It stores administrators,
trainers, clients, workout types and scheduled workouts. Callers sign in and
get a JWT. The token's claims carry a user id and a role, `"admin"` or
`"trainer"`. Every route under `/fitness` first runs a middleware that checks
the `Authorization: Bearer <token>` header, parses the token and stores the
caller's identity in the request context. The handlers read query parameters,
call the service and repository layers, and reply with a status and a JSON
body.

This project models four layers of the system:

- **The bearer-header middleware** (`Middleware`). It is a pure check chain,
  `CheckHeader`, plus a method over a request context, `UserIdentity`. The
  method aborts with 401 or stores the identity.
- **The token service** (`Service`). It covers:
  - admin sign-in with a plain password comparison;
  - trainer sign-in by opaque token;
  - claim construction, where `exp` = clock + 1460 h and `iat` = clock, both in Unix seconds;
  - `ParseToken`, including its key function and how it maps errors;
  - `CreateTrainer`, which stamps a fresh token on the trainer record.

  The JWT library is a value `Jwt` of functions: sign, decode, verify the
  signature, and check the time claims. The predicate `Sound` describes what
  the library guarantees, and it is the hypothesis of the round-trip lemmas.
- **The handlers** (`Handler`), with a small model of the Gin request context (`Gin`):
  - route registration, and which routes pass through the middleware;
  - query-parameter parsing, following the behaviour of Go's `strconv.Atoi` (`Strconv`);
  - error-to-status maps;
  - role scoping in the date and interval listings;
  - stamping the caller's id into a created workout;
  - the cash endpoints.

  Every endpoint is a method. It appends the replies it writes to the
  context and changes the repository tables it writes.
- **The repository** (`Repository`). It is a class whose Postgres tables are
  sequences of rows. Each method states its effect: insert with the next id,
  delete by id, update only the listed columns, or set the status. The
  readers include:
  - keyed lookups;
  - the `WHERE` clauses the query builder adds one at a time (`Select.Where`);
  - the three-way join of a workout with its client, trainer and type;
  - trainer cash, the truncating half of a sum of prices.

Supporting modules:

- `Wrappers`: `Option` and `Result`.
- `Errors`: the error values and their message texts.
- `Calendar`: dates, Unix seconds, month windows.
- `Models`: the records.
- `Tables`: keyed tables.
- `Strings`: `strings.Split` and `Join`.

### Behaviour of the code, as written

- **No role checks on admin routes.** No endpoint checks the caller's role,
  except that the two listings scope by role. Every `/fitness` route is open
  to any caller with a valid token, trainers included. The model states
  exactly this (`Handler.Chain`, `Handler.OnlySignInUngated`).
- **Any HMAC method is accepted.** The key function hands out the key for
  every HMAC method, not only HS256. Any failure it reports is folded into
  `"error to parse jwt-token"`, so `ErrSignMethod` never reaches the reply.
- **Expiry is left to the JWT library.** It is the abstract `claimsValid` in
  the model. `Service.SignParseRoundTrip` assumes only what the library
  promises: `iat <= now < exp` is accepted.
- **Role scoping.** In `getWorkoutsByDate` and `getWorkoutsByInterval`, a
  caller whose role is not `"admin"` gets its own user id as trainer id.
  When that id is 0, the repository applies no trainer filter.
- **Lenient id parsing.** `getAdminByID`, `getWorkoutTypeByID` and
  `deleteAdmin` ignore the error from `strconv.Atoi` and use the value it
  returns anyway. That value is 0 for a syntax error. For an out-of-range
  number it is the clamped bound `MaxInt64` or `MinInt64`. Go checks for
  overflow digit by digit, before it reaches a bad character. So once the
  digits read so far exceed the unsigned 64-bit range, the text is a range
  error even if a bad character follows, and its value is the bound, not 0.
  A text of at most 19 characters cannot get there
  (`Handler.LenientId`, `Strconv.ShortNonDecimalIsSyntax`).
- **Snapshot mismatches between files.** The repository snapshot does not
  match the files beside it in three places; the model follows what each
  file does:
  - The handler puts the caller's id into `WorkoutRequest.AdminID`, a field the model's `WorkoutRequest` therefore has.
  - The clients table is written with a `surname` column and read back with `phone_number`, so `Client` has both.
  - The handler and the repository pass a trainer id to `GetWorkoutsByDate`, and the model follows them.

## Model

| member | source | states |
|---|---|---|
| Middleware.CheckHeader | pkg/handler/middleware.go:24-37 | "empty auth header" exactly for an empty header; "invalid auth header" exactly for a non-empty header that does not split into `["Bearer", x]`; "token is empty" exactly for `"Bearer "`; otherwise the header is `"Bearer " + t` with `t` non-empty and space-free, and `t` is the token |
| Middleware.BearerParts | pkg/handler/middleware.go:29-30 | splitting on single spaces yields exactly `["Bearer", x]` iff the header is `"Bearer " + x` with no space in `x` |
| Middleware.ExtraSpacesRejected | pkg/handler/middleware.go:29-33 | `"Bearer t x"`, `"Bearer  t"` and `"bearer t"` are invalid headers, while `"Bearer t"` yields the token `t` |
| Middleware.ParseReachedExactly | pkg/handler/middleware.go:24-38 | the token parser is reached with `t` iff the header is `"Bearer " + t`, `t` non-empty and free of spaces |
| Middleware.UserIdentity | pkg/handler/middleware.go:23-47 | a rejected header aborts with 401 and its message and stores nothing; a token that fails to parse aborts with 401 "error to parse jwt-token" and stores nothing; otherwise the parsed identity is stored under "userID" and nothing is written |
| Middleware.GetData | pkg/handler/middleware.go:49-55 | returns the stored identity exactly when one is stored, and `ErrUserIdNotFound` otherwise |
| Middleware.IssuedTokenPassesHeader | pkg/handler/middleware.go:29-38 | a token the library signed, sent as `"Bearer " + token`, passes the header checks and reaches the parser |
| Gin.Context.GetQuery | pkg/handler/handler.go:419-420 | the parameter's value when present, `None` when absent |
| Gin.Context.Query | pkg/handler/handler.go:85 | the parameter's value when present, `""` when absent |
| Gin.Context.Abort | pkg/handler/middleware.go:26 | marks the request aborted and appends the reply; nothing else changes |
| Gin.Context.Set | pkg/handler/middleware.go:43-46 | maps the key to the value; other keys keep theirs |
| Service.NewClaims | pkg/service/service.go:55-62 | `exp` is the first clock reading in Unix seconds plus 1460 h; `iat` is the second reading in Unix seconds; id and role are the given ones |
| Service.SingleClockLifetime | pkg/service/service.go:57-58 | with one clock reading, `exp - iat` is exactly 5,256,000 seconds |
| Service.LifetimeAtMostTTL | pkg/service/service.go:57-58 | with two readings in order, `exp - iat` is at most the TTL |
| Service.Sign | pkg/service/service.go:64-68 | a signing failure is `ErrCreateJWT`; success carries the library's signed string |
| Service.GenerateTokenForAdmin | pkg/service/service.go:46-70 | lookup errors pass through unchanged; a password mismatch is `ErrInvalidPwd`; success means the admin exists, the password matches and the token is the signature of claims carrying the admin's id and role "admin"; a found admin with the matching password gets exactly the signing result for those claims, so the error is `ErrCreateJWT` exactly when signing fails; the only errors are not-found, invalid password and create-JWT |
| Service.GenerateTokenForTrainer | pkg/service/service.go:72-93 | lookup errors pass through; a found trainer gets exactly the signing result for claims with its id and role "trainer", so the error is then `ErrCreateJWT` exactly when signing fails; success means a trainer holds that token |
| Service.KeyFunc | pkg/service/service.go:96-101 | the signing key for HMAC methods, `ErrSignMethod` for every other method |
| Service.ParseWithClaims | pkg/service/service.go:96-104 | `jwt.ParseWithClaims` with the key function: success iff the token decodes, uses an HMAC method, has valid time claims and a signature under the signing key, and then yields the decoded claims; `ErrSignMethod` exactly when it decodes with a non-HMAC method; every other failure is `ErrParseJWT` |
| Service.ParseToken | pkg/service/service.go:95-111 | every failure is `ErrParseJWT`; success iff the token decodes, uses an HMAC method, has valid time claims and a signature under the key; the result is the claims' (userID, role) |
| Service.SignMethodErrorCollapsed | pkg/service/service.go:96-104 | a token with a non-HMAC method fails with `ErrParseJWT`, never `ErrSignMethod` |
| Service.SignParseRoundTrip | pkg/service/service.go:95-111 | a token the library signed with HS256 parses, while `iat <= now < exp`, to the signed claims' (userID, role) |
| Service.AdminTokenRoundTrip | pkg/service/service.go:46-70 | an admin token issued by sign-in parses, before expiry, to the admin's id and role "admin" |
| Service.TrainerTokenRoundTrip | pkg/service/service.go:72-93 | a trainer token issued by sign-in parses, before expiry, to the trainer's id and role "trainer" |
| Service.CreateTrainer | pkg/service/service.go:113-121 | the trainer is inserted with the fresh token and the next id; the result is that token; a fresh token then finds the new trainer |
| Handler.Chain | pkg/handler/handler.go:37-43 | the middleware runs before an endpoint exactly when the endpoint is registered under `/fitness` |
| Handler.Registration | pkg/handler/handler.go:37-79 | the method, group and path of each endpoint as `InitRoutes` registers it (30 routes, `/workout/type/edit` as GET); every method is GET or POST, only the two sign-ins are in the `/auth` group, and every path starts with `/` |
| Handler.OnlySignInUngated | pkg/handler/handler.go:37-79 | the only endpoints reached without the middleware are the two sign-ins |
| Handler.GatedIffFitnessPath | pkg/handler/handler.go:37-43 | a route is gated iff its full path starts with `/fitness` |
| Handler.LenientId | pkg/handler/handler.go:85 | an in-range decimal gives its value; a non-decimal of at most 19 characters gives 0; an out-of-range decimal gives the clamped bound; any other input gives 0 or a bound |
| Handler.StrictId | pkg/handler/handler.go:248-253 | succeeds iff the text is a decimal integer within 64 bits, with its value; otherwise a syntax or range error, and a syntax error for a short non-decimal |
| Handler.LenientAgreesWithStrict | pkg/handler/handler.go:101 | the lenient id equals the strict id wherever the strict parse succeeds |
| Handler.OptionalId | pkg/handler/handler.go:419-426 | an absent parameter is 0; a present one is parsed strictly |
| Handler.DayOf | pkg/handler/handler.go:525-526 | a date that does not parse falls back to the zero date |
| Handler.LookupReply | pkg/handler/handler.go:88-94 | not-found is 404 with the given message; any other error is 500 with its own message |
| Handler.SignInAdminReply | pkg/handler/handler.go:192-207 | 200 with the token iff sign-in succeeded; invalid password is 400, not-found is 404, anything else is 500, each carrying the error's text |
| Handler.SignInTrainerReply | pkg/handler/handler.go:218-228 | 200 with the token iff sign-in succeeded; not-found is 404 and anything else 500 |
| Handler.WrongPasswordIs400 | pkg/handler/handler.go:194-196 | an existing login with a wrong password is answered 400 "invalid password" |
| Handler.AdminSignInTokenAdmitted | pkg/handler/handler.go:184-208 | the token in a 200 admin sign-in reply, sent back before expiry, passes the middleware as that admin with role "admin" |
| Handler.TrainerSignInTokenAdmitted | pkg/handler/handler.go:210-229 | the same for a trainer sign-in, with role "trainer" |
| Handler.SignInAdmin | pkg/handler/handler.go:184-208 | an unbindable body is one 400; otherwise exactly one reply, the admin sign-in reply for the bound login and password |
| Handler.SignInTrainer | pkg/handler/handler.go:210-229 | an unbindable body is one 400; otherwise exactly one reply, the trainer sign-in reply for the bound token |
| Handler.GetAdminByID | pkg/handler/handler.go:100-114 | looks up the leniently parsed id; 200 with the admin, or the lookup reply |
| Handler.DeleteAdmin | pkg/handler/handler.go:138-146 | removes exactly the admins with the leniently parsed id; replies 200 |
| Handler.CreateAdminAsWritten | pkg/handler/handler.go:116-127 | as written: a failed bind still inserts an admin and writes 400 then 200 |
| Handler.CreateAdmin | pkg/handler/handler.go:116-127 | corrected: a failed bind is one 400 and inserts nothing; a bound admin is inserted with the next id and answered 200 |
| Handler.CreateTrainer | pkg/handler/handler.go:231-245 | a bound trainer is inserted with the fresh token, which is the 200 reply; an unbindable body inserts nothing and is 400 |
| Handler.DeleteTrainer | pkg/handler/handler.go:247-262 | an id that does not parse is 400 and deletes nothing; otherwise exactly the trainers with that id are removed and the reply is 200 |
| Handler.GetTrainerByID | pkg/handler/handler.go:274-293 | 400 for an id that does not parse; else 200 with the trainer or 404 "not found" |
| Handler.GetCashByMonth | pkg/handler/handler.go:148-158 | 200 with the month's cash of the trainer whose id is the caller's own, whatever its role |
| Handler.GetCashByDay | pkg/handler/handler.go:160-170 | 200 with the day's cash of the trainer whose id is the caller's own |
| Handler.CreateClient | pkg/handler/handler.go:295-309 | a bound client is inserted with the next id; an unbindable body is 400 and inserts nothing |
| Handler.UpdateClient | pkg/handler/handler.go:311-325 | only first name, last name and surname of the rows with the body's id change; 400 and no change for an unbindable body |
| Handler.GetClientByID | pkg/handler/handler.go:337-356 | 400 for an id that does not parse; else 200 with the client or 404 "not found" |
| Handler.CreateWorkout | pkg/handler/handler.go:358-379 | 401 without an identity; 400 for an unbindable body; otherwise one row inserted whose admin id is the caller's id, whatever the body said |
| Handler.UpdateWorkout | pkg/handler/handler.go:381-394 | only client, trainer, type and date of the rows with the body's id change; status and admin id are kept |
| Handler.DeleteWorkout | pkg/handler/handler.go:396-411 | 400 and no change for an id that does not parse; else the workouts with that id are removed |
| Handler.GetWorkoutByID | pkg/handler/handler.go:588-607 | 400 for an id that does not parse; else 200 with the joined workout or 404 with the driver's text |
| Handler.ChangeStatusWorkout | pkg/handler/handler.go:609-625 | 400 and no change for an id that does not parse; else only the status of the matching rows becomes the `status` parameter, any string |
| Handler.GetWorkouts | pkg/handler/handler.go:413-445 | a present non-integer `trainer_id` (checked first) or `client_id` is 400; otherwise 200 with exactly the joined rows that match each non-zero filter |
| Handler.CreateWorkoutType | pkg/handler/handler.go:447-461 | a bound type is inserted with the next id; 400 and no change otherwise |
| Handler.UpdateWorkoutType | pkg/handler/handler.go:463-477 | only title and price of the rows with the body's id change |
| Handler.DeleteWorkoutType | pkg/handler/handler.go:479-494 | 400 and no change for an id that does not parse; else the types with that id are removed |
| Handler.GetWorkoutTypeByID | pkg/handler/handler.go:84-98 | looks up the leniently parsed id; 200 with the type, or the lookup reply |
| Handler.GetWorkoutsByDate | pkg/handler/handler.go:506-538 | 401 without an identity; 400 "date not found" without `date`; otherwise 200 with the joined rows on that day, and for a non-admin with a non-zero id only rows of its own trainer id |
| Handler.GetWorkoutsByInterval | pkg/handler/handler.go:540-586 | 401 without an identity; 400 for a missing `from` or `to`; otherwise 200 with the rows from `from` to `to` inclusive, scoped like the day listing |
| Handler.ServeWorkoutsByDate | pkg/handler/handler.go:506-538 | middleware then handler on a fresh request: exactly one reply; 401 when the header or token is rejected; a non-admin caller with a non-zero id sees only its own workouts |
| Handler.ServeWorkoutsByInterval | pkg/handler/handler.go:540-586 | the same for the interval listing |
| Repository.LoadOne | pkg/repository/repository.go:33-37 | no row is `ErrNotFound`; a row is returned as found |
| Repository.Unfiltered | pkg/repository/repository.go:530-549 | a select without `WHERE` admits every row |
| Repository.Select.Where | pkg/repository/repository.go:447-449 | the extended select admits a row iff the old select admits it and the new condition holds for it |
| Repository.Load | pkg/repository/repository.go:451-455 | a row is loaded iff it is in the table and meets every condition; with no condition every row is loaded |
| Repository.JoinOne | pkg/repository/repository.go:425-443 | the joined row carries the workout's id, status and date, a client row's id, names and phone number, a trainer row's id and names and a type row's id, title and price, each row having the id the workout refers to; none iff one of the three is missing |
| Repository.JoinOneOfKeyedTables | pkg/repository/repository.go:546-548 | with primary keys on the three tables, the joined row is built from exactly the rows with the workout's client, trainer and type ids |
| Repository.JoinAll | pkg/repository/repository.go:425-445 | every joined row comes from a workout, and every workout whose three partners exist appears; no more rows than workouts |
| Repository.TruncHalf | pkg/repository/repository.go:590 | Postgres `/ 2`: truncates toward zero, for both signs |
| Repository.PriceSumWithoutRows | pkg/repository/repository.go:597-600 | a window with no matching rows sums to 0, as a NULL sum does |
| Repository.PriceSumAppend | pkg/repository/repository.go:589-595 | the sum over more rows is the sum over the first ones plus the rest |
| Repository.TypePrices | pkg/repository/repository.go:590-592 | the prices the inner join brings to one workout: 0 when no type row has its id, never negative when no price is |
| Repository.TypePricesOfKey | pkg/repository/repository.go:590-592 | with a primary key on the types, the join brings exactly the price of the type row with the id |
| Repository.PriceOf | pkg/repository/repository.go:589-595 | what one workout adds to `SUM(price)`: nonzero only for a dated row of the trainer inside the window whose type exists; never negative when no price is |
| Repository.PriceSum | pkg/repository/repository.go:589-595 | `SUM(price)` of the join for one trainer and window: never negative when no price is, and nonzero only when some row of the trainer is dated inside the window |
| Repository.PriceOfRow | pkg/repository/repository.go:589-595 | with a primary key on the types, a row of the trainer inside the window adds its type's price, and every other row adds 0 |
| Repository.PriceSumIgnoresOthers | pkg/repository/repository.go:593-594 | deleting rows that belong to another trainer or fall outside the window leaves the sum unchanged |
| Repository.DayCashWithoutRows | pkg/repository/repository.go:603-622 | a trainer with no workout today has day cash 0 |
| Repository.LookupByPrimaryKey | pkg/repository/repository.go:142-163 | in a valid repository, looking up any row's id of the admins, trainers, clients or types returns that row |
| Repository.MonthCashWithoutRows | pkg/repository/repository.go:581-601 | a trainer with no workout in the current month has month cash 0 |
| Repository.Repository.GetAdmin | pkg/repository/repository.go:19-39 | success gives an admin with that login; failure is `ErrNotFound` iff no admin has it |
| Repository.Repository.GetAdminByID | pkg/repository/repository.go:142-163 | success gives a row with that id; `ErrNotFound` iff none |
| Repository.Repository.CreateAdmin | pkg/repository/repository.go:56-75 | appends the admin with the next id, which then looks up exactly that row |
| Repository.Repository.DeleteAdmin | pkg/repository/repository.go:77-88 | removes exactly the rows with that id; a missing id changes nothing |
| Repository.Repository.GetTrainerByToken | pkg/repository/repository.go:185-203 | success gives a trainer holding that token; `ErrNotFound` iff none |
| Repository.Repository.GetTrainerByID | pkg/repository/repository.go:224-242 | success gives a row with that id; `ErrNotFound` iff none |
| Repository.Repository.CreateTrainer | pkg/repository/repository.go:111-128 | appends the trainer with the next id, which then looks up exactly that row, and returns its token |
| Repository.Repository.DeleteTrainer | pkg/repository/repository.go:130-140 | removes exactly the rows with that id |
| Repository.Repository.GetClientByID | pkg/repository/repository.go:295-313 | success gives a row with that id; `ErrNotFound` iff none |
| Repository.Repository.CreateClient | pkg/repository/repository.go:244-259 | appends first name, last name and surname with the next id and no phone number; that id then looks up the row |
| Repository.Repository.UpdateClient | pkg/repository/repository.go:261-274 | sets only first name, last name and surname of the rows with that id |
| Repository.Repository.GetWorkoutTypeByID | pkg/repository/repository.go:165-183 | success gives a row with that id; `ErrNotFound` iff none |
| Repository.Repository.CreateWorkoutType | pkg/repository/repository.go:361-375 | appends title and price with the next id; that id then looks up the row |
| Repository.Repository.UpdateWorkoutType | pkg/repository/repository.go:377-389 | sets only title and price of the rows with that id |
| Repository.Repository.DeleteWorkoutType | pkg/repository/repository.go:391-401 | removes exactly the rows with that id |
| Repository.Repository.CreateWorkout | pkg/repository/repository.go:315-331 | appends client, trainer, type and admin ids with the next id and the column defaults for status and date; that id then finds the row, and once its client, trainer and type exist it appears in the join |
| Repository.Repository.UpdateWorkout | pkg/repository/repository.go:333-347 | sets only client, trainer, type and date of the rows with that id; status untouched |
| Repository.Repository.DeleteWorkout | pkg/repository/repository.go:349-359 | removes exactly the rows with that id |
| Repository.Repository.ChangeStatusWorkout | pkg/repository/repository.go:566-579 | sets only the status of the rows with that id, to any string |
| Repository.Repository.GetWorkoutByID | pkg/repository/repository.go:495-525 | success gives a joined row with that id; `ErrNotFound` iff no joined row has it |
| Repository.Repository.GetWorkouts | pkg/repository/repository.go:527-564 | exactly the joined rows that match the trainer filter when its id is non-zero and the client filter when its id is non-zero; all joined rows when both are 0 |
| Repository.Repository.GetWorkoutsByDate | pkg/repository/repository.go:421-456 | exactly the joined rows dated that day, of that trainer when the id is non-zero |
| Repository.Repository.GetWorkoutsByInterval | pkg/repository/repository.go:458-493 | exactly the joined rows dated between the two days, both included, of that trainer when the id is non-zero |
| Repository.Repository.GetCashByMonth | pkg/repository/repository.go:581-601 | the truncating half of the trainer's prices from the first to the last day of the current month |
| Repository.Repository.GetCashByDay | pkg/repository/repository.go:603-622 | the truncating half of the trainer's prices on the current day |
| Calendar.UnixSecondsShift | pkg/service/service.go:57 | adding whole seconds to the clock adds them to its Unix seconds |
| Calendar.UnixSeconds | pkg/service/service.go:57-58 | `Unix()` of a clock reading: the whole seconds `s` with `s * 1e9 <= nanos < (s + 1) * 1e9` |
| Calendar.UnixSecondsMonotone | pkg/service/service.go:57-58 | a later clock never has fewer Unix seconds |
| Calendar.FirstDayOfMonth | pkg/repository/repository.go:585 | day 1 of the given month |
| Calendar.LastDayOfMonth | pkg/repository/repository.go:586 | the last day of the given month, leap years included |
| Calendar.MonthWindowIsMonth | pkg/repository/repository.go:584-586 | a valid date lies in the month window iff it has the same year and month |
| Strconv.Atoi | pkg/handler/handler.go:248 | no error iff the text is a decimal within 64 bits, with its value; a syntax error gives 0; a range error gives the clamped bound |
| Strconv.ShortNonDecimalIsSyntax | pkg/handler/handler.go:248-249 | a non-decimal of at most 19 characters is a syntax error with value 0 |
| Strconv.AtoiItoa | pkg/handler/handler.go:248 | every 64-bit integer written in decimal parses back to itself |
| Strings.Split | pkg/handler/middleware.go:29 | one more piece than separators, no piece contains the separator, and joining the pieces gives the input back |
| Strings.SplitTwo | pkg/handler/middleware.go:29-30 | two pieces `[x, y]` iff the input is `x + " " + y` with no space in either |
| Tables.FindFirst | pkg/repository/repository.go:33-37 | the first row matching the key, or none iff no row does |
| Tables.FindFirstAppendNew | pkg/repository/repository.go:185-203 | after appending a row with a key no other row has, a lookup by that key finds it |
| Tables.RemoveKey | pkg/repository/repository.go:77-88 | keeps exactly the rows with other keys |
| Tables.RemoveKeyKeepsKeys | pkg/repository/repository.go:77-88 | deleting keeps the table's id invariant |
| Tables.AppendKeepsKeys | pkg/repository/repository.go:56-75 | appending with the next id keeps the table's id invariant |

## Left out

- cmd/main.go, the HTTP server, and Gin's router and log formatter are left out. They are process plumbing. Routes are the `Registration` table.
- JSON binding and rendering are parameters:
  - `BindJSON`'s result is a `Result` parameter of each handler.
  - The 400 that `BindJSON` writes itself is folded into the handler's own 400.
  - Bodies are datatypes, not JSON.
- Gin keeps only the first status of a request that writes twice. The model records every write in `replies` and does not model which one the client sees.
- HMAC-SHA256 and the JWT encoding are left out, and so is the library's own `exp`/`iat` validation. They are the abstract functions of `Service.Jwt`, constrained only by `Service.Sound`.
- `ErrTokenClaims` is never produced. The claims type assertion after parsing cannot fail in the model, because the parser returns the claims type.
- uuid generation is left out. The fresh trainer token is a parameter.
- `time.Now` is left out, and so is `time.Parse`. The clock readings and today's date are parameters. Date parsing is a parameter `parseDay`, and the re-formatting round trip in the date handlers is taken to succeed.
- Database failures are not modelled, because in-memory tables never fail. This leaves out:
  - every 500 branch except the sign-in ones, whose errors the service itself can produce;
  - the missing `return`s after a 500 in `deleteAdmin` and `getAdmins`, which therefore have no effect.
- Foreign keys, the `DATE()` cast and the SQL text are not modelled, because they are the database's business. The joins drop a workout whose client, trainer or type is missing, as an inner join does.
- Result order of SQL queries is not promised by the source. The model keeps table order, and its contracts state membership only.
- The `super` column and `GetAdminType` are left out. The model's `Admin` record has no such field. The `/admin/type` route is registered (`Handler.Registration`), but its endpoint body `getAdminType` and the service and repository methods behind it are not modelled.
- `getAdmins`, `getTrainers`, `getClients` and `getWorkoutTypes` are left out. They return a table unchanged, so there is nothing to decide.
- Service methods that only forward to the repository are not modelled separately. The handlers call the repository methods directly.
- Handler.GetCashByMonth, Handler.GetCashByDay: these require a stored identity. The source's type assertion panics without one, and the middleware always stores one on these routes.
- Repository.Repository.GetCashByMonth: requires a valid date for today, because the source computes the month window from a real calendar date.
- Errors.Message: the quoting of the input inside strconv's error texts matches Go's `strconv.Quote` only for inputs without quotes, backslashes or control characters. Escaping rules are not modelled.
- Repository.JoinOne: takes the first client, trainer and type row with the referenced id, where an inner join would yield one row per match. The two agree under the primary keys that `Repository.Valid` maintains (`Repository.JoinOneOfKeyedTables`).
- Tables.RemoveKey: promises which rows remain, not that they keep their order. No contract depends on the order.

## Findings

| source | as written | input that shows it | evidently intended | confidence | as-written member | corrected member |
|---|---|---|---|---|---|---|
| pkg/handler/handler.go:116-127 | after answering 400 for a body that does not bind, `createAdmin` has no `return`, so it inserts the partly decoded admin and then writes a 200 | a request to create an admin whose body is not valid JSON: one admin row is added and the replies are 400 then 200 | return after the 400, as every other handler that binds a body does, so nothing is inserted | high; not executed | Handler.CreateAdminAsWritten | Handler.CreateAdmin |
