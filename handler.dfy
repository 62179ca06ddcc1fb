/** The HTTP layer: the route table, the decisions each endpoint makes
    (query parsing, role scoping, error-to-status maps), and the endpoints as
    methods that call the repository and write their reply to the context.
    The service methods these endpoints call only pass their arguments to the
    repository and its result back, so the endpoints call the repository. */
module Handler {
  import opened Wrappers
  import opened Errors
  import opened Calendar
  import opened Models
  import opened Tables
  import opened Strconv
  import opened Gin
  import opened Middleware
  import Service
  import Repository

  // ---- routes

  datatype Group = Auth | Fitness

  /** The handlers, by their Go names. */
  datatype Endpoint =
      signInAdmin | signInTrainer | getAdminByID | getAdmins | deleteAdmin | createAdmin
    | getAdminType | getTrainerByID | createTrainer | deleteTrainer | getTrainers | GetCashByDay
    | GetCashByMonth | createClient | getClientByID | updateClient | getClients | getWorkoutByID
    | createWorkout | updateWorkout | deleteWorkout | changeStatusWorkout | getWorkoutsByDate
    | getWorkoutsByInterval | getWorkouts | getWorkoutTypeByID | createWorkoutType
    | updateWorkoutType | deleteWorkoutType | getWorkoutTypes

  /** Where a handler is registered: its group, the method, and the path
      inside the group. */
  datatype Route = Route(group: Group, verb: string, path: string)

  function GroupPrefix(g: Group): string
  {
    match g
    case Auth => "/auth"
    case Fitness => "/fitness"
  }

  function FullPath(r: Route): string
  {
    GroupPrefix(r.group) + r.path
  }

  /** The registrations of `InitRoutes`: the two sign-ins in the `/auth`
      group, every other handler in the `/fitness` group. */
  function Registration(e: Endpoint): (r: Route)
    ensures r.verb == "GET" || r.verb == "POST"
    ensures r.group == Auth <==> e == signInAdmin || e == signInTrainer
    ensures |r.path| > 1 && r.path[0] == '/'
  {
    match e
    case signInAdmin => Route(Auth, "POST", "/admin/sign-in")
    case signInTrainer => Route(Auth, "POST", "/trainer/sign-in")
    case getAdminByID => Route(Fitness, "GET", "/admin")
    case getAdmins => Route(Fitness, "GET", "/admin/list")
    case deleteAdmin => Route(Fitness, "GET", "/admin/delete")
    case createAdmin => Route(Fitness, "POST", "/admin/create")
    case getAdminType => Route(Fitness, "GET", "/admin/type")
    case getTrainerByID => Route(Fitness, "GET", "/trainer")
    case createTrainer => Route(Fitness, "POST", "/trainer/create")
    case deleteTrainer => Route(Fitness, "GET", "/trainer/delete")
    case getTrainers => Route(Fitness, "GET", "/trainer/list")
    case GetCashByDay => Route(Fitness, "GET", "/trainer/cash/day")
    case GetCashByMonth => Route(Fitness, "GET", "/trainer/cash/month")
    case createClient => Route(Fitness, "POST", "/client/create")
    case getClientByID => Route(Fitness, "GET", "/client")
    case updateClient => Route(Fitness, "POST", "/client/edit")
    case getClients => Route(Fitness, "GET", "/client/list")
    case getWorkoutByID => Route(Fitness, "GET", "/workout")
    case createWorkout => Route(Fitness, "POST", "/workout/create")
    case updateWorkout => Route(Fitness, "POST", "/workout/edit")
    case deleteWorkout => Route(Fitness, "GET", "/workout/delete")
    case changeStatusWorkout => Route(Fitness, "GET", "/workout/change-status")
    case getWorkoutsByDate => Route(Fitness, "GET", "/workout/list-by-date")
    case getWorkoutsByInterval => Route(Fitness, "GET", "/workout/list-by-interval")
    case getWorkouts => Route(Fitness, "GET", "/workout/list")
    case getWorkoutTypeByID => Route(Fitness, "GET", "/workout/type")
    case createWorkoutType => Route(Fitness, "POST", "/workout/type/create")
    case updateWorkoutType => Route(Fitness, "GET", "/workout/type/edit")
    case deleteWorkoutType => Route(Fitness, "GET", "/workout/type/delete")
    case getWorkoutTypes => Route(Fitness, "GET", "/workout/type/list")
  }

  datatype Step = RunUserIdentity | RunEndpoint(endpoint: Endpoint)

  /** The handler chain of an endpoint's route: the `/fitness` group's
      middleware runs before the endpoint, the `/auth` group has none. */
  function Chain(e: Endpoint): (steps: seq<Step>)
    ensures |steps| >= 1 && steps[|steps| - 1] == RunEndpoint(e)
    ensures steps[0] == RunUserIdentity <==> Registration(e).group == Fitness
  {
    match Registration(e).group
    case Auth => [RunEndpoint(e)]
    case Fitness => [RunUserIdentity, RunEndpoint(e)]
  }

  /** Every handler except the two sign-ins runs behind `userIdentity`. */
  lemma OnlySignInUngated(e: Endpoint)
    ensures Chain(e)[0] == RunUserIdentity <==> e != signInAdmin && e != signInTrainer
  {
  }

  /** A route is gated exactly when its full path is under `/fitness`. */
  lemma GatedIffFitnessPath(e: Endpoint)
    ensures Chain(e)[0] == RunUserIdentity <==>
              |FullPath(Registration(e))| >= 8 && FullPath(Registration(e))[..8] == "/fitness"
  {
    var r := Registration(e);
    if r.group == Auth {
      assert FullPath(r)[1] == 'a';
    } else {
      assert FullPath(r)[..8] == GroupPrefix(Fitness);
    }
  }

  // ---- query parsing

  /** `strconv.Atoi` with the error dropped: the value beside the error is
      used, which is 0 for text that is not a decimal integer and the
      clamped bound for one outside the 64-bit range. */
  function LenientId(raw: string): (id: int)
    ensures IsDecimal(raw) && MinInt64 <= DecimalValue(raw) <= MaxInt64 ==> id == DecimalValue(raw)
    ensures !IsDecimal(raw) && |raw| <= 19 ==> id == 0
    ensures !IsDecimal(raw) ==> id == 0 || id == MaxInt64 || id == MinInt64
    ensures IsDecimal(raw) && DecimalValue(raw) > MaxInt64 ==> id == MaxInt64
    ensures IsDecimal(raw) && DecimalValue(raw) < MinInt64 ==> id == MinInt64
  {
    assert !IsDecimal(raw) && |raw| <= 19 ==> Atoi(raw) == (0, Some(ErrSyntax(raw))) by {
      if !IsDecimal(raw) && |raw| <= 19 {
        ShortNonDecimalIsSyntax(raw);
      }
    }
    Atoi(raw).0
  }

  /** `strconv.Atoi` with the error checked: the id, or the error the
      handler replies 400 with. */
  function StrictId(raw: string): (r: Result<int, Error>)
    ensures r.Success? <==> IsDecimal(raw) && MinInt64 <= DecimalValue(raw) <= MaxInt64
    ensures r.Success? ==> r.value == DecimalValue(raw)
    ensures r.Failure? ==> r.error == ErrSyntax(raw) || r.error == ErrRange(raw)
    ensures !IsDecimal(raw) && |raw| <= 19 ==> r == Failure(ErrSyntax(raw))
  {
    assert !IsDecimal(raw) && |raw| <= 19 ==> Atoi(raw) == (0, Some(ErrSyntax(raw))) by {
      if !IsDecimal(raw) && |raw| <= 19 {
        ShortNonDecimalIsSyntax(raw);
      }
    }
    match Atoi(raw).1
    case None => Success(Atoi(raw).0)
    case Some(e) => Failure(e)
  }

  /** The two parsings agree wherever the strict one accepts; a missing
      query parameter reads as "", which the strict parsing refuses and the
      lenient one reads as 0. */
  lemma LenientAgreesWithStrict(raw: string)
    ensures StrictId(raw).Success? ==> LenientId(raw) == StrictId(raw).value
    ensures StrictId(raw) == Failure(ErrSyntax(raw)) ==> LenientId(raw) == 0
    ensures StrictId("") == Failure(ErrSyntax("")) && LenientId("") == 0
  {
    assert !IsDecimal("");
  }

  /** An optional id parameter of the filtered listing: absent is 0, present
      must parse. */
  function OptionalId(raw: Option<string>): (r: Result<int, Error>)
    ensures raw.None? ==> r == Success(0)
    ensures raw.Some? ==> r == StrictId(raw.value)
  {
    match raw
    case None => Success(0)
    case Some(s) => StrictId(s)
  }

  /** The day of a `time.Parse("2006-01-02T15:04:05Z", ...)` whose error is
      dropped: the parsed day, or Go's zero date. The reparse of the formatted
      day that follows never fails. */
  function DayOf(parseDay: string -> Option<Date>, raw: string): (d: Date)
    ensures parseDay(raw).None? ==> d == ZeroDate
    ensures parseDay(raw).Some? ==> d == parseDay(raw).value
  {
    match parseDay(raw)
    case Some(day) => day
    case None => ZeroDate
  }

  // ---- replies

  function ErrorReply(status: int, e: Error): Reply
  {
    Reply(status, ErrorBody(Message(e)))
  }

  /** The reply of a failed lookup: 404 with the given text for a missing
      row, 500 with the error's text for any other error. */
  function LookupReply(e: Error, notFoundMessage: string): (reply: Reply)
    ensures e == ErrNotFound ==> reply == Reply(StatusNotFound, ErrorBody(notFoundMessage))
    ensures e != ErrNotFound ==> reply == Reply(StatusInternalServerError, ErrorBody(Message(e)))
  {
    if e == ErrNotFound then Reply(StatusNotFound, ErrorBody(notFoundMessage))
    else ErrorReply(StatusInternalServerError, e)
  }

  /** `signInAdmin`'s map from the service result to the reply. */
  function SignInAdminReply(r: Result<string, Error>): (reply: Reply)
    ensures r.Success? <==> reply.status == StatusOK
    ensures r.Success? ==> reply.body == TokenBody(r.value)
    ensures r.Failure? ==> reply.body == ErrorBody(Message(r.error))
    ensures r == Failure(ErrInvalidPwd) ==> reply.status == StatusBadRequest
    ensures r == Failure(ErrNotFound) ==> reply.status == StatusNotFound
    ensures r.Failure? && r.error != ErrInvalidPwd && r.error != ErrNotFound ==>
              reply.status == StatusInternalServerError
  {
    match r
    case Success(token) => Reply(StatusOK, TokenBody(token))
    case Failure(e) =>
      if e == ErrInvalidPwd then ErrorReply(StatusBadRequest, e)
      else if e == ErrNotFound then ErrorReply(StatusNotFound, e)
      else ErrorReply(StatusInternalServerError, e)
  }

  /** `signInTrainer`'s map: there is no password, so no 400. */
  function SignInTrainerReply(r: Result<string, Error>): (reply: Reply)
    ensures r.Success? <==> reply.status == StatusOK
    ensures r.Success? ==> reply.body == TokenBody(r.value)
    ensures r.Failure? ==> reply.body == ErrorBody(Message(r.error))
    ensures r == Failure(ErrNotFound) ==> reply.status == StatusNotFound
    ensures r.Failure? && r.error != ErrNotFound ==> reply.status == StatusInternalServerError
  {
    match r
    case Success(token) => Reply(StatusOK, TokenBody(token))
    case Failure(e) =>
      if e == ErrNotFound then ErrorReply(StatusNotFound, e)
      else ErrorReply(StatusInternalServerError, e)
  }

  /** A wrong password for an existing login is a 400 with "invalid
      password", and no token is handed out. */
  lemma WrongPasswordIs400(lib: Service.Jwt, repo: Repository.Repository, login: string, password: string,
                           clockA: int, clockB: int)
    requires repo.GetAdmin(login).Success? && repo.GetAdmin(login).value.password != password
    ensures SignInAdminReply(Service.GenerateTokenForAdmin(lib, repo, login, password, clockA, clockB))
            == Reply(StatusBadRequest, ErrorBody("invalid password"))
  {
  }

  /** A token handed out by a 200 admin sign-in is accepted by the header
      checks and, while unexpired, parses to the admin's id and role. */
  lemma AdminSignInTokenAdmitted(lib: Service.Jwt, repo: Repository.Repository, login: string,
                                 password: string, clockA: int, clockB: int, now: int)
    requires Service.Sound(lib)
    requires SignInAdminReply(Service.GenerateTokenForAdmin(lib, repo, login, password, clockA, clockB)).status
             == StatusOK
    requires UnixSeconds(clockB) <= now < UnixSeconds(clockA) + Service.TokenTTLSeconds
    ensures var reply := SignInAdminReply(Service.GenerateTokenForAdmin(lib, repo, login, password, clockA, clockB));
            reply.body.TokenBody? && repo.GetAdmin(login).Success?
            && CheckHeader("Bearer " + reply.body.token) == Token(reply.body.token)
            && Service.ParseToken(lib, reply.body.token, now) == Success(Identity(repo.GetAdmin(login).value.id, "admin"))
  {
    Service.AdminTokenRoundTrip(lib, repo, login, password, clockA, clockB, now);
    IssuedTokenPassesHeader(lib, Service.NewClaims(clockA, clockB, repo.GetAdmin(login).value.id, "admin"));
  }

  /** The same for a trainer signing in with the opaque token. */
  lemma TrainerSignInTokenAdmitted(lib: Service.Jwt, repo: Repository.Repository, token: string,
                                   clockA: int, clockB: int, now: int)
    requires Service.Sound(lib)
    requires SignInTrainerReply(Service.GenerateTokenForTrainer(lib, repo, token, clockA, clockB)).status == StatusOK
    requires UnixSeconds(clockB) <= now < UnixSeconds(clockA) + Service.TokenTTLSeconds
    ensures var reply := SignInTrainerReply(Service.GenerateTokenForTrainer(lib, repo, token, clockA, clockB));
            reply.body.TokenBody? && repo.GetTrainerByToken(token).Success?
            && CheckHeader("Bearer " + reply.body.token) == Token(reply.body.token)
            && Service.ParseToken(lib, reply.body.token, now)
               == Success(Identity(repo.GetTrainerByToken(token).value.id, "trainer"))
  {
    Service.TrainerTokenRoundTrip(lib, repo, token, clockA, clockB, now);
    IssuedTokenPassesHeader(lib, Service.NewClaims(clockA, clockB, repo.GetTrainerByToken(token).value.id, "trainer"));
  }

  // ---- sign-in endpoints; `bound` is the result of `c.BindJSON`

  method SignInAdmin(c: Context, lib: Service.Jwt, repo: Repository.Repository, bound: Result<Admin, Error>,
                     clockA: int, clockB: int)
    modifies c`aborted, c`replies
    ensures bound.Failure? ==> c.replies == old(c.replies) + [ErrorReply(StatusBadRequest, bound.error)]
    ensures bound.Success? ==>
              c.replies == old(c.replies) + [SignInAdminReply(Service.GenerateTokenForAdmin(
                                               lib, repo, bound.value.login, bound.value.password, clockA, clockB))]
  {
    if bound.Failure? {
      c.Abort(ErrorReply(StatusBadRequest, bound.error));
      return;
    }
    var token := Service.GenerateTokenForAdmin(lib, repo, bound.value.login, bound.value.password, clockA, clockB);
    c.Abort(SignInAdminReply(token));
  }

  method SignInTrainer(c: Context, lib: Service.Jwt, repo: Repository.Repository, bound: Result<Trainer, Error>,
                       clockA: int, clockB: int)
    modifies c`aborted, c`replies
    ensures bound.Failure? ==> c.replies == old(c.replies) + [ErrorReply(StatusBadRequest, bound.error)]
    ensures bound.Success? ==>
              c.replies == old(c.replies) + [SignInTrainerReply(Service.GenerateTokenForTrainer(
                                               lib, repo, bound.value.token, clockA, clockB))]
  {
    if bound.Failure? {
      c.Abort(ErrorReply(StatusBadRequest, bound.error));
      return;
    }
    var token := Service.GenerateTokenForTrainer(lib, repo, bound.value.token, clockA, clockB);
    c.Abort(SignInTrainerReply(token));
  }

  // ---- admins

  /** `getAdminByID`: the id's parse error is dropped. */
  method GetAdminByID(c: Context, repo: Repository.Repository)
    modifies c`aborted, c`replies
    ensures var found := repo.GetAdminByID(LenientId(c.Query("id")));
            c.replies == old(c.replies) + [if found.Success? then Reply(StatusOK, AdminBody(found.value))
                                           else LookupReply(found.error, Message(found.error))]
  {
    var adminID := LenientId(c.Query("id"));
    var found := repo.GetAdminByID(adminID);
    if found.Failure? {
      c.Abort(LookupReply(found.error, Message(found.error)));
      return;
    }
    c.Abort(Reply(StatusOK, AdminBody(found.value)));
  }

  /** `deleteAdmin`: the id's parse error is dropped, so an unreadable id
      deletes the admin with id 0, if there is one. */
  method DeleteAdmin(c: Context, repo: Repository.Repository)
    requires repo.Valid()
    modifies c`aborted, c`replies, repo`admins
    ensures repo.Valid()
    ensures repo.admins == RemoveKey(old(repo.admins), LenientId(c.Query("id")), Repository.AdminKey)
    ensures c.replies == old(c.replies) + [Reply(StatusOK, NoBody)]
  {
    var adminID := LenientId(c.Query("id"));
    repo.DeleteAdmin(adminID);
    c.Abort(Reply(StatusOK, NoBody));
  }

  /** `createAdmin` as written: the bind failure's 400 is not followed by a
      `return`, so the admin variable, holding whatever was decoded before
      the failure (`decoded`), is inserted all the same, and the final
      `AbortWithStatus(200)` is written after the 400. */
  method CreateAdminAsWritten(c: Context, repo: Repository.Repository, bound: Result<Admin, Error>, decoded: Admin)
    requires repo.Valid()
    modifies c`aborted, c`replies, repo`admins, repo`nextAdminId
    ensures repo.Valid()
    ensures repo.admins == old(repo.admins)
                           + [(if bound.Success? then bound.value else decoded).(id := old(repo.nextAdminId))]
    ensures bound.Failure? ==>
              c.replies == old(c.replies) + [ErrorReply(StatusBadRequest, bound.error), Reply(StatusOK, NoBody)]
    ensures bound.Failure? ==> |repo.admins| == |old(repo.admins)| + 1
    ensures bound.Success? ==> c.replies == old(c.replies) + [Reply(StatusOK, NoBody)]
  {
    var admin := decoded;
    if bound.Failure? {
      c.Abort(ErrorReply(StatusBadRequest, bound.error));
    } else {
      admin := bound.value;
    }
    repo.CreateAdmin(admin);
    c.Abort(Reply(StatusOK, NoBody));
  }

  /** `createAdmin` as its sibling handlers are written: a request whose
      body does not bind inserts nothing. */
  method CreateAdmin(c: Context, repo: Repository.Repository, bound: Result<Admin, Error>)
    requires repo.Valid()
    modifies c`aborted, c`replies, repo`admins, repo`nextAdminId
    ensures repo.Valid()
    ensures bound.Failure? ==> repo.admins == old(repo.admins)
                               && c.replies == old(c.replies) + [ErrorReply(StatusBadRequest, bound.error)]
    ensures bound.Success? ==> repo.admins == old(repo.admins) + [bound.value.(id := old(repo.nextAdminId))]
                               && c.replies == old(c.replies) + [Reply(StatusOK, NoBody)]
  {
    if bound.Failure? {
      c.Abort(ErrorReply(StatusBadRequest, bound.error));
      return;
    }
    repo.CreateAdmin(bound.value);
    c.Abort(Reply(StatusOK, NoBody));
  }

  // ---- trainers

  /** `createTrainer`: the service generates the trainer's token, which is
      the reply. */
  method CreateTrainer(c: Context, repo: Repository.Repository, bound: Result<Trainer, Error>, freshToken: string)
    requires repo.Valid()
    modifies c`aborted, c`replies, repo`trainers, repo`nextTrainerId
    ensures repo.Valid()
    ensures bound.Failure? ==> repo.trainers == old(repo.trainers)
                               && c.replies == old(c.replies) + [ErrorReply(StatusBadRequest, bound.error)]
    ensures bound.Success? ==>
              repo.trainers == old(repo.trainers) + [bound.value.(id := old(repo.nextTrainerId), token := freshToken)]
              && c.replies == old(c.replies) + [Reply(StatusOK, TokenBody(freshToken))]
  {
    if bound.Failure? {
      c.Abort(ErrorReply(StatusBadRequest, bound.error));
      return;
    }
    var token := Service.CreateTrainer(repo, bound.value, freshToken);
    c.Abort(Reply(StatusOK, TokenBody(token.value)));
  }

  /** `deleteTrainer`: an id that does not parse is a 400 and deletes nothing. */
  method DeleteTrainer(c: Context, repo: Repository.Repository)
    requires repo.Valid()
    modifies c`aborted, c`replies, repo`trainers
    ensures repo.Valid()
    ensures StrictId(c.Query("id")).Failure? ==>
              repo.trainers == old(repo.trainers)
              && c.replies == old(c.replies) + [ErrorReply(StatusBadRequest, StrictId(c.Query("id")).error)]
    ensures StrictId(c.Query("id")).Success? ==>
              repo.trainers == RemoveKey(old(repo.trainers), StrictId(c.Query("id")).value, Repository.TrainerKey)
              && c.replies == old(c.replies) + [Reply(StatusOK, NoBody)]
  {
    var trainerID := StrictId(c.Query("id"));
    if trainerID.Failure? {
      c.Abort(ErrorReply(StatusBadRequest, trainerID.error));
      return;
    }
    repo.DeleteTrainer(trainerID.value);
    c.Abort(Reply(StatusOK, NoBody));
  }

  /** `getTrainerByID`: a 400 for an id that does not parse, a 404 reading
      "not found" for a missing trainer. */
  method GetTrainerByID(c: Context, repo: Repository.Repository)
    modifies c`aborted, c`replies
    ensures StrictId(c.Query("id")).Failure? ==>
              c.replies == old(c.replies) + [ErrorReply(StatusBadRequest, StrictId(c.Query("id")).error)]
    ensures StrictId(c.Query("id")).Success? ==>
              var found := repo.GetTrainerByID(StrictId(c.Query("id")).value);
              c.replies == old(c.replies) + [if found.Success? then Reply(StatusOK, TrainerBody(found.value))
                                             else LookupReply(found.error, "not found")]
  {
    var trainerID := StrictId(c.Query("id"));
    if trainerID.Failure? {
      c.Abort(ErrorReply(StatusBadRequest, trainerID.error));
      return;
    }
    var found := repo.GetTrainerByID(trainerID.value);
    if found.Failure? {
      c.Abort(LookupReply(found.error, "not found"));
      return;
    }
    c.Abort(Reply(StatusOK, TrainerBody(found.value)));
  }

  /** `GetCashByMonth`: the caller's own id is the trainer id, whatever its
      role. The source panics when no identity is stored; the route's
      middleware always stores one. */
  method GetCashByMonth(c: Context, repo: Repository.Repository, today: Date)
    requires GetData(c).Success?
    requires ValidDate(today)
    modifies c`aborted, c`replies
    ensures c.replies == old(c.replies)
                         + [Reply(StatusOK, CashBody(repo.GetCashByMonth(GetData(c).value.userID, today)))]
  {
    var data := GetData(c);
    var trainerID := data.value.userID;
    var cash := repo.GetCashByMonth(trainerID, today);
    c.Abort(Reply(StatusOK, CashBody(cash)));
  }

  /** `GetCashByDay`: the same for the current day. */
  method GetCashByDay(c: Context, repo: Repository.Repository, today: Date)
    requires GetData(c).Success?
    modifies c`aborted, c`replies
    ensures c.replies == old(c.replies)
                         + [Reply(StatusOK, CashBody(repo.GetCashByDay(GetData(c).value.userID, today)))]
  {
    var data := GetData(c);
    var trainerID := data.value.userID;
    var cash := repo.GetCashByDay(trainerID, today);
    c.Abort(Reply(StatusOK, CashBody(cash)));
  }

  // ---- clients

  method CreateClient(c: Context, repo: Repository.Repository, bound: Result<Client, Error>)
    requires repo.Valid()
    modifies c`aborted, c`replies, repo`clients, repo`nextClientId
    ensures repo.Valid()
    ensures bound.Failure? ==> repo.clients == old(repo.clients)
                               && c.replies == old(c.replies) + [ErrorReply(StatusBadRequest, bound.error)]
    ensures bound.Success? ==>
              repo.clients == old(repo.clients) + [bound.value.(id := old(repo.nextClientId), phoneNumber := None)]
              && c.replies == old(c.replies) + [Reply(StatusOK, NoBody)]
  {
    if bound.Failure? {
      c.Abort(ErrorReply(StatusBadRequest, bound.error));
      return;
    }
    repo.CreateClient(bound.value);
    c.Abort(Reply(StatusOK, NoBody));
  }

  method UpdateClient(c: Context, repo: Repository.Repository, bound: Result<Client, Error>)
    requires repo.Valid()
    modifies c`aborted, c`replies, repo`clients
    ensures repo.Valid()
    ensures bound.Failure? ==> repo.clients == old(repo.clients)
                               && c.replies == old(c.replies) + [ErrorReply(StatusBadRequest, bound.error)]
    ensures bound.Success? ==> c.replies == old(c.replies) + [Reply(StatusOK, NoBody)]
    ensures bound.Success? ==>
              |repo.clients| == |old(repo.clients)|
              && forall i :: 0 <= i < |repo.clients| ==>
                   repo.clients[i] == if old(repo.clients)[i].id == bound.value.id
                                      then old(repo.clients)[i].(firstName := bound.value.firstName,
                                                                 lastName := bound.value.lastName,
                                                                 surname := bound.value.surname)
                                      else old(repo.clients)[i]
  {
    if bound.Failure? {
      c.Abort(ErrorReply(StatusBadRequest, bound.error));
      return;
    }
    repo.UpdateClient(bound.value);
    c.Abort(Reply(StatusOK, NoBody));
  }

  /** `getClientByID`: a 400 for an id that does not parse, a 404 reading
      "not found" for a missing client. */
  method GetClientByID(c: Context, repo: Repository.Repository)
    modifies c`aborted, c`replies
    ensures StrictId(c.Query("id")).Failure? ==>
              c.replies == old(c.replies) + [ErrorReply(StatusBadRequest, StrictId(c.Query("id")).error)]
    ensures StrictId(c.Query("id")).Success? ==>
              var found := repo.GetClientByID(StrictId(c.Query("id")).value);
              c.replies == old(c.replies) + [if found.Success? then Reply(StatusOK, ClientBody(found.value))
                                             else LookupReply(found.error, "not found")]
  {
    var clientID := StrictId(c.Query("id"));
    if clientID.Failure? {
      c.Abort(ErrorReply(StatusBadRequest, clientID.error));
      return;
    }
    var found := repo.GetClientByID(clientID.value);
    if found.Failure? {
      c.Abort(LookupReply(found.error, "not found"));
      return;
    }
    c.Abort(Reply(StatusOK, ClientBody(found.value)));
  }

  // ---- workouts

  /** `createWorkout`: the caller must be identified, and the caller's id
      overwrites whatever admin id the body carried. */
  method CreateWorkout(c: Context, repo: Repository.Repository, bound: Result<WorkoutRequest, Error>)
    requires repo.Valid()
    modifies c`aborted, c`replies, repo`workouts, repo`nextWorkoutId
    ensures repo.Valid()
    ensures GetData(c).Failure? ==>
              repo.workouts == old(repo.workouts)
              && c.replies == old(c.replies) + [ErrorReply(StatusUnauthorized, ErrUserIdNotFound)]
    ensures GetData(c).Success? && bound.Failure? ==>
              repo.workouts == old(repo.workouts)
              && c.replies == old(c.replies) + [ErrorReply(StatusBadRequest, bound.error)]
    ensures GetData(c).Success? && bound.Success? ==>
              var w := bound.value;
              repo.workouts == old(repo.workouts)
                               + [WorkoutRow(old(repo.nextWorkoutId), w.clientID, w.trainerID, w.workoutTypeID,
                                             GetData(c).value.userID, repo.defaultStatus, repo.defaultDate)]
              && c.replies == old(c.replies) + [Reply(StatusOK, NoBody)]
  {
    var data := GetData(c);
    if data.Failure? {
      c.Abort(ErrorReply(StatusUnauthorized, data.error));
      return;
    }
    if bound.Failure? {
      c.Abort(ErrorReply(StatusBadRequest, bound.error));
      return;
    }
    var workoutData := bound.value.(adminID := data.value.userID);
    repo.CreateWorkout(workoutData);
    c.Abort(Reply(StatusOK, NoBody));
  }

  method UpdateWorkout(c: Context, repo: Repository.Repository, bound: Result<WorkoutRequest, Error>)
    requires repo.Valid()
    modifies c`aborted, c`replies, repo`workouts
    ensures repo.Valid()
    ensures bound.Failure? ==> repo.workouts == old(repo.workouts)
                               && c.replies == old(c.replies) + [ErrorReply(StatusBadRequest, bound.error)]
    ensures bound.Success? ==> c.replies == old(c.replies) + [Reply(StatusOK, NoBody)]
    ensures bound.Success? ==>
              |repo.workouts| == |old(repo.workouts)|
              && forall i :: 0 <= i < |repo.workouts| ==>
                   repo.workouts[i] == if old(repo.workouts)[i].id == bound.value.id
                                       then old(repo.workouts)[i].(clientID := bound.value.clientID,
                                                                   trainerID := bound.value.trainerID,
                                                                   workoutTypeID := bound.value.workoutTypeID,
                                                                   date := Some(bound.value.date))
                                       else old(repo.workouts)[i]
  {
    if bound.Failure? {
      c.Abort(ErrorReply(StatusBadRequest, bound.error));
      return;
    }
    repo.UpdateWorkout(bound.value);
    c.Abort(Reply(StatusOK, NoBody));
  }

  method DeleteWorkout(c: Context, repo: Repository.Repository)
    requires repo.Valid()
    modifies c`aborted, c`replies, repo`workouts
    ensures repo.Valid()
    ensures StrictId(c.Query("id")).Failure? ==>
              repo.workouts == old(repo.workouts)
              && c.replies == old(c.replies) + [ErrorReply(StatusBadRequest, StrictId(c.Query("id")).error)]
    ensures StrictId(c.Query("id")).Success? ==>
              repo.workouts == RemoveKey(old(repo.workouts), StrictId(c.Query("id")).value, Repository.WorkoutKey)
              && c.replies == old(c.replies) + [Reply(StatusOK, NoBody)]
  {
    var workoutID := StrictId(c.Query("id"));
    if workoutID.Failure? {
      c.Abort(ErrorReply(StatusBadRequest, workoutID.error));
      return;
    }
    repo.DeleteWorkout(workoutID.value);
    c.Abort(Reply(StatusOK, NoBody));
  }

  /** `getWorkoutByID`: a 400 for an id that does not parse, a 404 with the
      driver's text for a missing workout. */
  method GetWorkoutByID(c: Context, repo: Repository.Repository)
    modifies c`aborted, c`replies
    ensures StrictId(c.Query("id")).Failure? ==>
              c.replies == old(c.replies) + [ErrorReply(StatusBadRequest, StrictId(c.Query("id")).error)]
    ensures StrictId(c.Query("id")).Success? ==>
              var found := repo.GetWorkoutByID(StrictId(c.Query("id")).value);
              c.replies == old(c.replies) + [if found.Success? then Reply(StatusOK, WorkoutBody(found.value))
                                             else LookupReply(found.error, Message(found.error))]
  {
    var workoutID := StrictId(c.Query("id"));
    if workoutID.Failure? {
      c.Abort(ErrorReply(StatusBadRequest, workoutID.error));
      return;
    }
    var found := repo.GetWorkoutByID(workoutID.value);
    if found.Failure? {
      c.Abort(LookupReply(found.error, Message(found.error)));
      return;
    }
    c.Abort(Reply(StatusOK, WorkoutBody(found.value)));
  }

  /** `changeStatusWorkout`: the status is taken as given, "" when absent. */
  method ChangeStatusWorkout(c: Context, repo: Repository.Repository)
    requires repo.Valid()
    modifies c`aborted, c`replies, repo`workouts
    ensures repo.Valid()
    ensures StrictId(c.Query("id")).Failure? ==>
              repo.workouts == old(repo.workouts)
              && c.replies == old(c.replies) + [ErrorReply(StatusBadRequest, StrictId(c.Query("id")).error)]
    ensures StrictId(c.Query("id")).Success? ==>
              c.replies == old(c.replies) + [Reply(StatusOK, NoBody)]
              && |repo.workouts| == |old(repo.workouts)|
              && forall i :: 0 <= i < |repo.workouts| ==>
                   repo.workouts[i] == if old(repo.workouts)[i].id == StrictId(c.Query("id")).value
                                       then old(repo.workouts)[i].(status := c.Query("status"))
                                       else old(repo.workouts)[i]
  {
    var status := c.Query("status");
    var workoutID := StrictId(c.Query("id"));
    if workoutID.Failure? {
      c.Abort(ErrorReply(StatusBadRequest, workoutID.error));
      return;
    }
    repo.ChangeStatusWorkout(workoutID.value, status);
    c.Abort(Reply(StatusOK, NoBody));
  }

  /** `getWorkouts`: each filter parameter is 0 when absent and a 400 when
      present but not an integer; the trainer parameter is checked first. */
  method GetWorkouts(c: Context, repo: Repository.Repository)
    modifies c`aborted, c`replies
    ensures OptionalId(c.GetQuery("trainer_id")).Failure? ==>
              c.replies == old(c.replies) + [ErrorReply(StatusBadRequest, OptionalId(c.GetQuery("trainer_id")).error)]
    ensures OptionalId(c.GetQuery("trainer_id")).Success? && OptionalId(c.GetQuery("client_id")).Failure? ==>
              c.replies == old(c.replies) + [ErrorReply(StatusBadRequest, OptionalId(c.GetQuery("client_id")).error)]
    ensures OptionalId(c.GetQuery("trainer_id")).Success? && OptionalId(c.GetQuery("client_id")).Success? ==>
              var trainerID, clientID := OptionalId(c.GetQuery("trainer_id")).value,
                                         OptionalId(c.GetQuery("client_id")).value;
              |c.replies| == |old(c.replies)| + 1 && c.replies[..|old(c.replies)|] == old(c.replies)
              && c.replies[|old(c.replies)|].status == StatusOK
              && c.replies[|old(c.replies)|].body.WorkoutsBody?
              && (forall w :: w in c.replies[|old(c.replies)|].body.workouts <==>
                     w in repo.Joined() && (trainerID != 0 ==> w.trainer.id == trainerID)
                     && (clientID != 0 ==> w.client.id == clientID))
  {
    var trainerID := 0;
    var queryTrainerID := c.GetQuery("trainer_id");
    if queryTrainerID.Some? {
      var parsed := StrictId(queryTrainerID.value);
      if parsed.Failure? {
        c.Abort(ErrorReply(StatusBadRequest, parsed.error));
        return;
      }
      trainerID := parsed.value;
    }
    var clientID := 0;
    var queryClientID := c.GetQuery("client_id");
    if queryClientID.Some? {
      var parsed := StrictId(queryClientID.value);
      if parsed.Failure? {
        c.Abort(ErrorReply(StatusBadRequest, parsed.error));
        return;
      }
      clientID := parsed.value;
    }
    var workouts := repo.GetWorkouts(trainerID, clientID);
    c.Abort(Reply(StatusOK, WorkoutsBody(workouts)));
  }

  // ---- workout types

  method CreateWorkoutType(c: Context, repo: Repository.Repository, bound: Result<WorkoutType, Error>)
    requires repo.Valid()
    modifies c`aborted, c`replies, repo`workoutTypes, repo`nextWorkoutTypeId
    ensures repo.Valid()
    ensures bound.Failure? ==> repo.workoutTypes == old(repo.workoutTypes)
                               && c.replies == old(c.replies) + [ErrorReply(StatusBadRequest, bound.error)]
    ensures bound.Success? ==>
              repo.workoutTypes == old(repo.workoutTypes) + [bound.value.(id := old(repo.nextWorkoutTypeId))]
              && c.replies == old(c.replies) + [Reply(StatusOK, NoBody)]
  {
    if bound.Failure? {
      c.Abort(ErrorReply(StatusBadRequest, bound.error));
      return;
    }
    repo.CreateWorkoutType(bound.value);
    c.Abort(Reply(StatusOK, NoBody));
  }

  method UpdateWorkoutType(c: Context, repo: Repository.Repository, bound: Result<WorkoutType, Error>)
    requires repo.Valid()
    modifies c`aborted, c`replies, repo`workoutTypes
    ensures repo.Valid()
    ensures bound.Failure? ==> repo.workoutTypes == old(repo.workoutTypes)
                               && c.replies == old(c.replies) + [ErrorReply(StatusBadRequest, bound.error)]
    ensures bound.Success? ==> c.replies == old(c.replies) + [Reply(StatusOK, NoBody)]
    ensures bound.Success? ==>
              |repo.workoutTypes| == |old(repo.workoutTypes)|
              && forall i :: 0 <= i < |repo.workoutTypes| ==>
                   repo.workoutTypes[i] == if old(repo.workoutTypes)[i].id == bound.value.id
                                           then old(repo.workoutTypes)[i].(title := bound.value.title,
                                                                           price := bound.value.price)
                                           else old(repo.workoutTypes)[i]
  {
    if bound.Failure? {
      c.Abort(ErrorReply(StatusBadRequest, bound.error));
      return;
    }
    repo.UpdateWorkoutType(bound.value);
    c.Abort(Reply(StatusOK, NoBody));
  }

  method DeleteWorkoutType(c: Context, repo: Repository.Repository)
    requires repo.Valid()
    modifies c`aborted, c`replies, repo`workoutTypes
    ensures repo.Valid()
    ensures StrictId(c.Query("id")).Failure? ==>
              repo.workoutTypes == old(repo.workoutTypes)
              && c.replies == old(c.replies) + [ErrorReply(StatusBadRequest, StrictId(c.Query("id")).error)]
    ensures StrictId(c.Query("id")).Success? ==>
              repo.workoutTypes == RemoveKey(old(repo.workoutTypes), StrictId(c.Query("id")).value,
                                             Repository.WorkoutTypeKey)
              && c.replies == old(c.replies) + [Reply(StatusOK, NoBody)]
  {
    var workoutTypeID := StrictId(c.Query("id"));
    if workoutTypeID.Failure? {
      c.Abort(ErrorReply(StatusBadRequest, workoutTypeID.error));
      return;
    }
    repo.DeleteWorkoutType(workoutTypeID.value);
    c.Abort(Reply(StatusOK, NoBody));
  }

  /** `getWorkoutTypeByID`: the id's parse error is dropped. */
  method GetWorkoutTypeByID(c: Context, repo: Repository.Repository)
    modifies c`aborted, c`replies
    ensures var found := repo.GetWorkoutTypeByID(LenientId(c.Query("id")));
            c.replies == old(c.replies) + [if found.Success? then Reply(StatusOK, WorkoutTypeBody(found.value))
                                           else LookupReply(found.error, Message(found.error))]
  {
    var workoutTypeID := LenientId(c.Query("id"));
    var found := repo.GetWorkoutTypeByID(workoutTypeID);
    if found.Failure? {
      c.Abort(LookupReply(found.error, Message(found.error)));
      return;
    }
    c.Abort(Reply(StatusOK, WorkoutTypeBody(found.value)));
  }

  // ---- role-scoped listings; `parseDay` is `time.Parse` with the
  // timestamp layout, cut to its calendar day

  /** `getWorkoutsByDate`: an identified caller that is not "admin" sees
      only its own workouts (its id is the trainer filter); an admin sees
      every trainer's. A missing date is a 400; a malformed one lists the
      zero date's workouts. */
  method GetWorkoutsByDate(c: Context, repo: Repository.Repository, parseDay: string -> Option<Date>)
    modifies c`aborted, c`replies
    ensures GetData(c).Failure? ==> c.replies == old(c.replies) + [ErrorReply(StatusUnauthorized, ErrUserIdNotFound)]
    ensures GetData(c).Success? && "date" !in c.query ==>
              c.replies == old(c.replies) + [Reply(StatusBadRequest, ErrorBody("date not found"))]
    ensures GetData(c).Success? && "date" in c.query ==>
              var caller, day := GetData(c).value, DayOf(parseDay, c.query["date"]);
              |c.replies| == |old(c.replies)| + 1 && c.replies[..|old(c.replies)|] == old(c.replies)
              && c.replies[|old(c.replies)|].status == StatusOK
              && c.replies[|old(c.replies)|].body.WorkoutsBody?
              && (forall w :: w in c.replies[|old(c.replies)|].body.workouts <==>
                     w in repo.Joined() && w.date.Some? && w.date.value.day == day
                     && (caller.role != "admin" && caller.userID != 0 ==> w.trainer.id == caller.userID))
  {
    var data := GetData(c);
    if data.Failure? {
      c.Abort(ErrorReply(StatusUnauthorized, data.error));
      return;
    }
    var trainerID := 0;
    if data.value.role != "admin" {
      trainerID := data.value.userID;
    }
    var dateData := c.GetQuery("date");
    if dateData.None? {
      c.Abort(Reply(StatusBadRequest, ErrorBody("date not found")));
      return;
    }
    var day := DayOf(parseDay, dateData.value);
    var workouts := repo.GetWorkoutsByDate(day, trainerID);
    c.Abort(Reply(StatusOK, WorkoutsBody(workouts)));
  }

  /** `getWorkoutsByInterval`: the same scoping over both endpoint days
      inclusive; `from` is checked before `to`. */
  method GetWorkoutsByInterval(c: Context, repo: Repository.Repository, parseDay: string -> Option<Date>)
    modifies c`aborted, c`replies
    ensures GetData(c).Failure? ==> c.replies == old(c.replies) + [ErrorReply(StatusUnauthorized, ErrUserIdNotFound)]
    ensures GetData(c).Success? && "from" !in c.query ==>
              c.replies == old(c.replies) + [Reply(StatusBadRequest, ErrorBody("from not found"))]
    ensures GetData(c).Success? && "from" in c.query && "to" !in c.query ==>
              c.replies == old(c.replies) + [Reply(StatusBadRequest, ErrorBody("to not found"))]
    ensures GetData(c).Success? && "from" in c.query && "to" in c.query ==>
              var caller := GetData(c).value;
              var from, to := DayOf(parseDay, c.query["from"]), DayOf(parseDay, c.query["to"]);
              |c.replies| == |old(c.replies)| + 1 && c.replies[..|old(c.replies)|] == old(c.replies)
              && c.replies[|old(c.replies)|].status == StatusOK
              && c.replies[|old(c.replies)|].body.WorkoutsBody?
              && (forall w :: w in c.replies[|old(c.replies)|].body.workouts <==>
                     w in repo.Joined() && w.date.Some?
                     && DateLe(from, w.date.value.day) && DateLe(w.date.value.day, to)
                     && (caller.role != "admin" && caller.userID != 0 ==> w.trainer.id == caller.userID))
  {
    var data := GetData(c);
    if data.Failure? {
      c.Abort(ErrorReply(StatusUnauthorized, data.error));
      return;
    }
    var trainerID := 0;
    if data.value.role != "admin" {
      trainerID := data.value.userID;
    }
    var dateFromData := c.GetQuery("from");
    if dateFromData.None? {
      c.Abort(Reply(StatusBadRequest, ErrorBody("from not found")));
      return;
    }
    var dateToData := c.GetQuery("to");
    if dateToData.None? {
      c.Abort(Reply(StatusBadRequest, ErrorBody("to not found")));
      return;
    }
    var from := DayOf(parseDay, dateFromData.value);
    var to := DayOf(parseDay, dateToData.value);
    var workouts := repo.GetWorkoutsByInterval(from, to, trainerID);
    c.Abort(Reply(StatusOK, WorkoutsBody(workouts)));
  }

  // ---- whole requests on the gated listings

  /** The identity the gate admits for a header, if any. */
  function Caller(header: string, lib: Service.Jwt, now: int): Option<Identity>
  {
    match CheckHeader(header)
    case Reject(_) => None
    case Token(t) =>
      match Service.ParseToken(lib, t, now)
      case Success(identity) => Some(identity)
      case Failure(_) => None
  }

  /** A new request to `/fitness/workout/list-by-date`: `userIdentity`, then
      the listing unless the gate aborted. Exactly one reply is written; a
      list is only sent to a caller the gate admitted, and a non-admin caller
      with a non-zero id receives only workouts of its own trainer id. */
  method ServeWorkoutsByDate(c: Context, lib: Service.Jwt, now: int, repo: Repository.Repository,
                             parseDay: string -> Option<Date>)
    requires c.keys == map[] && !c.aborted && c.replies == []
    modifies c`keys, c`aborted, c`replies
    ensures |c.replies| == 1
    ensures c.replies[0].status == StatusOK <==> Caller(c.header, lib, now).Some? && "date" in c.query
    ensures Caller(c.header, lib, now).None? ==> c.replies[0].status == StatusUnauthorized
    ensures c.replies[0].body.WorkoutsBody? ==>
              var caller := Caller(c.header, lib, now);
              caller.Some? &&
              (caller.value.role != "admin" && caller.value.userID != 0 ==>
                 forall w :: w in c.replies[0].body.workouts ==> w.trainer.id == caller.value.userID)
  {
    UserIdentity(c, lib, now);
    if !c.aborted {
      GetWorkoutsByDate(c, repo, parseDay);
    }
  }

  /** The same for `/fitness/workout/list-by-interval`. */
  method ServeWorkoutsByInterval(c: Context, lib: Service.Jwt, now: int, repo: Repository.Repository,
                                 parseDay: string -> Option<Date>)
    requires c.keys == map[] && !c.aborted && c.replies == []
    modifies c`keys, c`aborted, c`replies
    ensures |c.replies| == 1
    ensures c.replies[0].status == StatusOK <==>
              Caller(c.header, lib, now).Some? && "from" in c.query && "to" in c.query
    ensures Caller(c.header, lib, now).None? ==> c.replies[0].status == StatusUnauthorized
    ensures c.replies[0].body.WorkoutsBody? ==>
              var caller := Caller(c.header, lib, now);
              caller.Some? &&
              (caller.value.role != "admin" && caller.value.userID != 0 ==>
                 forall w :: w in c.replies[0].body.workouts ==> w.trainer.id == caller.value.userID)
  {
    UserIdentity(c, lib, now);
    if !c.aborted {
      GetWorkoutsByInterval(c, repo, parseDay);
    }
  }
}
