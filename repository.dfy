/** The repository as in-memory tables: one sequence of rows per table, a
    serial counter per table for the ids the database assigns, the effect of
    every insert, update and delete on those sequences, and the readers as
    filters and sums over them. */
module Repository {
  import opened Wrappers
  import opened Errors
  import opened Calendar
  import opened Models
  import opened Tables

  function AdminKey(a: Admin): int { a.id }
  function AdminLogin(a: Admin): string { a.login }
  function TrainerKey(t: Trainer): int { t.id }
  function TrainerToken(t: Trainer): string { t.token }
  function ClientKey(c: Client): int { c.id }
  function WorkoutTypeKey(t: WorkoutType): int { t.id }
  function WorkoutKey(w: WorkoutRow): int { w.id }
  function ResponseKey(w: WorkoutResponse): int { w.id }

  /** `LoadOne` reports a missing row as `dbr.ErrNotFound`. */
  function LoadOne<T>(row: Option<T>): (r: Result<T, Error>)
    ensures r.Failure? <==> row.None?
    ensures r.Failure? ==> r.error == ErrNotFound
    ensures r.Success? ==> row == Some(r.value)
  {
    match row
    case Some(x) => Success(x)
    case None => Failure(ErrNotFound)
  }

  /** The day condition of a query: `DATE(date) = ?` or `DATE(date) BETWEEN ? AND ?`. */
  datatype DayFilter = OnDay(day: Date) | Between(from: Date, to: Date)
  {
    predicate Admits(d: Date)
    {
      match this
      case OnDay(day) => d == day
      case Between(from, to) => DateLe(from, d) && DateLe(d, to)
    }
  }

  /** The `WHERE` conditions the workout listings add. */
  datatype Cond = TrainerIs(trainerID: int) | ClientIs(clientID: int) | DateIn(filter: DayFilter)

  predicate Holds(c: Cond, w: WorkoutResponse)
  {
    match c
    case TrainerIs(t) => w.trainer.id == t
    case ClientIs(k) => w.client.id == k
    case DateIn(f) => w.date.Some? && f.Admits(w.date.value.day)
  }

  /** The select statement under construction: each `Where` call adds one
      condition, and a row is loaded when it meets all of them. */
  datatype Select = Select(conds: seq<Cond>)
  {
    function Where(c: Cond): (s: Select)
      ensures forall w :: s.Admits(w) <==> Admits(w) && Holds(c, w)
    {
      var s := Select(conds + [c]);
      assert forall w :: s.Admits(w) <==> Admits(w) && Holds(c, w) by {
        forall w ensures s.Admits(w) <==> Admits(w) && Holds(c, w) {
          if s.Admits(w) {
            forall i | 0 <= i < |conds| ensures Holds(conds[i], w) {
              assert s.conds[i] == conds[i];
            }
            assert s.conds[|conds|] == c;
          }
        }
      }
      s
    }

    predicate Admits(w: WorkoutResponse)
    {
      forall i :: 0 <= i < |conds| ==> Holds(conds[i], w)
    }
  }

  /** `s.Select(...).From(...)` before any `Where`: every row qualifies. */
  function Unfiltered(): (s: Select)
    ensures forall w :: s.Admits(w)
  {
    Select([])
  }

  /** `LoadContext` of a select over the joined rows: the rows that meet all
      conditions, in the order the join yields them. */
  function Load(stmt: Select, rows: seq<WorkoutResponse>): (r: seq<WorkoutResponse>)
    ensures forall w :: w in r <==> w in rows && stmt.Admits(w)
    ensures stmt.conds == [] ==> r == rows
    ensures |r| <= |rows|
  {
    if rows == [] then []
    else if stmt.Admits(rows[0]) then [rows[0]] + Load(stmt, rows[1..])
    else Load(stmt, rows[1..])
  }

  /** One workout row joined with its type, client and trainer; no result
      when one of them is missing (an inner join drops the row). */
  function JoinOne(w: WorkoutRow, types: seq<WorkoutType>, clients: seq<Client>,
                   trainers: seq<Trainer>): (r: Option<WorkoutResponse>)
    ensures r.Some? ==> r.value.id == w.id && r.value.trainer.id == w.trainerID
                        && r.value.client.id == w.clientID && r.value.workoutType.id == w.workoutTypeID
                        && r.value.status == w.status && r.value.date == w.date
    ensures r.Some? ==> exists c :: c in clients && c.id == w.clientID
                                    && r.value.client == ClientPart(c.id, c.firstName, c.lastName, c.phoneNumber)
    ensures r.Some? ==> exists t :: t in trainers && t.id == w.trainerID
                                    && r.value.trainer == TrainerPart(t.id, t.firstName, t.lastName)
    ensures r.Some? ==> exists wt :: wt in types && wt.id == w.workoutTypeID
                                     && r.value.workoutType == WorkoutTypePart(wt.id, wt.title, wt.price)
    ensures r.None? <==> (forall i :: 0 <= i < |types| ==> types[i].id != w.workoutTypeID)
                         || (forall i :: 0 <= i < |clients| ==> clients[i].id != w.clientID)
                         || (forall i :: 0 <= i < |trainers| ==> trainers[i].id != w.trainerID)
  {
    var wt := FindFirst(types, w.workoutTypeID, WorkoutTypeKey);
    var c := FindFirst(clients, w.clientID, ClientKey);
    var t := FindFirst(trainers, w.trainerID, TrainerKey);
    if wt.None? || c.None? || t.None? then None
    else
      Some(WorkoutResponse(
        w.id,
        ClientPart(c.value.id, c.value.firstName, c.value.lastName, c.value.phoneNumber),
        TrainerPart(t.value.id, t.value.firstName, t.value.lastName),
        WorkoutTypePart(wt.value.id, wt.value.title, wt.value.price),
        w.status, w.date))
  }

  /** With primary keys on the three joined tables, the joined row is made of
      exactly the rows that carry the workout's three ids. */
  lemma JoinOneOfKeyedTables(w: WorkoutRow, types: seq<WorkoutType>, clients: seq<Client>, trainers: seq<Trainer>,
                             wt: WorkoutType, c: Client, t: Trainer)
    requires DistinctKeys(types, WorkoutTypeKey) && DistinctKeys(clients, ClientKey)
             && DistinctKeys(trainers, TrainerKey)
    requires wt in types && wt.id == w.workoutTypeID
    requires c in clients && c.id == w.clientID
    requires t in trainers && t.id == w.trainerID
    ensures JoinOne(w, types, clients, trainers)
            == Some(WorkoutResponse(w.id, ClientPart(c.id, c.firstName, c.lastName, c.phoneNumber),
                                    TrainerPart(t.id, t.firstName, t.lastName),
                                    WorkoutTypePart(wt.id, wt.title, wt.price), w.status, w.date))
  {
    FindFirstUnique(types, w.workoutTypeID, WorkoutTypeKey, wt);
    FindFirstUnique(clients, w.clientID, ClientKey, c);
    FindFirstUnique(trainers, w.trainerID, TrainerKey, t);
  }

  /** The workouts-types-clients-trainers join every listing selects from. */
  function JoinAll(ws: seq<WorkoutRow>, types: seq<WorkoutType>, clients: seq<Client>,
                   trainers: seq<Trainer>): (r: seq<WorkoutResponse>)
    ensures |r| <= |ws|
    ensures forall x :: x in r ==> exists w :: w in ws && JoinOne(w, types, clients, trainers) == Some(x)
    ensures forall w :: w in ws && JoinOne(w, types, clients, trainers).Some? ==>
              JoinOne(w, types, clients, trainers).value in r
  {
    if ws == [] then []
    else
      var rest := JoinAll(ws[1..], types, clients, trainers);
      assert forall w :: w in ws[1..] ==> w in ws;
      assert forall w :: w in ws ==> w == ws[0] || w in ws[1..];
      match JoinOne(ws[0], types, clients, trainers)
      case Some(x) => [x] + rest
      case None => rest
  }

  /** Postgres integer division truncates towards zero. */
  function TruncHalf(s: int): (h: int)
    ensures s >= 0 ==> 0 <= 2 * h <= s <= 2 * h + 1
    ensures s < 0 ==> 2 * h - 1 <= s <= 2 * h <= 0
  {
    if s >= 0 then s / 2 else -((-s) / 2)
  }

  /** The prices the inner join `workout_types.id = workouts.workout_type_id`
      brings to one workout row: one price per type row with that id. */
  function TypePrices(types: seq<WorkoutType>, id: int): (r: int)
    ensures (forall i :: 0 <= i < |types| ==> types[i].id != id) ==> r == 0
    ensures (forall i :: 0 <= i < |types| ==> types[i].price >= 0) ==> r >= 0
  {
    if types == [] then 0
    else (if types[0].id == id then types[0].price else 0) + TypePrices(types[1..], id)
  }

  /** With a primary key on the types, the join brings in exactly the price
      of the one type row with the id. */
  lemma {:induction false} TypePricesOfKey(types: seq<WorkoutType>, t: WorkoutType)
    requires DistinctKeys(types, WorkoutTypeKey) && t in types
    ensures TypePrices(types, t.id) == t.price
  {
    if types[0].id == t.id {
      var i :| 0 <= i < |types| && types[i] == t;
      assert i == 0;
      forall k | 0 <= k < |types[1..]| ensures types[1..][k].id != t.id {
        assert WorkoutTypeKey(types[0]) != WorkoutTypeKey(types[k + 1]);
      }
    } else {
      assert DistinctKeys(types[1..], WorkoutTypeKey) by {
        forall i, j | 0 <= i < j < |types[1..]|
          ensures WorkoutTypeKey(types[1..][i]) != WorkoutTypeKey(types[1..][j])
        {
          assert types[1..][i] == types[i + 1] && types[1..][j] == types[j + 1];
        }
      }
      TypePricesOfKey(types[1..], t);
    }
  }

  /** What one workout row adds to `SUM(price)` of the cash queries: the
      prices its type rows bring in when it is the trainer's and falls in
      the window, nothing otherwise. */
  function PriceOf(w: WorkoutRow, types: seq<WorkoutType>, trainerID: int, window: DayFilter): (r: int)
    ensures r != 0 ==> w.trainerID == trainerID && w.date.Some? && window.Admits(w.date.value.day)
                       && exists i :: 0 <= i < |types| && types[i].id == w.workoutTypeID
    ensures (forall i :: 0 <= i < |types| ==> types[i].price >= 0) ==> r >= 0
  {
    if w.trainerID == trainerID && w.date.Some? && window.Admits(w.date.value.day) then
      TypePrices(types, w.workoutTypeID)
    else 0
  }

  /** `SUM(price)` over `workout_types JOIN workouts` for one trainer and
      window; no matching row adds nothing (SQL's NULL sum read as 0). */
  function PriceSum(ws: seq<WorkoutRow>, types: seq<WorkoutType>, trainerID: int, window: DayFilter): (r: int)
    ensures (forall i :: 0 <= i < |types| ==> types[i].price >= 0) ==> r >= 0
    ensures r != 0 ==> exists i :: 0 <= i < |ws| && ws[i].trainerID == trainerID && ws[i].date.Some?
                                   && window.Admits(ws[i].date.value.day)
  {
    if ws == [] then 0
    else
      var r := PriceOf(ws[0], types, trainerID, window) + PriceSum(ws[1..], types, trainerID, window);
      assert r != 0 ==> exists i :: 0 <= i < |ws| && ws[i].trainerID == trainerID && ws[i].date.Some?
                                    && window.Admits(ws[i].date.value.day) by {
        if r != 0 && PriceOf(ws[0], types, trainerID, window) == 0 {
          var i :| 0 <= i < |ws[1..]| && ws[1..][i].trainerID == trainerID && ws[1..][i].date.Some?
                   && window.Admits(ws[1..][i].date.value.day);
          assert ws[i + 1] == ws[1..][i];
        }
      }
      r
  }

  /** Without a matching row of the trainer in the window the sum is 0. */
  lemma {:induction false} PriceSumWithoutRows(ws: seq<WorkoutRow>, types: seq<WorkoutType>,
                                                trainerID: int, window: DayFilter)
    requires forall i :: 0 <= i < |ws| ==>
               ws[i].trainerID != trainerID || ws[i].date.None? || !window.Admits(ws[i].date.value.day)
    ensures PriceSum(ws, types, trainerID, window) == 0
  {
    if ws != [] {
      PriceSumWithoutRows(ws[1..], types, trainerID, window);
    }
  }

  /** A row appended to the workouts adds exactly its own contribution. */
  lemma {:induction false} PriceSumAppend(ws: seq<WorkoutRow>, w: WorkoutRow, types: seq<WorkoutType>,
                                           trainerID: int, window: DayFilter)
    ensures PriceSum(ws + [w], types, trainerID, window)
            == PriceSum(ws, types, trainerID, window) + PriceOf(w, types, trainerID, window)
  {
    if ws != [] {
      assert (ws + [w])[1..] == ws[1..] + [w];
      PriceSumAppend(ws[1..], w, types, trainerID, window);
    }
  }

  /** With a primary key on the types, a row of the trainer inside the
      window adds the price of its type; every other row adds nothing. */
  lemma PriceOfRow(w: WorkoutRow, types: seq<WorkoutType>, trainerID: int, window: DayFilter, t: WorkoutType)
    requires DistinctKeys(types, WorkoutTypeKey) && t in types && t.id == w.workoutTypeID
    ensures PriceOf(w, types, trainerID, window)
            == if w.trainerID == trainerID && w.date.Some? && window.Admits(w.date.value.day) then t.price else 0
  {
    if w.trainerID == trainerID && w.date.Some? && window.Admits(w.date.value.day) {
      TypePricesOfKey(types, t);
    }
  }

  /** Deleting rows that the sum does not count, because they belong to
      another trainer or fall outside the window, leaves the sum as it was. */
  lemma {:induction false} PriceSumIgnoresOthers(ws: seq<WorkoutRow>, id: int, types: seq<WorkoutType>,
                                                  trainerID: int, window: DayFilter)
    requires forall i :: 0 <= i < |ws| && ws[i].id == id ==>
               ws[i].trainerID != trainerID || ws[i].date.None? || !window.Admits(ws[i].date.value.day)
    ensures PriceSum(RemoveKey(ws, id, WorkoutKey), types, trainerID, window)
            == PriceSum(ws, types, trainerID, window)
  {
    if ws != [] {
      PriceSumIgnoresOthers(ws[1..], id, types, trainerID, window);
      if WorkoutKey(ws[0]) != id {
        assert ([ws[0]] + RemoveKey(ws[1..], id, WorkoutKey))[1..] == RemoveKey(ws[1..], id, WorkoutKey);
      }
    }
  }

  class Repository {
    var admins: seq<Admin>
    var trainers: seq<Trainer>
    var clients: seq<Client>
    var workoutTypes: seq<WorkoutType>
    var workouts: seq<WorkoutRow>

    /** The next value of each table's id sequence. */
    var nextAdminId: int
    var nextTrainerId: int
    var nextClientId: int
    var nextWorkoutTypeId: int
    var nextWorkoutId: int

    /** The column defaults of `workouts.status` and `workouts.date`, which
        no insert writes. */
    const defaultStatus: string
    const defaultDate: Option<Timestamp>

    /** Every table's ids are distinct and below its sequence's next value. */
    ghost predicate Valid()
      reads this
    {
      && KeysBelow(admins, AdminKey, nextAdminId) && DistinctKeys(admins, AdminKey)
      && KeysBelow(trainers, TrainerKey, nextTrainerId) && DistinctKeys(trainers, TrainerKey)
      && KeysBelow(clients, ClientKey, nextClientId) && DistinctKeys(clients, ClientKey)
      && KeysBelow(workoutTypes, WorkoutTypeKey, nextWorkoutTypeId) && DistinctKeys(workoutTypes, WorkoutTypeKey)
      && KeysBelow(workouts, WorkoutKey, nextWorkoutId) && DistinctKeys(workouts, WorkoutKey)
    }

    constructor (defaultStatus: string, defaultDate: Option<Timestamp>)
      ensures Valid()
      ensures admins == [] && trainers == [] && clients == [] && workoutTypes == [] && workouts == []
      ensures this.defaultStatus == defaultStatus && this.defaultDate == defaultDate
    {
      admins, trainers, clients, workoutTypes, workouts := [], [], [], [], [];
      nextAdminId, nextTrainerId, nextClientId, nextWorkoutTypeId, nextWorkoutId := 1, 1, 1, 1, 1;
      this.defaultStatus, this.defaultDate := defaultStatus, defaultDate;
    }

    // ---- admins

    /** `GetAdmin`: the first admin with this login. */
    function GetAdmin(login: string): (r: Result<Admin, Error>)
      reads this
      ensures r.Success? ==> r.value in admins && r.value.login == login
      ensures r.Failure? <==> forall i :: 0 <= i < |admins| ==> admins[i].login != login
      ensures r.Failure? ==> r.error == ErrNotFound
    {
      LoadOne(FindFirst(admins, login, AdminLogin))
    }

    function GetAdminByID(id: int): (r: Result<Admin, Error>)
      reads this
      ensures r.Success? ==> r.value in admins && r.value.id == id
      ensures r.Failure? <==> forall i :: 0 <= i < |admins| ==> admins[i].id != id
      ensures r.Failure? ==> r.error == ErrNotFound
    {
      LoadOne(FindFirst(admins, id, AdminKey))
    }

    /** `CreateAdmin` inserts login, password and names; the id comes from the sequence. */
    method CreateAdmin(admin: Admin)
      requires Valid()
      modifies this`admins, this`nextAdminId
      ensures Valid()
      ensures admins == old(admins) + [admin.(id := old(nextAdminId))]
      ensures nextAdminId == old(nextAdminId) + 1
      ensures GetAdminByID(old(nextAdminId)) == Success(admin.(id := old(nextAdminId)))
    {
      AppendKeepsKeys(admins, admin.(id := nextAdminId), AdminKey, nextAdminId);
      FindFirstAppendNew(admins, admin.(id := nextAdminId), nextAdminId, AdminKey);
      admins := admins + [admin.(id := nextAdminId)];
      nextAdminId := nextAdminId + 1;
    }

    method DeleteAdmin(id: int)
      requires Valid()
      modifies this`admins
      ensures Valid()
      ensures admins == RemoveKey(old(admins), id, AdminKey)
    {
      RemoveKeyKeepsKeys(admins, id, AdminKey, nextAdminId);
      admins := RemoveKey(admins, id, AdminKey);
    }

    // ---- trainers

    function GetTrainerByToken(token: string): (r: Result<Trainer, Error>)
      reads this
      ensures r.Success? ==> r.value in trainers && r.value.token == token
      ensures r.Failure? <==> forall i :: 0 <= i < |trainers| ==> trainers[i].token != token
      ensures r.Failure? ==> r.error == ErrNotFound
    {
      LoadOne(FindFirst(trainers, token, TrainerToken))
    }

    function GetTrainerByID(id: int): (r: Result<Trainer, Error>)
      reads this
      ensures r.Success? ==> r.value in trainers && r.value.id == id
      ensures r.Failure? <==> forall i :: 0 <= i < |trainers| ==> trainers[i].id != id
      ensures r.Failure? ==> r.error == ErrNotFound
    {
      LoadOne(FindFirst(trainers, id, TrainerKey))
    }

    /** `CreateTrainer` inserts token and names and returns the token column
        of the new row. */
    method CreateTrainer(trainer: Trainer) returns (token: string)
      requires Valid()
      modifies this`trainers, this`nextTrainerId
      ensures Valid()
      ensures trainers == old(trainers) + [trainer.(id := old(nextTrainerId))]
      ensures nextTrainerId == old(nextTrainerId) + 1
      ensures token == trainer.token
      ensures GetTrainerByID(old(nextTrainerId)) == Success(trainer.(id := old(nextTrainerId)))
    {
      AppendKeepsKeys(trainers, trainer.(id := nextTrainerId), TrainerKey, nextTrainerId);
      FindFirstAppendNew(trainers, trainer.(id := nextTrainerId), nextTrainerId, TrainerKey);
      trainers := trainers + [trainer.(id := nextTrainerId)];
      nextTrainerId := nextTrainerId + 1;
      token := trainer.token;
    }

    method DeleteTrainer(id: int)
      requires Valid()
      modifies this`trainers
      ensures Valid()
      ensures trainers == RemoveKey(old(trainers), id, TrainerKey)
    {
      RemoveKeyKeepsKeys(trainers, id, TrainerKey, nextTrainerId);
      trainers := RemoveKey(trainers, id, TrainerKey);
    }

    // ---- clients

    function GetClientByID(id: int): (r: Result<Client, Error>)
      reads this
      ensures r.Success? ==> r.value in clients && r.value.id == id
      ensures r.Failure? <==> forall i :: 0 <= i < |clients| ==> clients[i].id != id
      ensures r.Failure? ==> r.error == ErrNotFound
    {
      LoadOne(FindFirst(clients, id, ClientKey))
    }

    /** `CreateClient` inserts first_name, last_name and surname; the phone
        number column stays NULL. */
    method CreateClient(client: Client)
      requires Valid()
      modifies this`clients, this`nextClientId
      ensures Valid()
      ensures clients == old(clients) + [client.(id := old(nextClientId), phoneNumber := None)]
      ensures nextClientId == old(nextClientId) + 1
      ensures GetClientByID(old(nextClientId)) == Success(client.(id := old(nextClientId), phoneNumber := None))
    {
      var row := client.(id := nextClientId, phoneNumber := None);
      AppendKeepsKeys(clients, row, ClientKey, nextClientId);
      FindFirstAppendNew(clients, row, nextClientId, ClientKey);
      clients := clients + [row];
      nextClientId := nextClientId + 1;
    }

    /** `UpdateClient` sets first_name, last_name and surname of the row
        with the client's id. */
    method UpdateClient(client: Client)
      requires Valid()
      modifies this`clients
      ensures Valid()
      ensures |clients| == |old(clients)|
      ensures forall i :: 0 <= i < |clients| ==>
                clients[i] == if old(clients)[i].id == client.id
                              then old(clients)[i].(firstName := client.firstName, lastName := client.lastName,
                                                    surname := client.surname)
                              else old(clients)[i]
    {
      clients := seq(|clients|, i requires 0 <= i < |clients| reads this =>
                       if clients[i].id == client.id
                       then clients[i].(firstName := client.firstName, lastName := client.lastName,
                                        surname := client.surname)
                       else clients[i]);
    }

    // ---- workout types

    function GetWorkoutTypeByID(id: int): (r: Result<WorkoutType, Error>)
      reads this
      ensures r.Success? ==> r.value in workoutTypes && r.value.id == id
      ensures r.Failure? <==> forall i :: 0 <= i < |workoutTypes| ==> workoutTypes[i].id != id
      ensures r.Failure? ==> r.error == ErrNotFound
    {
      LoadOne(FindFirst(workoutTypes, id, WorkoutTypeKey))
    }

    method CreateWorkoutType(workoutType: WorkoutType)
      requires Valid()
      modifies this`workoutTypes, this`nextWorkoutTypeId
      ensures Valid()
      ensures workoutTypes == old(workoutTypes) + [workoutType.(id := old(nextWorkoutTypeId))]
      ensures nextWorkoutTypeId == old(nextWorkoutTypeId) + 1
      ensures GetWorkoutTypeByID(old(nextWorkoutTypeId)) == Success(workoutType.(id := old(nextWorkoutTypeId)))
    {
      AppendKeepsKeys(workoutTypes, workoutType.(id := nextWorkoutTypeId), WorkoutTypeKey, nextWorkoutTypeId);
      FindFirstAppendNew(workoutTypes, workoutType.(id := nextWorkoutTypeId), nextWorkoutTypeId, WorkoutTypeKey);
      workoutTypes := workoutTypes + [workoutType.(id := nextWorkoutTypeId)];
      nextWorkoutTypeId := nextWorkoutTypeId + 1;
    }

    /** `UpdateWorkoutType` sets title and price of the row with its id. */
    method UpdateWorkoutType(workoutType: WorkoutType)
      requires Valid()
      modifies this`workoutTypes
      ensures Valid()
      ensures |workoutTypes| == |old(workoutTypes)|
      ensures forall i :: 0 <= i < |workoutTypes| ==>
                workoutTypes[i] == if old(workoutTypes)[i].id == workoutType.id
                                   then old(workoutTypes)[i].(title := workoutType.title, price := workoutType.price)
                                   else old(workoutTypes)[i]
    {
      workoutTypes := seq(|workoutTypes|, i requires 0 <= i < |workoutTypes| reads this =>
                            if workoutTypes[i].id == workoutType.id
                            then workoutTypes[i].(title := workoutType.title, price := workoutType.price)
                            else workoutTypes[i]);
    }

    method DeleteWorkoutType(id: int)
      requires Valid()
      modifies this`workoutTypes
      ensures Valid()
      ensures workoutTypes == RemoveKey(old(workoutTypes), id, WorkoutTypeKey)
    {
      RemoveKeyKeepsKeys(workoutTypes, id, WorkoutTypeKey, nextWorkoutTypeId);
      workoutTypes := RemoveKey(workoutTypes, id, WorkoutTypeKey);
    }

    // ---- workouts

    /** `CreateWorkout` inserts client_id, trainer_id, workout_type_id and
        admin_id; status and date take the column defaults. */
    method CreateWorkout(workout: WorkoutRequest)
      requires Valid()
      modifies this`workouts, this`nextWorkoutId
      ensures Valid()
      ensures workouts == old(workouts) + [WorkoutRow(old(nextWorkoutId), workout.clientID, workout.trainerID,
                                                      workout.workoutTypeID, workout.adminID,
                                                      defaultStatus, defaultDate)]
      ensures nextWorkoutId == old(nextWorkoutId) + 1
      ensures FindFirst(workouts, old(nextWorkoutId), WorkoutKey) == Some(workouts[|workouts| - 1])
      ensures var j := JoinOne(workouts[|workouts| - 1], workoutTypes, clients, trainers);
              j.Some? ==> j.value in Joined()
    {
      var row := WorkoutRow(nextWorkoutId, workout.clientID, workout.trainerID, workout.workoutTypeID,
                            workout.adminID, defaultStatus, defaultDate);
      AppendKeepsKeys(workouts, row, WorkoutKey, nextWorkoutId);
      FindFirstAppendNew(workouts, row, nextWorkoutId, WorkoutKey);
      workouts := workouts + [row];
      nextWorkoutId := nextWorkoutId + 1;
    }

    /** `UpdateWorkout` sets client_id, trainer_id, workout_type_id and date
        of the row with the request's id; status and admin_id stay. */
    method UpdateWorkout(workout: WorkoutRequest)
      requires Valid()
      modifies this`workouts
      ensures Valid()
      ensures |workouts| == |old(workouts)|
      ensures forall i :: 0 <= i < |workouts| ==>
                workouts[i] == if old(workouts)[i].id == workout.id
                               then old(workouts)[i].(clientID := workout.clientID, trainerID := workout.trainerID,
                                                      workoutTypeID := workout.workoutTypeID,
                                                      date := Some(workout.date))
                               else old(workouts)[i]
      ensures forall i :: 0 <= i < |workouts| ==>
                workouts[i].status == old(workouts)[i].status && workouts[i].adminID == old(workouts)[i].adminID
    {
      workouts := seq(|workouts|, i requires 0 <= i < |workouts| reads this =>
                        if workouts[i].id == workout.id
                        then workouts[i].(clientID := workout.clientID, trainerID := workout.trainerID,
                                          workoutTypeID := workout.workoutTypeID, date := Some(workout.date))
                        else workouts[i]);
    }

    method DeleteWorkout(id: int)
      requires Valid()
      modifies this`workouts
      ensures Valid()
      ensures workouts == RemoveKey(old(workouts), id, WorkoutKey)
    {
      RemoveKeyKeepsKeys(workouts, id, WorkoutKey, nextWorkoutId);
      workouts := RemoveKey(workouts, id, WorkoutKey);
    }

    /** `ChangeStatusWorkout` sets the status column of the row with the id,
        whatever string the status is. */
    method ChangeStatusWorkout(id: int, status: string)
      requires Valid()
      modifies this`workouts
      ensures Valid()
      ensures |workouts| == |old(workouts)|
      ensures forall i :: 0 <= i < |workouts| ==>
                workouts[i] == if old(workouts)[i].id == id then old(workouts)[i].(status := status)
                               else old(workouts)[i]
    {
      workouts := seq(|workouts|, i requires 0 <= i < |workouts| reads this =>
                        if workouts[i].id == id then workouts[i].(status := status) else workouts[i]);
    }

    /** The rows of the four-table join, before any condition. */
    function Joined(): seq<WorkoutResponse>
      reads this
    {
      JoinAll(workouts, workoutTypes, clients, trainers)
    }

    function GetWorkoutByID(id: int): (r: Result<WorkoutResponse, Error>)
      reads this
      ensures r.Success? ==> r.value in Joined() && r.value.id == id
      ensures r.Failure? <==> forall i :: 0 <= i < |Joined()| ==> Joined()[i].id != id
      ensures r.Failure? ==> r.error == ErrNotFound
    {
      LoadOne(FindFirst(Joined(), id, ResponseKey))
    }

    /** `GetWorkouts`: the trainer filter only for a non-zero trainer id, the
        client filter only for a non-zero client id. */
    method GetWorkouts(trainerID: int, clientID: int) returns (rows: seq<WorkoutResponse>)
      ensures forall w :: w in rows <==> w in Joined()
                                         && (trainerID != 0 ==> w.trainer.id == trainerID)
                                         && (clientID != 0 ==> w.client.id == clientID)
      ensures trainerID == 0 && clientID == 0 ==> rows == Joined()
    {
      var stmt := Unfiltered();
      if trainerID != 0 {
        stmt := stmt.Where(TrainerIs(trainerID));
      }
      if clientID != 0 {
        stmt := stmt.Where(ClientIs(clientID));
      }
      rows := Load(stmt, Joined());
    }

    /** `GetWorkoutsByDate`: the rows of one calendar day, of one trainer
        unless the trainer id is 0. */
    method GetWorkoutsByDate(day: Date, trainerID: int) returns (rows: seq<WorkoutResponse>)
      ensures forall w :: w in rows <==> w in Joined() && w.date.Some? && w.date.value.day == day
                                         && (trainerID != 0 ==> w.trainer.id == trainerID)
    {
      var stmt := Unfiltered().Where(DateIn(OnDay(day)));
      if trainerID != 0 {
        stmt := stmt.Where(TrainerIs(trainerID));
      }
      rows := Load(stmt, Joined());
    }

    /** `GetWorkoutsByInterval`: the rows whose day lies between both
        endpoints inclusive, of one trainer unless the trainer id is 0. */
    method GetWorkoutsByInterval(from: Date, to: Date, trainerID: int) returns (rows: seq<WorkoutResponse>)
      ensures forall w :: w in rows <==> w in Joined() && w.date.Some?
                                         && DateLe(from, w.date.value.day) && DateLe(w.date.value.day, to)
                                         && (trainerID != 0 ==> w.trainer.id == trainerID)
    {
      var stmt := Unfiltered().Where(DateIn(Between(from, to)));
      if trainerID != 0 {
        stmt := stmt.Where(TrainerIs(trainerID));
      }
      rows := Load(stmt, Joined());
    }

    /** `GetCashByMonth`: half the summed prices of the trainer's workouts
        from the first to the last day of the current month. */
    function GetCashByMonth(trainerID: int, today: Date): (cash: int)
      requires ValidDate(today)
      reads this
      ensures var s := PriceSum(workouts, workoutTypes, trainerID,
                                Between(FirstDayOfMonth(today), LastDayOfMonth(today)));
              (s >= 0 ==> 0 <= 2 * cash <= s <= 2 * cash + 1) && (s < 0 ==> 2 * cash - 1 <= s <= 2 * cash)
    {
      TruncHalf(PriceSum(workouts, workoutTypes, trainerID, Between(FirstDayOfMonth(today), LastDayOfMonth(today))))
    }

    /** `GetCashByDay`: half the summed prices of the trainer's workouts of
        the current day. */
    function GetCashByDay(trainerID: int, today: Date): (cash: int)
      reads this
      ensures var s := PriceSum(workouts, workoutTypes, trainerID, OnDay(today));
              (s >= 0 ==> 0 <= 2 * cash <= s <= 2 * cash + 1) && (s < 0 ==> 2 * cash - 1 <= s <= 2 * cash)
    {
      TruncHalf(PriceSum(workouts, workoutTypes, trainerID, OnDay(today)))
    }
  }

  /** `id` is the primary key of every table: looking up a row's id finds
      that row. */
  lemma LookupByPrimaryKey(repo: Repository)
    requires repo.Valid()
    ensures forall a :: a in repo.admins ==> repo.GetAdminByID(a.id) == Success(a)
    ensures forall t :: t in repo.trainers ==> repo.GetTrainerByID(t.id) == Success(t)
    ensures forall c :: c in repo.clients ==> repo.GetClientByID(c.id) == Success(c)
    ensures forall t :: t in repo.workoutTypes ==> repo.GetWorkoutTypeByID(t.id) == Success(t)
  {
    forall a | a in repo.admins ensures repo.GetAdminByID(a.id) == Success(a) {
      FindFirstUnique(repo.admins, a.id, AdminKey, a);
    }
    forall t | t in repo.trainers ensures repo.GetTrainerByID(t.id) == Success(t) {
      FindFirstUnique(repo.trainers, t.id, TrainerKey, t);
    }
    forall c | c in repo.clients ensures repo.GetClientByID(c.id) == Success(c) {
      FindFirstUnique(repo.clients, c.id, ClientKey, c);
    }
    forall t | t in repo.workoutTypes ensures repo.GetWorkoutTypeByID(t.id) == Success(t) {
      FindFirstUnique(repo.workoutTypes, t.id, WorkoutTypeKey, t);
    }
  }

  /** A trainer without workouts on the day earns 0 that day (the NULL sum
      reads as 0). */
  lemma DayCashWithoutRows(repo: Repository, trainerID: int, today: Date)
    requires forall i :: 0 <= i < |repo.workouts| ==>
               repo.workouts[i].trainerID != trainerID || repo.workouts[i].date.None?
               || repo.workouts[i].date.value.day != today
    ensures repo.GetCashByDay(trainerID, today) == 0
  {
    PriceSumWithoutRows(repo.workouts, repo.workoutTypes, trainerID, OnDay(today));
  }

  /** A trainer without workouts in the current month earns 0 that month. */
  lemma MonthCashWithoutRows(repo: Repository, trainerID: int, today: Date)
    requires ValidDate(today)
    requires forall i :: 0 <= i < |repo.workouts| ==>
               repo.workouts[i].trainerID != trainerID || repo.workouts[i].date.None?
               || repo.workouts[i].date.value.day.year != today.year
               || repo.workouts[i].date.value.day.month != today.month
    requires forall i :: 0 <= i < |repo.workouts| && repo.workouts[i].date.Some? ==>
               ValidDate(repo.workouts[i].date.value.day)
    ensures repo.GetCashByMonth(trainerID, today) == 0
  {
    var window := Between(FirstDayOfMonth(today), LastDayOfMonth(today));
    forall i | 0 <= i < |repo.workouts| && repo.workouts[i].trainerID == trainerID && repo.workouts[i].date.Some?
      ensures !window.Admits(repo.workouts[i].date.value.day)
    {
      MonthWindowIsMonth(today, repo.workouts[i].date.value.day);
    }
    PriceSumWithoutRows(repo.workouts, repo.workoutTypes, trainerID, window);
  }
}
