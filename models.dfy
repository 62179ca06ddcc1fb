/** The records of the fitness-studio domain: one datatype per table row and
    per joined response, and the caller identity the middleware stores. */
module Models {
  import opened Wrappers
  import opened Calendar

  datatype Admin = Admin(id: int, login: string, password: string, firstName: string, lastName: string)

  datatype Trainer = Trainer(id: int, token: string, firstName: string, lastName: string)

  /** A row of the clients table. The repository writes a `surname` column,
      and the workout joins read a `phone_number` column; the table has both.
      A column no insert writes is NULL (`None`). */
  datatype Client = Client(id: int, firstName: string, lastName: string, surname: string,
                           phoneNumber: Option<string>)

  datatype WorkoutType = WorkoutType(id: int, title: string, price: int)

  /** A `timestamp` column: its calendar day is what `DATE(...)` yields. */
  datatype Timestamp = Timestamp(day: Date, nanosOfDay: int)

  /** The body of the workout create and edit requests. `adminID` is the
      field the create handler stamps and the insert writes as `admin_id`. */
  datatype WorkoutRequest = WorkoutRequest(id: int, clientID: int, trainerID: int, workoutTypeID: int,
                                           adminID: int, date: Timestamp)

  /** A row of the workouts table. `status` and `date` are not written by the
      insert; they start at the table's column defaults. */
  datatype WorkoutRow = WorkoutRow(id: int, clientID: int, trainerID: int, workoutTypeID: int,
                                   adminID: int, status: string, date: Option<Timestamp>)

  datatype ClientPart = ClientPart(id: int, firstName: string, lastName: string, phoneNumber: Option<string>)

  datatype TrainerPart = TrainerPart(id: int, firstName: string, lastName: string)

  datatype WorkoutTypePart = WorkoutTypePart(id: int, title: string, price: int)

  /** One row of the workouts-types-clients-trainers join. */
  datatype WorkoutResponse = WorkoutResponse(id: int, client: ClientPart, trainer: TrainerPart,
                                             workoutType: WorkoutTypePart, status: string,
                                             date: Option<Timestamp>)

  /** What the middleware stores under the "userID" context key:
      the map {"userID": id, "role": role}. */
  datatype Identity = Identity(userID: int, role: string)
}
