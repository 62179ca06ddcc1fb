/** The service layer: admin and trainer sign-in with JWT issuance, token
    parsing, and trainer creation with a generated token. The JWT library is
    a parameter whose behaviour is fixed only by the round trip `Sound`. */
module Service {
  import opened Wrappers
  import opened Errors
  import opened Calendar
  import opened Models
  import opened Tables
  import Repository

  const SigningKey: string := "qrkjk#4#%35FSFJlja#4353KSFjH"

  /** `tokenTTL = 1460 * time.Hour`, in seconds and in nanoseconds. */
  const TokenTTLSeconds: int := 1460 * 3600
  const TokenTTLNanos: int := TokenTTLSeconds * NanosPerSecond

  /** A JWS algorithm: the HMAC family (HS256, HS384, HS512) or any other. */
  datatype Alg = Hmac(bits: int) | OtherAlg(name: string)

  const HS256: Alg := Hmac(256)

  /** `Claims`: the registered `exp` and `iat` claims (Unix seconds) and the
      caller's id and role. */
  datatype Claims = Claims(expiresAt: int, issuedAt: int, userID: int, role: string)

  /** What a token's header and payload decode to, before any check. */
  datatype Parsed = Parsed(alg: Alg, claims: Claims)

  /** The JWT library as four operations: signing claims under an algorithm
      and key (which may fail), decoding a token without checking it,
      checking its signature under an algorithm and key, and the library's
      time validation of the claims at a given Unix second. */
  datatype Jwt = Jwt(
    signedString: (Alg, Claims, string) -> Option<string>,
    parseUnverified: string -> Option<Parsed>,
    verifySignature: (string, Alg, string) -> bool,
    claimsValid: (Claims, int) -> bool)

  /** What the model assumes of the library: a token it signs decodes to the
      algorithm and claims it was signed with and verifies under the same
      key; it is a non-empty compact serialization (no spaces); and claims
      are valid from their `iat` up to, not including, their `exp`. */
  ghost predicate Sound(lib: Jwt)
  {
    && (forall a, c, k :: lib.signedString(a, c, k).Some? ==>
          var t := lib.signedString(a, c, k).value;
          lib.parseUnverified(t) == Some(Parsed(a, c)) && lib.verifySignature(t, a, k)
          && t != [] && ' ' !in t)
    && (forall c: Claims, now: int :: c.issuedAt <= now < c.expiresAt ==> lib.claimsValid(c, now))
  }

  /** The claims of a new token. The source reads the clock twice: `clockA`
      for `exp` and `clockB` for `iat`, both in nanoseconds since the epoch. */
  function NewClaims(clockA: int, clockB: int, userID: int, role: string): (c: Claims)
    ensures c.expiresAt == UnixSeconds(clockA) + TokenTTLSeconds
    ensures c.issuedAt == UnixSeconds(clockB)
    ensures c.userID == userID && c.role == role
  {
    UnixSecondsShift(clockA, TokenTTLSeconds);
    Claims(UnixSeconds(clockA + TokenTTLNanos), UnixSeconds(clockB), userID, role)
  }

  /** With a single clock reading, a token lives exactly the TTL. */
  lemma SingleClockLifetime(clock: int, userID: int, role: string)
    ensures NewClaims(clock, clock, userID, role).expiresAt - NewClaims(clock, clock, userID, role).issuedAt
            == 5_256_000
  {
  }

  /** The source reads the clock for `exp` first, so a token never lives
      longer than the TTL. */
  lemma LifetimeAtMostTTL(clockA: int, clockB: int, userID: int, role: string)
    requires clockA <= clockB
    ensures NewClaims(clockA, clockB, userID, role).expiresAt - NewClaims(clockA, clockB, userID, role).issuedAt
            <= TokenTTLSeconds
  {
    UnixSecondsMonotone(clockA, clockB);
  }

  /** `jwt.NewWithClaims(jwt.SigningMethodHS256, claims).SignedString(signingKey)`,
      with a signing failure reported as `ErrCreateJWT`. */
  function Sign(lib: Jwt, claims: Claims): (r: Result<string, Error>)
    ensures r.Failure? <==> lib.signedString(HS256, claims, SigningKey).None?
    ensures r.Failure? ==> r.error == ErrCreateJWT
    ensures r.Success? ==> Some(r.value) == lib.signedString(HS256, claims, SigningKey)
  {
    match lib.signedString(HS256, claims, SigningKey)
    case Some(t) => Success(t)
    case None => Failure(ErrCreateJWT)
  }

  /** `GenerateTokenForAdmin`: the lookup by login, the plain password
      comparison, then a token naming the admin's id and role "admin". */
  function GenerateTokenForAdmin(lib: Jwt, repo: Repository.Repository, login: string, password: string,
                                 clockA: int, clockB: int): (r: Result<string, Error>)
    reads repo
    ensures repo.GetAdmin(login).Failure? ==> r == Failure(repo.GetAdmin(login).error)
    ensures repo.GetAdmin(login).Success? && repo.GetAdmin(login).value.password != password ==>
              r == Failure(ErrInvalidPwd)
    ensures repo.GetAdmin(login).Success? && repo.GetAdmin(login).value.password == password ==>
              r == Sign(lib, NewClaims(clockA, clockB, repo.GetAdmin(login).value.id, "admin"))
    ensures r.Success? ==> var admin := repo.GetAdmin(login).value;
              repo.GetAdmin(login).Success? && admin.password == password
              && Some(r.value) == lib.signedString(HS256, NewClaims(clockA, clockB, admin.id, "admin"), SigningKey)
    ensures r.Failure? ==> r.error in {ErrNotFound, ErrInvalidPwd, ErrCreateJWT}
  {
    match repo.GetAdmin(login)
    case Failure(e) => Failure(e)
    case Success(admin) =>
      if admin.password != password then Failure(ErrInvalidPwd)
      else Sign(lib, NewClaims(clockA, clockB, admin.id, "admin"))
  }

  /** `GenerateTokenForTrainer`: the lookup by the trainer's opaque token,
      then a token naming the trainer's id and role "trainer". */
  function GenerateTokenForTrainer(lib: Jwt, repo: Repository.Repository, token: string,
                                   clockA: int, clockB: int): (r: Result<string, Error>)
    reads repo
    ensures repo.GetTrainerByToken(token).Failure? ==> r == Failure(repo.GetTrainerByToken(token).error)
    ensures repo.GetTrainerByToken(token).Success? ==>
              r == Sign(lib, NewClaims(clockA, clockB, repo.GetTrainerByToken(token).value.id, "trainer"))
    ensures r.Success? ==> var trainer := repo.GetTrainerByToken(token).value;
              repo.GetTrainerByToken(token).Success?
              && Some(r.value) == lib.signedString(HS256, NewClaims(clockA, clockB, trainer.id, "trainer"), SigningKey)
    ensures r.Failure? ==> r.error in {ErrNotFound, ErrCreateJWT}
  {
    match repo.GetTrainerByToken(token)
    case Failure(e) => Failure(e)
    case Success(trainer) => Sign(lib, NewClaims(clockA, clockB, trainer.id, "trainer"))
  }

  /** The key function handed to the parser: the signing key for any HMAC
      method, `ErrSignMethod` for every other. */
  function KeyFunc(alg: Alg): (r: Result<string, Error>)
    ensures r.Success? <==> alg.Hmac?
    ensures r.Success? ==> r.value == SigningKey
    ensures r.Failure? ==> r.error == ErrSignMethod
  {
    if alg.Hmac? then Success(SigningKey) else Failure(ErrSignMethod)
  }

  /** `jwt.ParseWithClaims` as the library runs it: decode, ask the key
      function, validate the time claims at `now`, check the signature. */
  function ParseWithClaims(lib: Jwt, token: string, now: int): (r: Result<Claims, Error>)
    ensures r.Success? <==> lib.parseUnverified(token).Some? && lib.parseUnverified(token).value.alg.Hmac?
                            && lib.claimsValid(lib.parseUnverified(token).value.claims, now)
                            && lib.verifySignature(token, lib.parseUnverified(token).value.alg, SigningKey)
    ensures r.Success? ==> r.value == lib.parseUnverified(token).value.claims
    ensures r == Failure(ErrSignMethod) <==>
              lib.parseUnverified(token).Some? && !lib.parseUnverified(token).value.alg.Hmac?
    ensures r.Failure? ==> r.error in {ErrParseJWT, ErrSignMethod}
  {
    match lib.parseUnverified(token)
    case None => Failure(ErrParseJWT)
    case Some(p) =>
      match KeyFunc(p.alg)
      case Failure(e) => Failure(e)
      case Success(key) =>
        if !lib.claimsValid(p.claims, now) then Failure(ErrParseJWT)
        else if !lib.verifySignature(token, p.alg, key) then Failure(ErrParseJWT)
        else Success(p.claims)
  }

  /** `ParseToken`: the caller's id and role from a token that decodes, uses
      an HMAC method, is valid at `now` and carries a signature made with the
      signing key; every failure is reported as `ErrParseJWT`. */
  function ParseToken(lib: Jwt, token: string, now: int): (r: Result<Identity, Error>)
    ensures r.Failure? ==> r.error == ErrParseJWT
    ensures r.Success? <==> lib.parseUnverified(token).Some? && lib.parseUnverified(token).value.alg.Hmac?
                            && lib.claimsValid(lib.parseUnverified(token).value.claims, now)
                            && lib.verifySignature(token, lib.parseUnverified(token).value.alg, SigningKey)
    ensures r.Success? ==> r.value == Identity(lib.parseUnverified(token).value.claims.userID,
                                               lib.parseUnverified(token).value.claims.role)
  {
    match ParseWithClaims(lib, token, now)
    case Failure(_) => Failure(ErrParseJWT)
    case Success(claims) => Success(Identity(claims.userID, claims.role))
  }

  /** The key function's refusal never reaches the caller of `ParseToken`. */
  lemma SignMethodErrorCollapsed(lib: Jwt, token: string, now: int)
    requires lib.parseUnverified(token).Some? && !lib.parseUnverified(token).value.alg.Hmac?
    ensures ParseWithClaims(lib, token, now) == Failure(ErrSignMethod)
    ensures ParseToken(lib, token, now) == Failure(ErrParseJWT)
  {
  }

  /** A token the service signs parses back, while it is valid, to the id
      and role it was issued for. */
  lemma {:induction false} SignParseRoundTrip(lib: Jwt, claims: Claims, now: int)
    requires Sound(lib)
    requires Sign(lib, claims).Success?
    requires claims.issuedAt <= now < claims.expiresAt
    ensures ParseToken(lib, Sign(lib, claims).value, now) == Success(Identity(claims.userID, claims.role))
  {
    var t := Sign(lib, claims).value;
    assert lib.signedString(HS256, claims, SigningKey) == Some(t);
    assert lib.parseUnverified(t) == Some(Parsed(HS256, claims));
    assert lib.claimsValid(claims, now);
  }

  /** An admin token, parsed before it expires, yields the id of the admin
      whose login and password signed in, with role "admin". */
  lemma AdminTokenRoundTrip(lib: Jwt, repo: Repository.Repository, login: string, password: string,
                            clockA: int, clockB: int, now: int)
    requires Sound(lib)
    requires GenerateTokenForAdmin(lib, repo, login, password, clockA, clockB).Success?
    requires UnixSeconds(clockB) <= now < UnixSeconds(clockA) + TokenTTLSeconds
    ensures repo.GetAdmin(login).Success? && repo.GetAdmin(login).value.password == password
    ensures ParseToken(lib, GenerateTokenForAdmin(lib, repo, login, password, clockA, clockB).value, now)
            == Success(Identity(repo.GetAdmin(login).value.id, "admin"))
  {
    SignParseRoundTrip(lib, NewClaims(clockA, clockB, repo.GetAdmin(login).value.id, "admin"), now);
  }

  /** A trainer token, parsed before it expires, yields the id of the
      trainer the opaque token belongs to, with role "trainer". */
  lemma TrainerTokenRoundTrip(lib: Jwt, repo: Repository.Repository, token: string,
                              clockA: int, clockB: int, now: int)
    requires Sound(lib)
    requires GenerateTokenForTrainer(lib, repo, token, clockA, clockB).Success?
    requires UnixSeconds(clockB) <= now < UnixSeconds(clockA) + TokenTTLSeconds
    ensures repo.GetTrainerByToken(token).Success?
    ensures ParseToken(lib, GenerateTokenForTrainer(lib, repo, token, clockA, clockB).value, now)
            == Success(Identity(repo.GetTrainerByToken(token).value.id, "trainer"))
  {
    SignParseRoundTrip(lib, NewClaims(clockA, clockB, repo.GetTrainerByToken(token).value.id, "trainer"), now);
  }

  /** `CreateTrainer`: the record gets the freshly generated token before
      the insert, and the insert's result is returned. A token no trainer
      had before is then the new trainer's sign-in credential. */
  method CreateTrainer(repo: Repository.Repository, trainer: Trainer, freshToken: string)
    returns (r: Result<string, Error>)
    requires repo.Valid()
    modifies repo`trainers, repo`nextTrainerId
    ensures repo.Valid()
    ensures repo.trainers == old(repo.trainers) + [trainer.(id := old(repo.nextTrainerId), token := freshToken)]
    ensures r == Success(freshToken)
    ensures (forall i :: 0 <= i < |old(repo.trainers)| ==> old(repo.trainers)[i].token != freshToken) ==>
              repo.GetTrainerByToken(freshToken) == Success(trainer.(id := old(repo.nextTrainerId), token := freshToken))
  {
    var row := trainer.(token := freshToken);
    var token := repo.CreateTrainer(row);
    if forall i :: 0 <= i < |old(repo.trainers)| ==> old(repo.trainers)[i].token != freshToken {
      FindFirstAppendNew(old(repo.trainers), row.(id := old(repo.nextTrainerId)), freshToken, Repository.TrainerToken);
    }
    r := Success(token);
  }
}
