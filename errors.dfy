/** The error values that cross the layers of the API: the database driver's
    not-found sentinel, the service's sentinel errors, the handler's own, and
    the errors of `strconv.Atoi`. */
module Errors {

  datatype Error =
    | ErrNotFound                      // dbr.ErrNotFound
    | ErrInvalidPwd                    // service: password mismatch
    | ErrCreateJWT                     // service: signing failed
    | ErrTokenClaims                   // service: claims of an unexpected type
    | ErrParseJWT                      // service: any token parse failure
    | ErrSignMethod                    // service: key function refused the method
    | ErrUserIdNotFound                // handler: no identity in the context
    | ErrSyntax(input: string)         // strconv.Atoi: not a decimal integer
    | ErrRange(input: string)          // strconv.Atoi: outside the 64-bit range
    | ErrJson(message: string)         // gin's BindJSON failed

  /** The text `err.Error()` yields. Quoting of the input inside the strconv
      messages follows Go only for inputs without quotes or control characters. */
  function Message(e: Error): string
  {
    match e
    case ErrNotFound => "dbr: not found"
    case ErrInvalidPwd => "invalid password"
    case ErrCreateJWT => "error create jwt-token"
    case ErrTokenClaims => "token claims are not of type *tokenClaims"
    case ErrParseJWT => "error to parse jwt-token"
    case ErrSignMethod => "invalid signing method"
    case ErrUserIdNotFound => "userId not found"
    case ErrSyntax(s) => "strconv.Atoi: parsing \"" + s + "\": invalid syntax"
    case ErrRange(s) => "strconv.Atoi: parsing \"" + s + "\": value out of range"
    case ErrJson(m) => m
  }
}
