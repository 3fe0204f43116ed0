// Shared wrappers: optional values, the service layer's error kinds, and
// results that carry either a value or one of those errors.

module Common {

  datatype Option<T> = None | Some(value: T)

  /** The ValueError / HTTPException conditions raised by the services and routers. */
  datatype Error =
    | UserNotFound
    | RankNotFound
    | DuplicateGrant
    | InsufficientPoints(available: int)
    | InsufficientReserved(reserved: int)
    | DuplicateUsername
    | DuplicateServiceNumber
    | MissingAttribute
    | UniqueViolation  // an IntegrityError from a unique column at commit
    | ParentNotFound
    | ParentTooDeep
    | HasChildren
    | HasItems
    | ItemNotFound
    | DuplicateSpecCode
    | Forbidden
    | NotFound
    | BadRequest
    | Unexpected

  datatype Result<T> = Ok(value: T) | Err(error: Error)

  /** Python truthiness of an optional string: None and "" are both falsy. */
  predicate Truthy(s: Option<string>) {
    s.Some? && s.value != ""
  }

  /** Python's `a or b` for an optional text and a fallback text. */
  function OrElse(s: Option<string>, fallback: string): string {
    if Truthy(s) then s.value else fallback
  }

  /** Decimal text of an integer, as an f-string renders it. */
  function IntToString(n: int): (r: string)
    ensures |r| >= 1
  {
    if n < 0 then "-" + NatToString(-n) else NatToString(n)
  }

  function NatToString(n: nat): (r: string)
    ensures |r| >= 1
    ensures forall i :: 0 <= i < |r| ==> '0' <= r[i] <= '9'
  {
    if n < 10 then [Digit(n)] else NatToString(n / 10) + [Digit(n % 10)]
  }

  function Digit(d: nat): (c: char)
    requires d < 10
    ensures '0' <= c <= '9'
  {
    ['0', '1', '2', '3', '4', '5', '6', '7', '8', '9'][d]
  }
}
