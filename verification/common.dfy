/** Types shared by the server, the token middleware and the client. */
module Common {

  /** A JavaScript value that may be `undefined`/`null` (None) or present (Some). */
  datatype Option<+T> = None | Some(value: T)

  /** The `_id` the document store gives a user. */
  type UserId = nat

  /** The user schema's `role` enumeration: 'employee' (the default) or 'admin'. */
  datatype Role = Employee | Admin

  /** The text a role is stored and sent as. */
  function RoleName(r: Role): string
  {
    match r
    case Employee => "employee"
    case Admin => "admin"
  }

  /** The payload of a session token: `{userId, role}` plus the `iat`/`exp`
      claims (section 4.1.6 and 4.1.4 of RFC 7519), in seconds. */
  datatype Claims = Claims(userId: UserId, role: Role, iat: int, exp: int)

  /** `expiresIn: '1h'`, in seconds. */
  const TokenLifetime: int := 3600
}
