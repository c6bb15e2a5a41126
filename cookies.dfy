/** The per-request cookie store that the procedures read and write, and
    what a user agent keeps of the cookies a response sets. */
module Cookies {
  import opened Wrappers

  datatype SameSite = Unspecified | Lax | Strict

  /** The attributes a `set` call passes; times are integer milliseconds
      since the epoch, Max-Age is in seconds. */
  datatype CookieOptions = CookieOptions(
    httpOnly: bool,
    secure: bool,
    sameSite: SameSite,
    path: Option<string>,
    maxAge: Option<int>,
    expires: Option<int>)

  /** The options of a `set(name, value)` call that passes none. */
  const NoOptions: CookieOptions := CookieOptions(false, false, Unspecified, None, None, None)

  datatype Cookie = Cookie(value: string, options: CookieOptions)

  type Jar = map<string, Cookie>

  /** `get(name)?.value`. */
  function Read(jar: Jar, name: string): Option<string> {
    if name in jar then Some(jar[name].value) else None
  }

  /** Read and the JavaScript `!value` test together: absent or empty. */
  predicate Missing(jar: Jar, name: string) {
    Read(jar, name) == None || Read(jar, name) == Some("")
  }

  class CookieStore {
    var jar: Jar

    constructor (initial: Jar)
      ensures jar == initial
    {
      jar := initial;
    }

    function Get(name: string): Option<string>
      reads this
    {
      Read(jar, name)
    }

    /** `cookies.set(name, value, options)`: replaces any cookie of that name. */
    method Set(name: string, value: string, options: CookieOptions)
      modifies this
      ensures jar == old(jar)[name := Cookie(value, options)]
    {
      jar := jar[name := Cookie(value, options)];
    }
  }

  /** Sections 5.2.1, 5.2.2 and 5.3 of RFC 6265: a cookie stored at time
      storedAt expires at storedAt plus Max-Age seconds, at once when Max-Age
      is zero or less; Max-Age takes precedence over Expires; without either
      the cookie lasts the session. A cookie whose expiry time has passed is
      evicted. */
  predicate Evicted(c: Cookie, storedAt: int, now: int) {
    match c.options.maxAge
    case Some(age) => age <= 0 || storedAt + age * 1000 < now
    case None => c.options.expires.Some? && c.options.expires.value < now
  }

  /** The cookies a user agent still holds, and sends back, at time now
      after storing the jar's cookies at time storedAt. */
  function Retained(jar: Jar, storedAt: int, now: int): (kept: Jar)
    ensures forall name :: name in kept <==> name in jar && !Evicted(jar[name], storedAt, now)
    ensures forall name :: name in kept ==> kept[name] == jar[name]
  {
    map name | name in jar && !Evicted(jar[name], storedAt, now) :: jar[name]
  }
}
