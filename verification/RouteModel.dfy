/** The route record, the errors of the route store and a few value helpers
    (src/route/model.go). */
module RouteModel {

  datatype Option<+T> = None | Some(value: T)

  /** The error values callers can tell apart. */
  datatype Error =
    | InvalidArgument    // a required ID is empty
    | ConnectionMissing  // no usable fact under the connection's key
    | NoLiveConnections  // the user has no route
    | WrongOwner         // the fact belongs to another user
    | RedisFailure       // a Redis command reported an error

  datatype Result<+T> = Ok(value: T) | Err(error: Error)

  /** A time-to-live: positive, in nanoseconds. */
  type Duration = d: int | 0 < d witness 1

  const NANOS_PER_SECOND := 1_000_000_000

  /** Whole seconds since the epoch, rounded down. */
  function Unix(now: int): (seconds: int)
    ensures seconds * 1_000_000_000 <= now < (seconds + 1) * 1_000_000_000
  {
    now / NANOS_PER_SECOND
  }

  function DefaultString(value: string, fallback: string): string {
    if value != "" then value else fallback
  }

  datatype ConnectionMeta = ConnectionMeta(
    userID: string,
    connectionID: string,
    deviceID: string,
    gatewayID: string,
    gatewayAddr: string,
    platform: string,
    clientVersion: string,
    loginAt: int,
    lastActiveAt: int)
  {
    /** Stamps the record: the login time only once, the activity time always. */
    function Touch(now: int): ConnectionMeta {
      this.(loginAt := if loginAt == 0 then Unix(now) else loginAt, lastActiveAt := Unix(now))
    }
  }

  /** The characters strings.TrimSpace removes. */
  predicate IsSpace(c: char) {
    || c in {'\t', '\n', '\U{000B}', '\U{000C}', '\r', ' ', '\U{0085}', '\U{00A0}', '\U{1680}'}
    || '\U{2000}' <= c <= '\U{200A}'
    || c in {'\U{2028}', '\U{2029}', '\U{202F}', '\U{205F}', '\U{3000}'}
  }

  /** True when trimming leaves nothing. */
  predicate Blank(s: string) { forall i :: 0 <= i < |s| ==> IsSpace(s[i]) }

  ghost predicate NoDuplicates<T>(s: seq<T>) {
    forall i, j :: 0 <= i < j < |s| ==> s[i] != s[j]
  }

  /** `ids` lists the set `members`, each element once, in some order. */
  ghost predicate Enumerates(ids: seq<string>, members: set<string>) {
    && NoDuplicates(ids)
    && (forall id :: id in ids <==> id in members)
  }
}
