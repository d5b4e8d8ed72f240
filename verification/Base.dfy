/** Shared value types. */
module Base {

  datatype Option<+T> = None | Some(value: T)

  /** A point on the single monotone clock, in milliseconds. */
  type Time = int

  type Login = string

  /** An opaque match auth token. */
  type Token = nat

  /** An opaque JSON document. */
  type Details = string

  datatype ServerInfo = ServerInfo(host: string, port: string)

  /** The outcome of a match, as a worker or the health check reports it. */
  datatype Result = Result(success: bool, matchId: int, details: Details)

  lemma SubsetSize<T>(a: set<T>, b: set<T>)
    requires a <= b
    ensures |a| <= |b|
    decreases a
  {
    if a != {} {
      var x :| x in a;
      SubsetSize(a - {x}, b - {x});
    }
  }
}
