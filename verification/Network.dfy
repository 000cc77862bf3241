/** What can become of one remote call, and the maps the servers keep. */
module Network {
  import opened Wrappers

  /** `Lost` is the call that took effect although its caller only saw an error (a timeout
      after the server had applied it); `Refused` is the call that never took effect, the
      connector's throttled calls included. */
  datatype Net = Delivered | Refused | Lost
  {
    predicate Applied() {
      Delivered? || Lost?
    }
  }

  datatype Error = NotFound | AlreadyExists | Disabled | Unreachable | InvalidId

  function Lookup<K, V>(m: map<K, V>, k: K): Option<V> {
    if k in m then Some(m[k]) else None
  }

  function Store<K, V>(m: map<K, V>, k: K, v: Option<V>): map<K, V> {
    match v
    case Some(x) => m[k := x]
    case None => m - {k}
  }

  /** The error a caller sees, if any, of a call on a target that may not exist. */
  function Reply<T>(net: Net, target: Option<T>): (err: Option<Error>)
    ensures err.None? <==> net.Delivered? && target.Some?
  {
    if !net.Delivered? then Some(Unreachable) else if target.None? then Some(NotFound) else None
  }
}
