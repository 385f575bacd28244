/** Small types shared by every model in this project. */
module Common {
  datatype Option<+T> = None | Some(value: T)

  function GetOr<T>(o: Option<T>, default: T): T {
    if o.Some? then o.value else default
  }

  function Find<K, V>(m: map<K, V>, k: K): Option<V> {
    if k in m then Some(m[k]) else None
  }

  /** How a request to an agent ends, as the master and the agent see it. */
  datatype Outcome =
    | Confirmed  // applied, and the master received the reply
    | Refused    // not applied, and the master received an error
    | Lost       // applied, but the master received an error
  {
    predicate Applied() { !Refused? }
  }

  type InstanceId = nat
}
