/** The get-or-create instance table behind the singleton metaclass: one
    instance per class, built by the first call and returned by every call. */
module Singleton {
  import opened Common

  /** The table after a call, and what the call returned or raised. */
  datatype CallOutcome<K, V> = CallOutcome(instances: map<K, V>, result: Result<V>)

  /** Calling class `cls` with table `instances`. `construct` is what running
      the class's constructor with the call's arguments would give; it is
      consulted only when `cls` has no entry yet, and its instance is stored
      only if construction succeeds. */
  function Call<K, V>(instances: map<K, V>, cls: K, construct: Result<V>): (o: CallOutcome<K, V>)
    // whatever is returned is the instance stored under the class
    ensures o.result.Ok? ==> cls in o.instances && o.instances[cls] == o.result.value
    // a class already present: its stored instance, no construction, no change
    ensures cls in instances ==> o.instances == instances && o.result == Ok(instances[cls])
    // a class not yet present: the constructor's outcome is what the caller sees
    ensures cls !in instances ==> o.result == construct
    // a constructor that raises leaves the table as it was
    ensures o.result.Err? ==> o.instances == instances
    // entries are only ever added, and only under `cls`
    ensures o.instances.Keys == instances.Keys || o.instances.Keys == instances.Keys + {cls}
    ensures forall k :: k in instances ==> k in o.instances && o.instances[k] == instances[k]
  {
    if cls in instances then
      CallOutcome(instances, Ok(instances[cls]))
    else
      match construct
      case Err(e) => CallOutcome(instances, Err(e))
      case Ok(instance) => CallOutcome(instances[cls := instance], Ok(instance))
  }

  /** A later call returns the identical instance whatever its constructor
      arguments would have built, and changes nothing. */
  lemma LaterCallReturnsFirstInstance<K, V>(instances: map<K, V>, cls: K,
                                            first: Result<V>, later: Result<V>)
    requires Call(instances, cls, first).result.Ok?
    ensures var o := Call(instances, cls, first);
            Call(o.instances, cls, later) == o
  {
  }

  /** A call about one class leaves every other class's entry as it was,
      present or absent. */
  lemma OtherClassesUnchanged<K, V>(instances: map<K, V>, cls: K, construct: Result<V>, other: K)
    requires other != cls
    ensures var o := Call(instances, cls, construct);
            (other in o.instances <==> other in instances) &&
            (other in instances ==> o.instances[other] == instances[other])
  {
  }
}
