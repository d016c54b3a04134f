/** What the four machines share: absent values, 64-bit counters, and how an operation can end. */
module Common {

  datatype Option<+T> = None | Some(value: T)

  const MAX_UINT64: nat := 0xFFFF_FFFF_FFFF_FFFF

  /** The three ways an operation can end. After a crash nothing more runs. */
  datatype Outcome = Ok | Error | Crash

  /** The map with these keys set, each to its own value. */
  ghost function Overridden<K(!new), V(!new)>(m: map<K, V>, keys: set<K>, value: K --> V): (r: map<K, V>)
    requires forall k :: k in keys ==> value.requires(k)
    ensures r.Keys == m.Keys + keys
    ensures forall k :: k in r ==> r[k] == if k in keys then value(k) else m[k]
  {
    if keys == {} then m
    else
      var k :| k in keys;
      Overridden(m, keys - {k}, value)[k := value(k)]
  }
}

/** The ways an external call can go. */
module Faults {
  import opened Common

  /** `applied` says whether the effect of a call that did not answer is visible afterwards. */
  datatype Fault = Answers | Fails(applied: bool) | Crashes(applied: bool)

  predicate TookEffect(f: Fault) {
    f.Answers? || f.applied
  }

  function OutcomeOf(f: Fault): Outcome {
    match f case Answers => Ok case Fails(_) => Error case Crashes(_) => Crash
  }
}
