/** Option and small helpers shared by every module of the model. */
module Wrappers {

  /** A value that may be absent, as Python's `Optional[...]`. */
  datatype Option<+T> = None | Some(value: T) {
    function GetOr(default: T): T {
      match this
      case Some(v) => v
      case None => default
    }
  }

  /** Python's `d.get(k, default)`. */
  function MapGet<K, V>(m: map<K, V>, k: K, default: V): V {
    if k in m then m[k] else default
  }

  /** A non-empty set has a member (the step `var x :| x in s` needs). */
  lemma Inhabited<T>(s: set<T>)
    ensures s == {} || exists y :: y in s
  {
    if forall y :: y !in s {
      assert s == {};
    }
  }

  /** Some member of a non-empty set (Python's iteration over a set visits them in an order the
      model does not fix). */
  method Pick<T>(s: set<T>) returns (x: T)
    requires s != {}
    ensures x in s
  {
    Inhabited(s);
    x :| x in s;
  }
}
