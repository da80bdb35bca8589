/** The key/value configuration holder handed to every backend (core/config.py). */
module Configs {

  /**
   * A mutable store of parameters. Keys are keyword names; values are left
   * abstract (the source stores strings, numbers and floats side by side).
   */
  class Config<V> {
    var params: map<string, V>

    /** The parameters are exactly the keyword arguments supplied. */
    constructor (kwargs: map<string, V>)
      ensures params == kwargs
    {
      params := kwargs;
    }

    /** The stored value of `key`, or `default` when the key is absent. */
    function Get(key: string, default: V): (r: V)
      reads this
      ensures key in params ==> r == params[key]
      ensures key !in params ==> r == default
    {
      if key in params then params[key] else default
    }

    /** Set or overwrite one parameter; every other parameter is kept. */
    method Set(key: string, value: V)
      modifies this
      ensures params == old(params)[key := value]
      ensures forall d :: Get(key, d) == value
      ensures forall k :: k != key ==> (k in params <==> k in old(params))
      ensures forall k :: k != key && k in params ==> params[k] == old(params)[k]
      ensures params.Keys == old(params.Keys) + {key}
    {
      params := params[key := value];
    }

    /**
     * A copy of all parameters. Since a map is a value, later calls to Set
     * cannot change a copy that was handed out (see ToDictIsSnapshot).
     */
    method ToDict() returns (d: map<string, V>)
      ensures d == params
    {
      d := params;
    }
  }

  /** A copy taken before a Set keeps the values it was taken with. */
  method ToDictIsSnapshot<V>(c: Config<V>, key: string, value: V) returns (copy: map<string, V>)
    modifies c
    ensures copy == old(c.params)
    ensures c.params == copy[key := value]
  {
    copy := c.ToDict();
    c.Set(key, value);
  }
}
