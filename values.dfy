/**
 * Python's insertion-ordered `dict`, as a value (ODict) and as the shared
 * mutable tables of the installer (Store): the run-wide value store
 * `controller.CONF` and the hiera options table `API_GLOBAL_OPTIONS`.
 */
module ODicts {

  import opened Outcomes

  /** A dict: its keys in insertion order and the value of each. */
  datatype ODict<V> = ODict(keys: seq<string>, vals: map<string, V>) {

    /** Keys are listed once each, and exactly the keys that have a value. */
    ghost predicate Valid() {
      (forall i, j :: 0 <= i < j < |keys| ==> keys[i] != keys[j]) &&
      (forall k :: k in vals <==> k in keys)
    }

    /** `d.get(k)`, with None for an absent key. */
    function Get(k: string): Option<V> {
      if k in vals then Some(vals[k]) else None
    }

    /** `d[k] = v`: an existing key keeps its place, a new key goes last. */
    function Put(k: string, v: V): (d: ODict<V>)
      requires Valid()
      ensures d.Valid()
      ensures d.Get(k) == Some(v)
      ensures forall k' :: k' != k ==> d.Get(k') == Get(k')
      ensures d.keys == if k in vals then keys else keys + [k]
    {
      ODict(if k in vals then keys else keys + [k], vals[k := v])
    }
  }

  /** Writing the value a key already holds changes nothing. */
  lemma PutSame<V>(d: ODict<V>, k: string, v: V)
    requires d.Valid() && d.Get(k) == Some(v)
    ensures d.Put(k, v) == d
  {
    assert d.vals[k := v] == d.vals;
  }

  function Empty<V>(): (d: ODict<V>)
    ensures d.Valid() && d.keys == []
  {
    ODict([], map[])
  }

  /** `b` extends `a` in place: `a`'s keys keep their positions. */
  predicate KeepsOrder<V>(a: ODict<V>, b: ODict<V>) {
    |a.keys| <= |b.keys| && b.keys[..|a.keys|] == a.keys
  }

  /** `d[k] = v` keeps every existing key in its place. */
  lemma PutKeepsOrder<V>(d: ODict<V>, k: string, v: V)
    requires d.Valid()
    ensures KeepsOrder(d, d.Put(k, v))
  {
    assert (d.keys + [k])[..|d.keys|] == d.keys;
  }

  lemma KeepsOrderTrans<V>(a: ODict<V>, b: ODict<V>, c: ODict<V>)
    requires KeepsOrder(a, b) && KeepsOrder(b, c)
    ensures KeepsOrder(a, c)
  {
    assert c.keys[..|a.keys|] == c.keys[..|b.keys|][..|a.keys|];
  }
}

/**
 * The values a configuration entry can hold, and the Python operations the
 * step functions apply to them.
 */
module Values {

  import opened Outcomes
  import opened ODicts

  /** A typed configuration value: a string, a bool, an int, a list of
      strings, or a nested string table (the discovered host details). */
  datatype Value =
    | Str(s: string)
    | Bool(b: bool)
    | Int(i: int)
    | List(items: seq<string>)
    | Table(t: ODict<string>)

  /** `config[k]`: the value, or KeyError. */
  function Lookup(d: ODict<Value>, k: string): (r: Result<Value>)
    ensures r.Ok? <==> k in d.vals
    ensures r.Ok? ==> r.value == d.vals[k]
    ensures r.Err? ==> r.error == KeyError(k)
  {
    if k in d.vals then Ok(d.vals[k]) else Err(KeyError(k))
  }

  /** Python truthiness, as in `if config[k]:`. */
  predicate Truthy(v: Value) {
    match v
    case Str(s) => s != []
    case Bool(b) => b
    case Int(i) => i != 0
    case List(xs) => xs != []
    case Table(t) => t.keys != []
  }

  /** `len(config[key])`: characters of a string, items of a list, entries of
      a table; TypeError for a bool or an int. */
  function Len(v: Value, key: string): (r: Result<nat>)
    ensures r.Err? <==> v.Bool? || v.Int?
    ensures v.Str? ==> r == Ok(|v.s|)
    ensures v.List? ==> r == Ok(|v.items|)
  {
    match v
    case Str(s) => Ok(|s|)
    case List(xs) => Ok(|xs|)
    case Table(t) => Ok(|t.keys|)
    case _ => Err(TypeError(key))
  }

  /** A dict shared by reference and updated in place. */
  class Store {
    var items: ODict<Value>

    ghost predicate Valid()
      reads this
    {
      items.Valid()
    }

    constructor (init: ODict<Value>)
      requires init.Valid()
      ensures Valid() && items == init
    {
      items := init;
    }

    /** `store[k] = v` */
    method Set(k: string, v: Value)
      requires Valid()
      modifies this
      ensures Valid()
      ensures items == old(items).Put(k, v)
    {
      items := items.Put(k, v);
    }
  }
}

/** The value-store keys the modelled step functions read and write. */
module Keys {
  const CLUSTER_MEMBERS := "CONFIG_CLUSTER_MEMBERS"
  const CONTROLLER_HOST := "CONFIG_CONTROLLER_HOST"
  const DOMAIN_NAME := "CONFIG_DOMAIN_NAME"
  const LB_HOST := "CONFIG_LB_HOST"
  const REPO := "CONFIG_REPO"
  const HOST_DETAILS := "HOST_DETAILS"
  const MEMCACHE_SERVERS := "CONFIG_MEMCACHE_SERVERS"
}

/**
 * What a plugin hands the controller: its parameter groups and its
 * installation sequences.  The controller that consumes them is not part of
 * this model; these are the tables as declared.
 */
module Registry {

  /** One step of a sequence: a title and the step functions, by name, in
      call order. */
  datatype Step = Step(title: string, functions: seq<string>)

  /** `controller.addSequence(title, conditions, condition_match, steps)` */
  datatype Sequence = Sequence(title: string, conditions: seq<string>, conditionMatches: seq<string>, steps: seq<Step>)

  /** A parameter group header. */
  datatype Group = Group(
    name: string, description: string,
    preCondition: bool, preConditionMatch: bool,
    postCondition: bool, postConditionMatch: bool)

  /** A parameter: its command-line option and its value-store key. */
  datatype Param = Param(cmdOption: string, confName: string)

  /** The step functions of a sequence, in the order they are called. */
  function CallOrder(steps: seq<Step>): (r: seq<string>)
    ensures |steps| == 1 ==> r == steps[0].functions
    ensures forall i, f :: 0 <= i < |steps| && f in steps[i].functions ==> f in r
  {
    if steps == [] then [] else steps[0].functions + CallOrder(steps[1..])
  }
}
