/**
  Decoded JSON as a Python program sees it after `json.loads`, together with
  the two Python operations the queue-flattening code applies to it:
  subscripting by a string key (`v['name']`) and iteration (`for x in v`).
  Python exceptions are modelled as the `Err` case of `Result`.
 */
module PyJson {

  /** The exceptions the subscripts and loops can raise. Python reports the
      last two as `TypeError`. */
  datatype Error =
    | KeyError(key: string)   // a dict without the key
    | NotSubscriptable        // a list, str, number, bool or None indexed by a str
    | NotIterable             // a number, bool or None used in a `for` loop

  /** Success with a value, or the exception that was raised. */
  datatype Result<+T> = Ok(value: T) | Err(error: Error) {
    predicate IsFailure() { Err? }

    function PropagateFailure<U>(): Result<U>
      requires Err?
    {
      Err(error)
    }

    function Extract(): T
      requires Ok?
    {
      value
    }
  }

  /** A decoded JSON value. An object keeps its members in the order they
      appear in the text, as the `dict` built by `json.loads` does. */
  datatype Json =
    | Null
    | Bool(b: bool)
    | Int(i: int)
    | Float(f: real)
    | Str(s: string)
    | Arr(elems: seq<Json>)
    | Obj(members: seq<(string, Json)>)

  /** Looking a key up in a decoded object: when the text repeats a key,
      `json.loads` keeps the value of its last occurrence. */
  function Lookup(members: seq<(string, Json)>, key: string): Result<Json>
    decreases |members|
  {
    if members == [] then Err(KeyError(key))
    else if members[|members| - 1].0 == key then Ok(members[|members| - 1].1)
    else Lookup(members[..|members| - 1], key)
  }

  /** A lookup fails, with KeyError(key), exactly when no member has the key,
      and otherwise finds the value of the last member with that key. */
  lemma {:induction false} LookupLastOccurrence(members: seq<(string, Json)>, key: string)
    ensures Lookup(members, key).Err? <==> forall i :: 0 <= i < |members| ==> members[i].0 != key
    ensures Lookup(members, key).Err? ==> Lookup(members, key).error == KeyError(key)
    ensures Lookup(members, key).Ok? ==>
      exists i :: 0 <= i < |members| && members[i] == (key, Lookup(members, key).value) &&
                  forall j :: i < j < |members| ==> members[j].0 != key
    decreases |members|
  {
    if members != [] && members[|members| - 1].0 != key {
      var init := members[..|members| - 1];
      LookupLastOccurrence(init, key);
      assert forall i :: 0 <= i < |init| ==> init[i] == members[i];
    }
  }

  /** Lookups in objects of one and two members. */
  lemma LookupOne(k: string, v: Json, key: string)
    ensures Lookup([(k, v)], key) == if key == k then Ok(v) else Err(KeyError(key))
  {
    assert [(k, v)][..0] == [];
  }

  lemma LookupTwo(k1: string, v1: Json, k2: string, v2: Json, key: string)
    ensures Lookup([(k1, v1), (k2, v2)], key) ==
      if key == k2 then Ok(v2) else if key == k1 then Ok(v1) else Err(KeyError(key))
  {
    assert [(k1, v1), (k2, v2)][..1] == [(k1, v1)];
    LookupOne(k1, v1, key);
  }

  /** Python's `v[key]` for a string `key`. */
  function Subscript(v: Json, key: string): Result<Json> {
    match v
    case Obj(members) => Lookup(members, key)
    case _ => Err(NotSubscriptable)
  }

  /** `v[key]` succeeds exactly on an object with a member named `key`; it
      raises KeyError(key) on an object without one and a TypeError on
      anything else. */
  lemma SubscriptOutcome(v: Json, key: string)
    ensures Subscript(v, key).Ok? <==> v.Obj? && exists i :: 0 <= i < |v.members| && v.members[i].0 == key
    ensures Subscript(v, key).Err? ==> Subscript(v, key).error == if v.Obj? then KeyError(key) else NotSubscriptable
  {
    if v.Obj? { LookupLastOccurrence(v.members, key); }
  }

  /** The keys of a decoded object, each once, in order of first occurrence:
      the order in which iterating the `dict` yields them. */
  function DistinctKeys(members: seq<(string, Json)>): seq<string>
    decreases |members|
  {
    if members == [] then []
    else
      var init := DistinctKeys(members[..|members| - 1]);
      var key := members[|members| - 1].0;
      if key in init then init else init + [key]
  }

  /** Iterating a dict yields every key of the object, and each only once. */
  lemma {:induction false} DistinctKeysSpec(members: seq<(string, Json)>)
    ensures forall k :: k in DistinctKeys(members) <==> exists i :: 0 <= i < |members| && members[i].0 == k
    ensures forall i, j :: 0 <= i < j < |DistinctKeys(members)| ==> DistinctKeys(members)[i] != DistinctKeys(members)[j]
    decreases |members|
  {
    if members != [] {
      var init := members[..|members| - 1];
      DistinctKeysSpec(init);
      assert forall i :: 0 <= i < |init| ==> init[i] == members[i];
    }
  }

  /** What `for x in v` runs through: the elements of a list, the keys of a
      dict, the one-character strings of a str; anything else raises. */
  function Elements(v: Json): Result<seq<Json>> {
    match v
    case Arr(elems) => Ok(elems)
    case Obj(members) =>
      var keys := DistinctKeys(members);
      Ok(seq(|keys|, k requires 0 <= k < |keys| => Str(keys[k])))
    case Str(s) => Ok(seq(|s|, k requires 0 <= k < |s| => Str([s[k]])))
    case _ => Err(NotIterable)
  }

  /** Iteration succeeds on a list, a dict or a str; a list yields its
      elements, a dict one string per distinct key, a str one string per
      character; a number, bool or None raises a TypeError. */
  lemma ElementsShape(v: Json)
    ensures Elements(v).Ok? <==> v.Arr? || v.Obj? || v.Str?
    ensures Elements(v).Err? ==> Elements(v).error == NotIterable
    ensures v.Arr? ==> Elements(v) == Ok(v.elems)
    ensures v.Obj? ==> |Elements(v).value| == |DistinctKeys(v.members)|
    ensures v.Str? ==> |Elements(v).value| == |v.s|
    ensures v.Obj? ==> forall k :: 0 <= k < |DistinctKeys(v.members)| ==> Elements(v).value[k] == Str(DistinctKeys(v.members)[k])
    ensures v.Str? ==> forall k :: 0 <= k < |v.s| ==> Elements(v).value[k] == Str([v.s[k]])
    ensures Elements(v).Ok? && !v.Arr? ==> forall k :: 0 <= k < |Elements(v).value| ==> Elements(v).value[k].Str?
  {
  }
}
