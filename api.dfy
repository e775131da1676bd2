/**
 * The API object: components attach their public operations to it by
 * name, a request is dispatched by name, and the names it offers are
 * listed by reflection over its attributes.
 */
module Api {
  import opened Text
  import opened PyValues
  import opened Sorting

  /** An attribute of the API object: an operation, called with keyword arguments, or a plain value. */
  datatype Attr =
    | Handler(call: PyDict -> Result<Value, string>)
    | Data(value: Value)

  /** The attributes of the API object by name: those of its class and those set on it. */
  type Table = map<string, Attr>

  /** What `Base` itself defines (`Base.__dict__`). */
  const BaseMembers: set<string> :=
    {"__module__", "__doc__", "__dict__", "__weakref__",
     "msg", "get_value", "get_persistent_state", "set_persistent_state"}

  /** `api.<name> = <operation>`: a component attaches one of its operations. */
  function Register(t: Table, name: string, f: PyDict -> Result<Value, string>): (r: Table)
    ensures r.Keys == t.Keys + {name}
    ensures r[name] == Handler(f) && forall n :: n in t && n != name ==> r[n] == t[n]
  {
    t[name := Handler(f)]
  }

  /**
   * `_exec(name, **args)`: an attribute that exists is called with the
   * arguments (calling a plain value raises `TypeError`); an unknown name
   * raises `NotImplementedError`.
   */
  function Exec(t: Table, name: string, args: PyDict): (r: Result<Value, string>)
    ensures name !in t ==> r == Err("NotImplementedError")
    ensures name in t && t[name].Handler? ==> r == t[name].call(args)
    ensures name in t && t[name].Data? ==> r == Err("TypeError")
  {
    if name !in t then Err("NotImplementedError")
    else match t[name]
      case Handler(f) => f(args)
      case Data(_) => Err("TypeError")
  }

  /** A registered operation is what a request by its name runs, whatever was registered before. */
  lemma ExecRegistered(t: Table, name: string, f: PyDict -> Result<Value, string>, args: PyDict)
    ensures Exec(Register(t, name, f), name, args) == f(args)
  {
  }

  /** Registering one name leaves requests for every other name as they were. */
  lemma ExecOthers(t: Table, name: string, f: PyDict -> Result<Value, string>, other: string, args: PyDict)
    requires other != name
    ensures Exec(Register(t, name, f), other, args) == Exec(t, other, args)
  {
  }

  /** Whether `get_api_list` offers `name`: callable, not private and not inherited from `Base`. */
  predicate Public(t: Table, name: string) {
    name in t && t[name].Handler? && !StartsWith(name, "_") && name !in BaseMembers
  }

  /** The attribute names in some order, each once. */
  ghost function Names(keys: set<string>): (r: seq<string>)
    ensures Distinct(r) && forall x :: x in r <==> x in keys
    decreases |keys|
  {
    if keys == {} then []
    else
      var x :| x in keys;
      var rest := Names(keys - {x});
      assert forall i :: 0 <= i < |rest| ==> rest[i] != x;
      [x] + rest
  }

  /** `dir(api)`: the attribute names, sorted. */
  ghost function Dir(t: Table): (r: seq<string>)
    ensures StrictlySorted(r) && forall x :: x in r <==> x in t
  {
    SortDistinct(Names(t.Keys));
    Sort(Names(t.Keys))
  }

  /** The comprehension of `get_api_list`: the public names of `names`, in their order. */
  function KeepPublic(t: Table, names: seq<string>): (r: seq<string>)
    ensures forall x :: x in r <==> x in names && Public(t, x)
    ensures StrictlySorted(names) ==> StrictlySorted(r)
  {
    if names == [] then []
    else
      var rest := KeepPublic(t, names[1..]);
      assert forall x :: x in names[1..] ==> x in names;
      if Public(t, names[0]) then
        assert StrictlySorted(names) ==> forall y :: y in rest ==> Less(names[0], y) by {
          if StrictlySorted(names) {
            forall y | y in rest ensures Less(names[0], y) {
              var j :| 0 <= j < |names[1..]| && names[1..][j] == y;
              assert names[j + 1] == y;
            }
          }
        }
        [names[0]] + rest
      else rest
  }

  /** `get_api_list()`. */
  ghost function ApiList(t: Table): (r: seq<string>)
  {
    KeepPublic(t, Dir(t))
  }

  /**
   * The API list holds exactly the public operations, in sorted order and
   * each once, and every name on it is dispatched to its operation.
   */
  lemma ApiListExact(t: Table, args: PyDict)
    ensures StrictlySorted(ApiList(t))
    ensures forall x :: x in ApiList(t) <==> Public(t, x)
    ensures forall x :: x in ApiList(t) ==> Exec(t, x, args) == t[x].call(args)
  {
  }

  /** Registering a name lists it exactly when it is public, and leaves every other name as listed. */
  lemma ApiListRegister(t: Table, name: string, f: PyDict -> Result<Value, string>)
    ensures forall x :: x in ApiList(Register(t, name, f)) <==>
                          (x in ApiList(t) && x != name) || (x == name && !StartsWith(name, "_") && name !in BaseMembers)
  {
    ApiListExact(t, []);
    ApiListExact(Register(t, name, f), []);
  }
}
