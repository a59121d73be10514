/**
 The name-keyed plugin table that every plugin package keeps in a package-level map
 (`slots`, `_pwdslots`, `userMgnSlots`, `strategyMgnSlots`): a name is bound at most once,
 the first binding is never overwritten, and lookup reports whether the name is bound.
 */
module PluginRegistry {
  import opened Wrappers

  /** An implementation of one of the plugin interfaces. `name` is what its `Name()`
      method returns; `instance` tells apart implementations that report the same name.
      The interface's other methods are not modelled. */
  datatype Plugin = Plugin(name: string, instance: nat)

  /** The panic message of every `Register` that finds its name already bound. */
  function ExistedPluginMessage(name: string): string {
    "existed plugin: name=" + name
  }

  /** How a Go registration that panics on a duplicate name ends. */
  datatype Outcome = Returned | Panicked(message: string)

  /** Map lookup with the comma-ok result of Go: `None` stands for `(nil, false)`. */
  function Lookup<T>(m: map<string, T>, name: string): (r: Option<T>)
    ensures r.Some? <==> name in m
    ensures r.Some? ==> r.value == m[name]
  {
    if name in m then Some(m[name]) else None
  }

  /** Insert-if-absent: the table after registering `plugin` under `name`. */
  function Insert<T>(m: map<string, T>, name: string, plugin: T): (r: map<string, T>)
    ensures r.Keys == m.Keys + {name}
    ensures name in m ==> r == m
    ensures name !in m ==> r[name] == plugin
    ensures forall k :: k in m ==> r[k] == m[k]
  {
    if name in m then m else m[name := plugin]
  }

  datatype Registration<T> = Registration(name: string, plugin: T)

  /** The table after a sequence of registrations, in order. */
  function InsertAll<T>(m: map<string, T>, regs: seq<Registration<T>>): map<string, T>
    decreases |regs|
  {
    if |regs| == 0 then m else InsertAll(Insert(m, regs[0].name, regs[0].plugin), regs[1..])
  }

  /** The plugin of the first registration under `name`, if there is one. */
  function FirstRegistered<T>(regs: seq<Registration<T>>, name: string): (r: Option<T>)
    ensures r.Some? <==> exists i :: 0 <= i < |regs| && regs[i].name == name
    ensures r.Some? ==> exists i :: 0 <= i < |regs| && regs[i].name == name && r.value == regs[i].plugin
                                   && forall j :: 0 <= j < i ==> regs[j].name != name
    decreases |regs|
  {
    if |regs| == 0 then None
    else if regs[0].name == name then Some(regs[0].plugin)
    else
      var r := FirstRegistered(regs[1..], name);
      assert forall i :: 1 <= i < |regs| ==> regs[i] == regs[1..][i - 1];
      r
  }

  /** Whatever sequence of registrations is made, each name stays bound to the plugin
      it was bound to before, or else to the first plugin registered under it. */
  lemma {:induction false} FirstRegistrationWins<T>(m: map<string, T>, regs: seq<Registration<T>>, name: string)
    ensures Lookup(InsertAll(m, regs), name) == if name in m then Some(m[name]) else FirstRegistered(regs, name)
    decreases |regs|
  {
    if |regs| > 0 {
      FirstRegistrationWins(Insert(m, regs[0].name, regs[0].plugin), regs[1..], name);
    }
  }

  /** One plugin table; the Go packages hold it in a package-level map variable. */
  class Registry<T> {
    var entries: map<string, T>

    /** `make(map[string]T)`. */
    constructor ()
      ensures entries == map[]
    {
      entries := map[];
    }

    /** Binds `name` to `plugin` unless `name` is already bound; `added` reports which. */
    method Register(name: string, plugin: T) returns (added: bool)
      modifies this
      ensures added == (name !in old(entries))
      ensures entries == Insert(old(entries), name, plugin)
    {
      added := name !in entries;
      if added {
        entries := entries[name := plugin];
      }
    }

    /** The plugin bound to `name`, if any; changes nothing. */
    method Get(name: string) returns (plugin: Option<T>)
      ensures plugin.Some? <==> name in entries
      ensures plugin.Some? ==> plugin.value == entries[name]
    {
      if name in entries {
        plugin := Some(entries[name]);
      } else {
        plugin := None;
      }
    }
  }
}
