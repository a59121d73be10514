/** The rate-limit plugin package: its plugin table and the names of the rate-limit types. */
module RatelimitApi {
  import opened Wrappers
  import opened Primitives
  import opened PluginRegistry

  /** An implementation of the `Ratelimit` plugin interface. */
  type Ratelimit = Plugin

  /** The package-level state: the `slots` table. */
  class Plugins {
    const slots: Registry<Ratelimit>

    constructor ()
      ensures fresh(slots) && slots.entries == map[]
    {
      slots := new Registry();
    }

    /** Binds `name` to `plugin`; panics, leaving the table as it was, if `name` is bound. */
    method Register(name: string, plugin: Ratelimit) returns (outcome: Outcome)
      modifies slots
      ensures outcome == if name in old(slots.entries) then Panicked(ExistedPluginMessage(name)) else Returned
      ensures slots.entries == Insert(old(slots.entries), name, plugin)
    {
      var added := slots.Register(name, plugin);
      outcome := if added then Returned else Panicked(ExistedPluginMessage(name));
    }

    /** The plugin bound to `name` and whether there is one. */
    method Get(name: string) returns (plugin: Option<Ratelimit>)
      ensures plugin == Lookup(slots.entries, name)
    {
      plugin := slots.Get(name);
    }
  }

  /** `RatelimitType`, a Go `int` (64 bits wide). */
  newtype RatelimitType = int64

  // The constants are declared with `iota + 1`, so they count up from 1.
  const IPRatelimit: RatelimitType := 1
  const APIRatelimit: RatelimitType := IPRatelimit + 1
  const ServiceRatelimit: RatelimitType := APIRatelimit + 1
  const InstanceRatelimit: RatelimitType := ServiceRatelimit + 1

  /** The `RatelimitStr` table. */
  const RatelimitStr: map<RatelimitType, string> := map[
    IPRatelimit := "ip-limit",
    APIRatelimit := "api-limit",
    ServiceRatelimit := "service-limit",
    InstanceRatelimit := "instance-limit"]

  /** The four rate-limit types are 1, 2, 3 and 4, in declaration order. */
  lemma RatelimitTypesConsecutive()
    ensures IPRatelimit == 1 && APIRatelimit == 2 && ServiceRatelimit == 3 && InstanceRatelimit == 4
  {
  }

  /** `RatelimitStr` names exactly the four types, each by its own name. */
  lemma RatelimitStrTable()
    ensures RatelimitStr.Keys == {IPRatelimit, APIRatelimit, ServiceRatelimit, InstanceRatelimit}
    ensures RatelimitStr[IPRatelimit] == "ip-limit" && RatelimitStr[APIRatelimit] == "api-limit"
    ensures RatelimitStr[ServiceRatelimit] == "service-limit" && RatelimitStr[InstanceRatelimit] == "instance-limit"
    ensures forall t :: t in RatelimitStr <==> 1 <= t <= 4
  {
  }

  /** Distinct types have distinct names. */
  lemma RatelimitStrInjective(a: RatelimitType, b: RatelimitType)
    requires a in RatelimitStr && b in RatelimitStr && a != b
    ensures RatelimitStr[a] != RatelimitStr[b]
  {
  }
}
