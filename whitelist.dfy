/** The whitelist plugin package: its plugin table. */
module WhitelistApi {
  import opened Wrappers
  import opened PluginRegistry

  /** An implementation of the `Whitelist` plugin interface. */
  type Whitelist = Plugin

  /** The package-level state: the `slots` table. */
  class Plugins {
    const slots: Registry<Whitelist>

    constructor ()
      ensures fresh(slots) && slots.entries == map[]
    {
      slots := new Registry();
    }

    /** Binds `name` to `plugin`; panics, leaving the table as it was, if `name` is bound. */
    method Register(name: string, plugin: Whitelist) returns (outcome: Outcome)
      modifies slots
      ensures outcome == if name in old(slots.entries) then Panicked(ExistedPluginMessage(name)) else Returned
      ensures slots.entries == Insert(old(slots.entries), name, plugin)
    {
      var added := slots.Register(name, plugin);
      outcome := if added then Returned else Panicked(ExistedPluginMessage(name));
    }

    /** The plugin bound to `name` and whether there is one. */
    method Get(name: string) returns (plugin: Option<Whitelist>)
      ensures plugin == Lookup(slots.entries, name)
    {
      plugin := slots.Get(name);
    }
  }
}
