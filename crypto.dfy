/** The crypto plugin package: two independent tables, one for `Crypto` implementations
    (`slots`) and one for `ParsePassword` implementations (`_pwdslots`). */
module CryptoApi {
  import opened Wrappers
  import opened PluginRegistry

  /** An implementation of the `Crypto` plugin interface. */
  type Crypto = Plugin

  /** An implementation of the `ParsePassword` plugin interface. */
  type ParsePassword = Plugin

  /** The package-level state. */
  class Plugins {
    const slots: Registry<Crypto>
    const pwdSlots: Registry<ParsePassword>

    /** The two tables are separate maps. */
    ghost predicate Valid() {
      slots != pwdSlots
    }

    constructor ()
      ensures Valid() && fresh(slots) && fresh(pwdSlots)
      ensures slots.entries == map[] && pwdSlots.entries == map[]
    {
      slots := new Registry();
      pwdSlots := new Registry();
    }

    /** `RegisterCrypto`: binds `name` in `slots`, or panics if it is bound there;
        `_pwdslots` is not touched. */
    method RegisterCrypto(name: string, plugin: Crypto) returns (outcome: Outcome)
      requires Valid()
      modifies slots
      ensures outcome == if name in old(slots.entries) then Panicked(ExistedPluginMessage(name)) else Returned
      ensures slots.entries == Insert(old(slots.entries), name, plugin)
      ensures pwdSlots.entries == old(pwdSlots.entries)
    {
      var added := slots.Register(name, plugin);
      outcome := if added then Returned else Panicked(ExistedPluginMessage(name));
    }

    /** `GetCrypto`: the plugin bound to `name` in `slots`. */
    method GetCrypto(name: string) returns (plugin: Option<Crypto>)
      ensures plugin == Lookup(slots.entries, name)
    {
      plugin := slots.Get(name);
    }

    /** `RegisterParsePassword`: binds `name` in `_pwdslots`, or panics if it is bound
        there; `slots` is not touched. */
    method RegisterParsePassword(name: string, plugin: ParsePassword) returns (outcome: Outcome)
      requires Valid()
      modifies pwdSlots
      ensures outcome == if name in old(pwdSlots.entries) then Panicked(ExistedPluginMessage(name)) else Returned
      ensures pwdSlots.entries == Insert(old(pwdSlots.entries), name, plugin)
      ensures slots.entries == old(slots.entries)
    {
      var added := pwdSlots.Register(name, plugin);
      outcome := if added then Returned else Panicked(ExistedPluginMessage(name));
    }

    /** `GetParsePassword`: the plugin bound to `name` in `_pwdslots`. */
    method GetParsePassword(name: string) returns (plugin: Option<ParsePassword>)
      ensures plugin == Lookup(pwdSlots.entries, name)
    {
      plugin := pwdSlots.Get(name);
    }
  }

  /** The same name can be bound in both tables: a fresh package accepts `name` in
      `slots` and then again in `_pwdslots`, and each lookup finds its own plugin. */
  method RegisterInBothTables(name: string, c: Crypto, p: ParsePassword)
    returns (inSlots: Option<Crypto>, inPwdSlots: Option<ParsePassword>)
    ensures inSlots == Some(c) && inPwdSlots == Some(p)
  {
    var plugins := new Plugins();
    var first := plugins.RegisterCrypto(name, c);
    var second := plugins.RegisterParsePassword(name, p);
    assert first == Returned && second == Returned;
    inSlots := plugins.GetCrypto(name);
    inPwdSlots := plugins.GetParsePassword(name);
  }
}
