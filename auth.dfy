/**
 The auth plugin package: the configuration defaults, the `UserServer` and
 `StrategyServer` tables and the gate that refuses to hand out the selected servers
 before initialisation has finished. The `AuthChecker`, `UserServer` and
 `StrategyServer` method sets have no bodies in this package and are not modelled.
 */
module AuthApi {
  import opened Wrappers
  import opened Primitives
  import opened PluginRegistry

  const DefaultUserMgnPluginName := "defaultUser"
  const DefaultStrategyMgnPluginName := "defaultStrategy"

  /** `UserConfig`: which `UserServer` to use and its options. */
  datatype UserConfig = UserConfig(name: string, option: Options)

  /** `StrategyConfig`: which `StrategyServer` to use and its options. */
  datatype StrategyConfig = StrategyConfig(name: string, option: Options)

  /** The user sub-configuration after defaulting: a present one is kept as it is,
      a missing one becomes the built-in server with no options. */
  function DefaultedUser(user: Option<UserConfig>): (r: UserConfig)
    ensures user.Some? ==> r == user.value
    ensures user.None? ==> r.name == DefaultUserMgnPluginName && r.option == map[]
  {
    if user.Some? then user.value else UserConfig(DefaultUserMgnPluginName, map[])
  }

  /** The strategy sub-configuration after defaulting, as for the user one. */
  function DefaultedStrategy(strategy: Option<StrategyConfig>): (r: StrategyConfig)
    ensures strategy.Some? ==> r == strategy.value
    ensures strategy.None? ==> r.name == DefaultStrategyMgnPluginName && r.option == map[]
  {
    if strategy.Some? then strategy.value else StrategyConfig(DefaultStrategyMgnPluginName, map[])
  }

  /** Defaulting is idempotent. */
  lemma DefaultingIdempotent(user: Option<UserConfig>, strategy: Option<StrategyConfig>)
    ensures DefaultedUser(Some(DefaultedUser(user))) == DefaultedUser(user)
    ensures DefaultedStrategy(Some(DefaultedStrategy(strategy))) == DefaultedStrategy(strategy)
  {
  }

  /** `Config`; `None` stands for a nil sub-configuration pointer. */
  class Config {
    var name: string      // deprecated
    var option: Options   // deprecated
    var user: Option<UserConfig>
    var strategy: Option<StrategyConfig>

    constructor (name: string, option: Options, user: Option<UserConfig>, strategy: Option<StrategyConfig>)
      ensures this.name == name && this.option == option && this.user == user && this.strategy == strategy
    {
      this.name := name;
      this.option := option;
      this.user := user;
      this.strategy := strategy;
    }

    /** `Config.SetDefault`: fills in a missing user or strategy sub-configuration and
        touches nothing else. */
    method SetDefault()
      modifies this`user, this`strategy
      ensures user == Some(DefaultedUser(old(user)))
      ensures strategy == Some(DefaultedStrategy(old(strategy)))
    {
      if user.None? {
        user := Some(UserConfig(DefaultUserMgnPluginName, map[]));
      }
      if strategy.None? {
        strategy := Some(StrategyConfig(DefaultStrategyMgnPluginName, map[]));
      }
    }
  }

  /** A second `SetDefault` leaves the configuration as the first one left it. */
  method SetDefaultTwice(c: Config)
    modifies c
    ensures c.user.Some? && c.strategy.Some?
    ensures c.user == Some(DefaultedUser(old(c.user))) && c.strategy == Some(DefaultedStrategy(old(c.strategy)))
    ensures c.name == old(c.name) && c.option == old(c.option)
  {
    c.SetDefault();
    ghost var once := (c.user, c.strategy);
    c.SetDefault();
    assert (c.user, c.strategy) == once;
  }

  /** An implementation of the `UserServer` interface; its key is its `Name()`. */
  type UserServer = Plugin

  /** An implementation of the `StrategyServer` interface; its key is its `Name()`. */
  type StrategyServer = Plugin

  function UserServerExistsMessage(name: string): string {
    "UserServer=[" + name + "] exist"
  }

  function StrategyServerExistsMessage(name: string): string {
    "StrategyServer=[" + name + "] exist"
  }

  const UserServerNotInitialized := "UserServer has not done Initialize"
  const StrategyServerNotInitialized := "StrategyServer has not done Initialize"

  /** The package-level state. `None` stands for a nil server. */
  class Plugins {
    const userMgnSlots: Registry<UserServer>
    const strategyMgnSlots: Registry<StrategyServer>
    var finishInit: bool
    var userMgn: Option<UserServer>
    var strategyMgn: Option<StrategyServer>

    /** The two tables are separate maps. */
    ghost predicate Valid() {
      userMgnSlots != strategyMgnSlots
    }

    constructor ()
      ensures Valid() && fresh(userMgnSlots) && fresh(strategyMgnSlots)
      ensures userMgnSlots.entries == map[] && strategyMgnSlots.entries == map[]
      ensures !finishInit && userMgn == None && strategyMgn == None
    {
      userMgnSlots := new Registry();
      strategyMgnSlots := new Registry();
      finishInit := false;
      userMgn := None;
      strategyMgn := None;
    }

    /** `RegisterUserServer`: binds `s.name` to `s` unless it is bound, in which case it
        returns an error. The strategy table and the initialisation state are not touched. */
    method RegisterUserServer(s: UserServer) returns (err: Option<string>)
      requires Valid()
      modifies userMgnSlots
      ensures err == if s.name in old(userMgnSlots.entries) then Some(UserServerExistsMessage(s.name)) else None
      ensures userMgnSlots.entries == Insert(old(userMgnSlots.entries), s.name, s)
      ensures strategyMgnSlots.entries == old(strategyMgnSlots.entries)
      ensures finishInit == old(finishInit) && userMgn == old(userMgn) && strategyMgn == old(strategyMgn)
    {
      var added := userMgnSlots.Register(s.name, s);
      err := if added then None else Some(UserServerExistsMessage(s.name));
    }

    /** `RegisterStrategyServer`: as `RegisterUserServer`, on the strategy table. */
    method RegisterStrategyServer(s: StrategyServer) returns (err: Option<string>)
      requires Valid()
      modifies strategyMgnSlots
      ensures err == if s.name in old(strategyMgnSlots.entries) then Some(StrategyServerExistsMessage(s.name)) else None
      ensures strategyMgnSlots.entries == Insert(old(strategyMgnSlots.entries), s.name, s)
      ensures userMgnSlots.entries == old(userMgnSlots.entries)
      ensures finishInit == old(finishInit) && userMgn == old(userMgn) && strategyMgn == old(strategyMgn)
    {
      var added := strategyMgnSlots.Register(s.name, s);
      err := if added then None else Some(StrategyServerExistsMessage(s.name));
    }

    /** `GetUserServer`: an error until initialisation has finished, then the selected server. */
    method GetUserServer() returns (server: Option<UserServer>, err: Option<string>)
      ensures !finishInit ==> server == None && err == Some(UserServerNotInitialized)
      ensures finishInit ==> server == userMgn && err == None
    {
      if !finishInit {
        return None, Some(UserServerNotInitialized);
      }
      return userMgn, None;
    }

    /** `GetStrategyServer`: an error until initialisation has finished, then the selected server. */
    method GetStrategyServer() returns (server: Option<StrategyServer>, err: Option<string>)
      ensures !finishInit ==> server == None && err == Some(StrategyServerNotInitialized)
      ensures finishInit ==> server == strategyMgn && err == None
    {
      if !finishInit {
        return None, Some(StrategyServerNotInitialized);
      }
      return strategyMgn, None;
    }

    /** The initialisation step that selects the servers and sets `finishInit`; it lies
        outside this package, so what it selects is a parameter. The tables are not touched. */
    method CompleteInit(user: Option<UserServer>, strategy: Option<StrategyServer>)
      modifies this`finishInit, this`userMgn, this`strategyMgn
      ensures finishInit && userMgn == user && strategyMgn == strategy
    {
      userMgn := user;
      strategyMgn := strategy;
      finishInit := true;
    }
  }
}
