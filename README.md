# polaris-plugin-api: plugin tables, auth gate and record formatters

This project models the parts of the Polaris plugin API that have bodies. The rest of
the API is interface declarations and data-only structs.

- **Plugin tables.** Every plugin package keeps a package-level map from a plugin name
  to an implementation. The tables are `slots` in statis, healthcheck, ratelimit,
  history, whitelist and crypto, `_pwdslots` in crypto, and `userMgnSlots` and
  `strategyMgnSlots` in auth. Registering a name that is already bound is refused:
  the auth tables return an error, and the others panic. The first binding is never
  overwritten. A lookup reports whether the name is bound.
- **Auth configuration and gate.** `Config.SetDefault` fills in a missing user or
  strategy sub-configuration. `GetUserServer` and `GetStrategyServer` return an error
  until the `finishInit` flag has been set.
- **Formatters.** This covers the labels of a call metric, the one-line text of a
  client discovery metric and of a history record, the `namespace@group@name` key of a
  configuration file, the empty configuration release, and the rate-limit type names.

Layout:

- `PluginRegistry` holds one generic class, `Registry<T>`, with a `map` field.
  Its `Register` and `Get` are specified by the pure functions `Insert` and `Lookup`.
- Dafny has no package-level mutable variables. So each Go package is a module with a
  `Plugins` class whose constant fields are that package's tables. In auth, the class
  also holds the `finishInit`, `userMgn` and `strategyMgn` variables.
- Each panic is modelled as the result `Panicked(message)`, and the table is left as
  it was. Each auth error is `Some(message)`, and a nil error is `None`.
- `Text` holds joining and splitting on a one-character separator, with the
  round-trip proofs. `Decimal` holds base-10 rendering of integers (`strconv.FormatInt`
  and `%d`) and its inverse.
- Go's `int` is taken to be 64 bits wide (`Primitives.int64`). The division
  `Timestamp/1000` truncates toward zero, as Go's does, and `UnixSeconds` models that.

Three facts about the code shape the model:

- The code gates only the two auth getters on `finishInit`. The other packages' `Get` functions answer at any time.
- The code sets no latch that stops registration after initialisation.
- A duplicate name panics in every package except auth, which returns an error.

## Model

| member | source | states |
|---|---|---|
| `PluginRegistry.Registry.Register` | observability/statis/api.go:31-35 | This is the insert-if-absent that every table performs. It adds the binding exactly when the name was unbound. The table becomes `Insert(old table, name, plugin)`. |
| `PluginRegistry.Registry.Get` | observability/statis/api.go:38-41 | The result is present exactly when the name is bound, and then it is that name's plugin. Nothing changes. |
| `PluginRegistry.Insert` | observability/statis/api.go:32-35 | The keys gain the name. A bound name leaves the table identical, so the first binding stays. An unbound name is bound to the new plugin. Every earlier entry keeps its value. |
| `PluginRegistry.Lookup` | observability/statis/api.go:38-41 | This is the comma-ok lookup. The result is present exactly when the name is in the map, and it carries the mapped value. |
| `PluginRegistry.FirstRegistered` | observability/statis/api.go:31-35 | The result is present exactly when some registration has the name. It is then the plugin of the earliest such registration. |
| `PluginRegistry.FirstRegistrationWins` | observability/statis/api.go:31-35 | After any sequence of registrations, each name is bound to its earlier binding. Failing that, it is bound to the first plugin registered under it. A later registration never replaces an earlier one. |
| `StatisApi.Plugins.Register` | observability/statis/api.go:31-36 | A bound name panics with `existed plugin: name=<name>` and leaves `slots` unchanged. Otherwise the name is bound and the call returns normally. Other entries are unchanged. |
| `StatisApi.Plugins.Get` | observability/statis/api.go:38-41 | The plugin is found exactly when the name is bound in `slots`. Nothing changes. |
| `StatisApi.CallLabels` | observability/statis/api.go:101-103 | The keys are the old keys plus `api`, `protocol` and `err_code`. These map to `API`, to `Protocol` and to the base-10 text of `Code`. Every other key keeps its value. |
| `StatisApi.CallLabelsOfEmpty` | observability/statis/api.go:98-103 | An empty label map yields exactly the three keys. |
| `StatisApi.CallLabelsIdempotent` | observability/statis/api.go:97-105 | Writing the labels twice gives the same map as writing them once. |
| `StatisApi.GetLabels` | observability/statis/api.go:97-105 | A nil or empty `Labels` gives a fresh map of the three labels, and the caller's map is untouched. A non-empty `Labels` is the caller's own map: it is returned and updated in place to `CallLabels(old map)`. |
| `StatisApi.BoolText` | observability/statis/api.go:141 | `%+v` of a bool is `"true"` exactly when the bool is true, and `"false"` otherwise. |
| `StatisApi.UnixSeconds` | observability/statis/api.go:142 | `Timestamp/1000` truncates toward zero. The result times 1000 is at most the timestamp when it is not negative, and at least the timestamp when it is negative. The remainder is less than 1000 in magnitude. |
| `StatisApi.RevisionText` | observability/statis/api.go:137-140 | An empty revision prints as `-`. A non-empty revision is printed as it is. The column is never empty. |
| `StatisApi.ClientDiscoverMetric.String` | observability/statis/api.go:136-143 | The text is the `Sprintf` concatenation of ClientIP, Action, Namespace, Resource, the revision text, the rendered time of `Timestamp/1000`, `<CostTime>ms` and Success, separated by `\|`. It equals the `\|`-join of those eight columns. |
| `StatisApi.ClientDiscoverColumns` | observability/statis/api.go:136-143 | When no text column contains `\|`, splitting `String` on `\|` gives back the columns in this order: ClientIP, Action, Namespace, Resource, revision, time, `<CostTime>ms`, Success. The revision column is `-` exactly when `Revision` is empty or `-`. |
| `HealthcheckApi.Plugins.Register` | service/healthcheck/api.go:30-35 | A bound name panics and leaves `slots` unchanged. Otherwise the name is bound, and other entries are unchanged. |
| `HealthcheckApi.Plugins.Get` | service/healthcheck/api.go:37-40 | The plugin is found exactly when the name is bound. Nothing changes. |
| `RatelimitApi.Plugins.Register` | access_control/ratelimit/api.go:29-34 | A bound name panics and leaves `slots` unchanged. Otherwise the name is bound, and other entries are unchanged. |
| `RatelimitApi.Plugins.Get` | access_control/ratelimit/api.go:36-39 | The plugin is found exactly when the name is bound. Nothing changes. |
| `RatelimitApi.RatelimitTypesConsecutive` | access_control/ratelimit/api.go:44-56 | The types count up from 1: IP=1, API=2, Service=3, Instance=4. |
| `RatelimitApi.RatelimitStrTable` | access_control/ratelimit/api.go:58-64 | The table is defined for exactly the four types, that is for 1..4. Each maps to its `*-limit` name. |
| `RatelimitApi.RatelimitStrInjective` | access_control/ratelimit/api.go:58-64 | Distinct types have distinct names. |
| `CryptoApi.Plugins.RegisterCrypto` | crypto/api.go:27-32 | A name bound in `slots` panics and leaves `slots` unchanged. Otherwise the name is bound. `_pwdslots` is never changed. |
| `CryptoApi.Plugins.GetCrypto` | crypto/api.go:34-37 | The plugin is found exactly when the name is bound in `slots`. |
| `CryptoApi.Plugins.RegisterParsePassword` | crypto/api.go:66-71 | A name bound in `_pwdslots` panics and leaves `_pwdslots` unchanged. Otherwise the name is bound. `slots` is never changed. |
| `CryptoApi.Plugins.GetParsePassword` | crypto/api.go:73-76 | The plugin is found exactly when the name is bound in `_pwdslots`. |
| `CryptoApi.RegisterInBothTables` | crypto/api.go:22-76 | The two tables are independent. One name can be registered in both, and each lookup then finds its own plugin. |
| `HistoryApi.Plugins.Register` | observability/history/api.go:30-35 | A bound name panics and leaves `slots` unchanged. Otherwise the name is bound, and other entries are unchanged. |
| `HistoryApi.Plugins.Get` | observability/history/api.go:37-40 | The plugin is found exactly when the name is bound. Nothing changes. |
| `HistoryApi.RecordEntry.String` | observability/history/api.go:78-89 | The text is the `Sprintf` concatenation of `format(HappenTime)`, ResourceType, ResourceName, Namespace, OperationType, Operator, Detail and Server, separated by `\|`. It equals the `\|`-join of those eight fields. |
| `HistoryApi.RecordEntryFields` | observability/history/api.go:78-89 | When no field contains `\|`, including the formatted time, splitting `String` gives back these eight fields in order: `format(HappenTime)`, ResourceType, ResourceName, Namespace, OperationType, Operator, Detail, Server. OperationType comes before Operator. |
| `HistoryApi.RecordEntryStringInjective` | observability/history/api.go:78-89 | Two such records that print alike agree on every field except the time. Their times have the same formatted text. |
| `WhitelistApi.Plugins.Register` | access_control/whitelist/api.go:29-34 | A bound name panics and leaves `slots` unchanged. Otherwise the name is bound, and other entries are unchanged. |
| `WhitelistApi.Plugins.Get` | access_control/whitelist/api.go:36-39 | The plugin is found exactly when the name is bound. Nothing changes. |
| `AuthApi.DefaultedUser` | access_control/auth/api.go:140-145 | A present user sub-config is kept as it is. A missing one becomes `defaultUser` with empty options. |
| `AuthApi.DefaultedStrategy` | access_control/auth/api.go:146-151 | A present strategy sub-config is kept as it is. A missing one becomes `defaultStrategy` with empty options. |
| `AuthApi.DefaultingIdempotent` | access_control/auth/api.go:139-152 | Defaulting an already defaulted sub-configuration changes nothing. |
| `AuthApi.Config.SetDefault` | access_control/auth/api.go:139-152 | Afterwards both sub-configs are present and equal their defaulted old values. Only `User` and `Strategy` may change, so `Name` and `Option` stay the same. |
| `AuthApi.SetDefaultTwice` | access_control/auth/api.go:139-152 | A second `SetDefault` leaves the configuration as the first one left it. |
| `AuthApi.Plugins.RegisterUserServer` | access_control/auth/api.go:182-190 | If `s.Name()` is bound, the call returns the error `UserServer=[<name>] exist` and the table is unchanged. Otherwise it binds `s` under its name and returns nil. The strategy table, `finishInit`, `userMgn` and `strategyMgn` are unchanged. |
| `AuthApi.Plugins.RegisterStrategyServer` | access_control/auth/api.go:201-209 | The same as `RegisterUserServer`, on `strategyMgnSlots`. The user table and the initialisation state are unchanged. |
| `AuthApi.Plugins.GetUserServer` | access_control/auth/api.go:193-198 | While `finishInit` is false, it returns nil and the error `UserServer has not done Initialize`. Afterwards it returns `userMgn` and no error. Nothing changes. |
| `AuthApi.Plugins.GetStrategyServer` | access_control/auth/api.go:212-217 | While `finishInit` is false, it returns nil and the error `StrategyServer has not done Initialize`. Afterwards it returns `strategyMgn` and no error. Nothing changes. |
| `AuthApi.Plugins.CompleteInit` | access_control/auth/api.go:175-178 | This stands in for the initialisation outside this file. It sets `finishInit` and the selected servers and does not touch the tables. |
| `ConfigModel.ConfigFileKey.String` | store/model/config.go:61-63 | The key text is Namespace, Group and Name joined by `@`, in that order rather than in field order. |
| `ConfigModel.ConfigFileKeyRoundTrip` | store/model/config.go:61-63 | When no part contains `@`, splitting the text on `@` recovers `(Namespace, Group, Name)`. |
| `ConfigModel.ConfigFileKeyInjective` | store/model/config.go:61-63 | Under the same condition, distinct keys have distinct texts. |
| `ConfigModel.NewConfigFileRelease` | store/model/config.go:90-96 | Both embedded pointers are set, and every other field holds its zero value. The release type is `ReleaseTypeFull` (`""`), which differs from `ReleaseTypeGray` (`"gray"`). |
| `Text.Split` | observability/history/api.go:79-88 | The pieces contain no separator, there is at least one piece, and joining them gives back the input. |
| `Text.SplitJoin` | observability/history/api.go:79-88 | Joining pieces that contain no separator and then splitting gives back the pieces. This is the join/split round trip behind the `\|` and `@` formats. |
| `Text.JoinEight` | observability/history/api.go:79-88 | Joining eight pieces with a separator is the concatenation that an eight-`%s` format with that separator produces. |
| `Text.JoinInjective` | store/model/config.go:61-63 | Joining non-empty lists of pieces that contain no separator is injective. This gives the injectivity of the key text and of the history line. |
| `Decimal.FormatInt` | observability/statis/api.go:103 | The text is non-empty and made of digits and `-`. It starts with `-` exactly when the number is negative. It has no leading zero: it is `0`, or its first digit is not `0`. |
| `Decimal.FormatIntRoundTrip` | observability/statis/api.go:103 | The base-10 text of every integer reads back as that integer. |
| `Decimal.FormatIntInjective` | observability/statis/api.go:103 | Distinct codes give distinct `err_code` labels. |

## Left out

- The interface method sets have no bodies in the Go packages modelled here (auth, statis, healthcheck, ratelimit, crypto, history and whitelist), so they are not modelled. This covers `AuthChecker`, `UserServer`, `GroupOperator`, `StrategyServer`, `HealthChecker`, `Crypto`, `ParsePassword`, `Ratelimit`, `Whitelist` and `History`. Permission evaluation, group expansion, tokens and login are therefore absent. A plugin is modelled only by its name and an identity.
- The initialisation that selects `userMgn` and `strategyMgn` and sets `finishInit` is not part of this model. `AuthApi.Plugins.CompleteInit` takes what it selects as parameters.
- `sync.Once` and concurrent registration are not modelled. The model is sequential.
- Process termination on a panic is not modelled. A panic is modelled as a `Panicked` result after which the table is unchanged.
- Rendering of `time.Time` is not modelled, because it depends on the locale and time zone. The time text is a caller-supplied function: Unix seconds for `ClientDiscoverMetric.String`, and the caller's `format` for `RecordEntry.String`.
- Go's distinction between a nil map and an empty one is not modelled, except where `GetLabels` tests `len(...) == 0`. Option maps and `Metadata` are plain maps.
- A nil plugin (a nil interface value) is not modelled, because a `Plugin` is never nil. In Go, `Register(name, nil)` binds the name to nil, so a later `Get(name)` returns `(nil, true)`. `RegisterUserServer(nil)` and `RegisterStrategyServer(nil)` panic when they call `s.Name()`.
- `NewConfigFileRelease` returns a value in the model. The freshness of the Go pointers, and so aliasing between releases, is not modelled.
- The data-only structs are not modelled, except where a modelled operation uses them. This covers the rule, service and auth records, the CMDB and discover-event types, and the health-check request and response types.
- Go strings are byte sequences, but model strings are sequences of Unicode characters. So names, labels and fields holding invalid UTF-8 cannot be represented. The `|` and `@` round trips do not depend on this, because both separators are ASCII.
