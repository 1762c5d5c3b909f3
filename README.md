# HeliUtils in Dafny

HeliUtils is an Oxide/uMod plugin for the game Rust. It stores four settings:
the spawn health of the CH47 (Chinook) helicopter, the spawn health of the
patrol helicopter, and how many loot crates each one drops when it is
destroyed. It applies them from two game-server callbacks and lets privileged
players change them with one chat/console command:

```
heliutils sethealth <ch47|patrol> <float>
heliutils setcrates <ch47|patrol> <int>
```

This project models the plugin class and proves what each command does to
the settings, to what is saved and to what the caller is told.

- `config.dfy` (module `Config`): the settings record `Settings`, the mutable
  `ConfigData` object that holds it, the helicopter kinds and the defaults.
  A crate count is a 32-bit `Int32`; a health is an opaque number that is only
  copied.
- `commands.dfy` (module `Commands`): the specification of one command as a
  function from the current settings to an `Outcome`: the settings
  afterwards, whether they were saved, and the replies sent. A reply is a
  message key with its format arguments, not rendered text. `Dispatch` is the
  command handler. `RunAction` is the part that runs once the type is known.
  `ProcessOutcome` is the unused `ProcessCommand` variant.
- `plugin.dfy` (module `Plugin`): the plugin class `Plugin.HeliUtils`. It holds `configData`, the list of records
  written by `SaveConfig` (`saved`) and the list of replies sent
  (`replies`). Its methods follow the C# methods branch by branch. Each
  command method is proved to leave exactly the state its specification
  function describes. The two entity hooks return what they hand to the
  engine: the health to initialise, and one crate-spawn request per loop
  iteration.
- `wrappers.dfy` (module `Wrappers`): `Option`, the result of a TryParse.

The parsers `float.TryParse` and `int.TryParse` are not modelled. A command
receives them as a `Parsers` value holding two arbitrary total functions.
The caller is a `Player` with a set of granted permission strings.

The model follows the code in three places where one might expect otherwise:

- It does not keep health positive or crate counts non-negative. Any parsed
  value is stored, including zero and negative ones. A negative crate count
  makes the death loop run zero times.
- The unknown-action reply uses the key `InvalidCommand`. That key is not
  among the messages the plugin registers; `Reply.Key` states this.
- The value is parsed only after the permission check, so a caller without
  permission never gets `InvalidValue`.

## Model

| member | source | states |
|---|---|---|
| Config.Settings.WithHealth | HeliUtils.cs:151-158 | storing a health for one kind sets that kind's health and leaves each of the other three settings as it was |
| Config.Settings.WithCrates | HeliUtils.cs:172-179 | storing a crate count for one kind sets that kind's count and leaves each of the other three settings as it was |
| Commands.LowerIsPointwise | HeliUtils.cs:111-112 | lower-casing the type and the action keeps their length and lower-cases each character on its own |
| Commands.UpperIsPointwise | HeliUtils.cs:160 | upper-casing the type for a confirmation keeps its length and upper-cases each character on its own |
| Commands.KindOf | HeliUtils.cs:116 | a type is accepted exactly when it is one of the two tokens `ch47` and `patrol`, and it then names the kind whose token it is |
| Commands.Reply.Key | HeliUtils.cs:56-64 | every reply key is among the registered messages except `InvalidCommand`, the one used for an unknown action |
| Commands.RunAction | HeliUtils.cs:122-187 | an unknown action gets `InvalidCommand`; a missing permission gets `NoPermission` before any parse; an unparseable value gets `InvalidValue`; none of these changes or saves anything; a permitted parsed value is stored in exactly the selected field, with no bound check, saved once and confirmed as `HealthSet`/`CrateCountSet` with the kind in capitals |
| Commands.Dispatch | HeliUtils.cs:103-145 | exactly one reply; fewer than 3 arguments gives only `Usage`; an unknown lower-cased type gives only `InvalidType` whatever the action, permission or value; a refused command changes and saves nothing; settings are saved exactly when a confirmation is sent; a known type passes the lower-cased action and the raw third argument on |
| Commands.ProcessOutcome | HeliUtils.cs:189-244 | the uncalled variant: an unknown action gets no reply at all; the value is parsed before the type is checked, so `InvalidValue` is reported even for an unknown type; a parsed value with an unknown type gets `InvalidType` and no save; otherwise exactly the selected field changes, saved once and confirmed |
| Commands.ExtraArgumentsIgnored | HeliUtils.cs:105-113 | arguments beyond the third do not change what a command does |
| Commands.CaseInsensitive | HeliUtils.cs:111-112 | two commands whose action and type agree after lower-casing have the same effect |
| Commands.LabelsAreCapitalised | HeliUtils.cs:160 | confirmations name the kinds `CH47` and `PATROL` |
| Commands.ProcessAgreesWithDispatch | HeliUtils.cs:189-244 | for a permitted caller, a known type and a known action, the uncalled variant has the same effect as the command handler |
| Commands.RepeatIsIdempotent | HeliUtils.cs:147-187 | repeating a successful command leaves the settings the first run left, and saves and confirms again |
| Plugin.HeliUtils.Load | HeliUtils.cs:25-50 | with no persisted configuration the plugin's own `LoadDefaultConfig` creates the defaults 4000, 10000, 1 and 4 and its own code saves them once, then `Init` reads the record in; otherwise the persisted record is read in and the plugin's code saves nothing |
| Plugin.HeliUtils.LoadDefaultConfig | HeliUtils.cs:25-36 | a fresh configuration holding CH47 health 4000, patrol health 10000, CH47 crates 1 and patrol crates 4, saved once; no reply |
| Plugin.HeliUtils.SaveConfig | HeliUtils.cs:38-41 | one save, recording exactly the current settings |
| Plugin.HeliUtils.LoadConfigVariables | HeliUtils.cs:43-46 | the configuration is replaced by a fresh object holding the record read |
| Plugin.HeliUtils.OnEntitySpawned | HeliUtils.cs:67-77 | a CH47 or patrol helicopter gets its kind's stored health as both current and maximum health; any other entity gets nothing |
| Plugin.HeliUtils.OnEntityDeath | HeliUtils.cs:79-101 | a CH47 or patrol helicopter drops exactly max(0, stored crate count of its kind) crates, each at its position; any other entity drops none |
| Plugin.HeliUtils.HandleHeliCommand | HeliUtils.cs:103-145 | the new settings, the saves and the replies are exactly those `Dispatch` gives for the old settings; the configuration object is not replaced |
| Plugin.HeliUtils.SetHealth | HeliUtils.cs:147-166 | a parsed float is stored for the given type, saved once and confirmed; an unparseable value only gets `InvalidValue` |
| Plugin.HeliUtils.SetCrates | HeliUtils.cs:168-187 | a parsed int is stored for the given type, saved once and confirmed; an unparseable value only gets `InvalidValue` |
| Plugin.HeliUtils.ProcessCommand | HeliUtils.cs:189-244 | the new settings, the saves and the replies are exactly those `ProcessOutcome` gives for the old settings |

## Left out

- Oxide host plumbing is not modelled: `Config.WriteObject`/`ReadObject`,
  `permission.RegisterPermission`, `AddCovalenceCommand`,
  `lang.RegisterMessages` and `lang.GetMessage`. A save is a recorded
  snapshot. Reading the configuration is a parameter of
  `Plugin.HeliUtils.Load`. Registration appears only as the set of
  registered message keys.
- Localised message text, the caller's language and `string.Format`
  rendering are not modelled. A reply is a key with its arguments.
- What `GetMessage` returns for the unregistered `InvalidCommand` key is
  not modelled.
- The grammars of `float.TryParse` and `int.TryParse` are not modelled. These
  include culture-dependent number formats, whitespace and the 32-bit range
  check. They are arbitrary functions; the int parser's results are 32-bit.
- Single-precision rounding, infinities and NaN are not modelled.
  `float.TryParse("NaN")` succeeds and would store NaN, which a real number
  cannot hold. A health is a
  real number that is copied, never computed on.
- `Commands.LowerIsPointwise`: `ToLower`/`ToUpper` are modelled for ASCII
  letters only. Culture-specific and non-ASCII case mappings are not
  modelled.
- Engine calls are not modelled: `GameManager.server.CreateEntity`,
  `LootContainer.Spawn`, `InitializeHealth`, `Vector3` and `Quaternion`. The
  hooks return the requests they would make. Each crate request is the fixed
  crate prefab at the dead helicopter's position, unrotated.
- Runtime type tests on `BaseEntity` are not modelled. An entity carries a
  kind: CH47 helicopter, patrol helicopter or other.
- `PrintWarning` logging is not modelled. Save failures are not modelled.
- The `command` argument of `HandleHeliCommand` is unused in the source
  and is only passed through.
- The caller of `SetHealth`, `SetCrates` and `ProcessCommand` is passed
  through unused in the model. The source uses it only to address replies
  and choose their language. The reply list does not record which caller
  a reply went to.
- `Plugin.HeliUtils.Load`: the first-run sequence is assumed from the Oxide
  host, which is not part of this model. The host calls `LoadDefaultConfig`
  when the configuration file is missing, then `Init`. The host's own extra
  `SaveConfig` call after `LoadDefaultConfig` is not modelled, so on a real
  server the defaults are written twice, not once.
