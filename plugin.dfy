/**
 * The HeliUtils plugin object: it holds the configuration, persists it, runs
 * the `heliutils` command, and answers the game server's entity-spawned and
 * entity-death callbacks. The game server is not modelled: a save appends
 * the written record to `saved`, a reply appends to `replies`, and the hooks
 * return what they would hand to the engine (a health to initialise, crate
 * spawns to create).
 */
module Plugin {
  import opened Wrappers
  import opened Config
  import opened Commands

  /** The kinds of entity the hooks tell apart; every other entity is `OtherEntity`. */
  datatype EntityKind = CH47Helicopter | PatrolHelicopter | OtherEntity
  {
    function Heli(): Option<HeliKind>
    {
      match this
      case CH47Helicopter => Some(CH47)
      case PatrolHelicopter => Some(Patrol)
      case OtherEntity => None
    }
  }

  datatype Vector3 = Vector3(x: real, y: real, z: real)

  /** An entity reported by the game server, with where it is. */
  datatype Entity = Entity(kind: EntityKind, position: Vector3)

  /** The arguments of `InitializeHealth`: current and maximum health. */
  datatype HealthInit = HealthInit(health: Health, maxHealth: Health)

  /** A request to the engine to create and spawn one entity at a position, unrotated. */
  datatype CrateSpawn = CrateSpawn(prefab: string, position: Vector3)

  const CratePrefab := "assets/prefabs/npc/patrol helicopter/heli_crate.prefab"

  /** `DropCrate`: one loot crate at `position`. */
  function DropCrate(position: Vector3): CrateSpawn
  {
    CrateSpawn(CratePrefab, position)
  }

  /** How many times `for (i = 0; i < n; i++)` runs. */
  function Iterations(n: Int32): nat
  {
    if n <= 0 then 0 else n as nat
  }

  class HeliUtils {
    var configData: ConfigData
    /** Every record `SaveConfig` wrote, oldest first. */
    var saved: seq<Settings>
    /** Every reply sent to a caller, oldest first. */
    var replies: seq<Reply>

    /**
     * The state after an operation whose effect, from state `saved0` and
     * `replies0`, is `o`: the configuration holds `o.settings`, one save of
     * it was recorded if `o.saved`, and `o.replies` were sent.
     */
    ghost predicate Reflects(o: Outcome, saved0: seq<Settings>, replies0: seq<Reply>)
      reads this, configData
    {
      && configData.Value() == o.settings
      && saved == saved0 + (if o.saved then [o.settings] else [])
      && replies == replies0 + o.replies
    }

    /**
     * Loading the plugin: with no persisted configuration the defaults are
     * created and written first; then the persisted record is read in.
     */
    constructor Load(persisted: Option<Settings>)
      ensures fresh(configData)
      ensures configData.Value() == if persisted.Some? then persisted.value else Defaults
      ensures saved == if persisted.Some? then [] else [Defaults]
      ensures replies == []
    {
      configData := new ConfigData(Defaults);
      saved, replies := [], [];
      new;
      var file: Settings;
      if persisted.None? {
        LoadDefaultConfig();
        file := saved[|saved| - 1];
      } else {
        file := persisted.value;
      }
      LoadConfigVariables(file);
    }

    /** `LoadDefaultConfig`: a fresh configuration holding the defaults, saved at once. */
    method LoadDefaultConfig()
      modifies this
      ensures fresh(configData)
      ensures configData.Value() == Defaults
      ensures saved == old(saved) + [Defaults]
      ensures replies == old(replies)
    {
      configData := new ConfigData(Defaults);
      SaveConfig();
    }

    /** `SaveConfig`: writes the current record. */
    method SaveConfig()
      modifies this`saved
      ensures saved == old(saved) + [configData.Value()]
    {
      saved := saved + [configData.Value()];
    }

    /** `LoadConfigVariables`: replaces the configuration by the record read from `file`. */
    method LoadConfigVariables(file: Settings)
      modifies this`configData
      ensures fresh(configData)
      ensures configData.Value() == file
    {
      configData := new ConfigData(file);
    }

    /**
     * `OnEntitySpawned`: a CH47 or patrol helicopter gets its kind's stored
     * health as both its current and its maximum health; any other entity
     * is left alone.
     */
    method OnEntitySpawned(entity: Entity) returns (init: Option<HealthInit>)
      ensures init.Some? <==> entity.kind.Heli().Some?
      ensures init.Some? ==>
                var h := configData.Value().HealthOf(entity.kind.Heli().value);
                init.value.health == h && init.value.maxHealth == h
    {
      if entity.kind == CH47Helicopter {
        init := Some(HealthInit(configData.ch47Health, configData.ch47Health));
      } else if entity.kind == PatrolHelicopter {
        init := Some(HealthInit(configData.patrolHealth, configData.patrolHealth));
      } else {
        init := None;
      }
    }

    /**
     * `OnEntityDeath`: a CH47 or patrol helicopter drops its kind's stored
     * number of crates where it died (none when that number is zero or
     * negative); any other entity drops nothing.
     */
    method OnEntityDeath(entity: Entity) returns (drops: seq<CrateSpawn>)
      ensures |drops| == match entity.kind.Heli()
                         case Some(k) => Iterations(configData.Value().CratesOf(k))
                         case None => 0
      ensures forall i :: 0 <= i < |drops| ==> drops[i] == DropCrate(entity.position)
    {
      drops := [];
      var count: Int32 := 0;
      if entity.kind == CH47Helicopter {
        count := configData.ch47Crates;
      } else if entity.kind == PatrolHelicopter {
        count := configData.patrolCrates;
      } else {
        return;
      }
      var i: Int32 := 0;
      while i < count
        invariant 0 <= i as int <= Iterations(count)
        invariant |drops| == i as int
        invariant forall j :: 0 <= j < |drops| ==> drops[j] == DropCrate(entity.position)
      {
        drops := drops + [DropCrate(entity.position)];
        i := i + 1;
      }
    }

    /** `HandleHeliCommand`: runs one `heliutils` command for `caller`. */
    method HandleHeliCommand(caller: Player, command: string, args: seq<string>, p: Parsers)
      modifies this, configData
      ensures configData == old(configData)
      ensures Reflects(Dispatch(old(configData.Value()), caller, args, p), old(saved), old(replies))
    {
      if |args| < 3 {
        replies := replies + [Usage];
        return;
      }

      var heliType := Lower(args[1]);
      var action := Lower(args[0]);
      var value := args[2];

      if heliType != "ch47" && heliType != "patrol" {
        replies := replies + [InvalidType];
        return;
      }

      if action == SetHealthAction {
        if !caller.HasPermission(PermissionHealth) {
          replies := replies + [NoPermission];
          return;
        }
        SetHealth(caller, heliType, value, p);
      } else if action == SetCratesAction {
        if !caller.HasPermission(PermissionCrate) {
          replies := replies + [NoPermission];
          return;
        }
        SetCrates(caller, heliType, value, p);
      } else {
        replies := replies + [InvalidCommand];
      }
    }

    /** `SetHealth`: stores a parsed health for `heliType`, saves and confirms. */
    method SetHealth(caller: Player, heliType: string, value: string, p: Parsers)
      modifies this, configData
      ensures configData == old(configData)
      ensures Reflects(SetHealthOutcome(old(configData.Value()), heliType, value, p), old(saved), old(replies))
    {
      var parsed := p.tryParseFloat(value);
      if parsed.Some? {
        var newHealth := parsed.value;
        if heliType == "ch47" {
          configData.ch47Health := newHealth;
        } else if heliType == "patrol" {
          configData.patrolHealth := newHealth;
        }
        SaveConfig();
        replies := replies + [HealthSet(Upper(heliType), newHealth)];
      } else {
        replies := replies + [InvalidValue];
      }
    }

    /** `SetCrates`: stores a parsed crate count for `heliType`, saves and confirms. */
    method SetCrates(caller: Player, heliType: string, value: string, p: Parsers)
      modifies this, configData
      ensures configData == old(configData)
      ensures Reflects(SetCratesOutcome(old(configData.Value()), heliType, value, p), old(saved), old(replies))
    {
      var parsed := p.tryParseInt(value);
      if parsed.Some? {
        var newCrateCount := parsed.value;
        if heliType == "ch47" {
          configData.ch47Crates := newCrateCount;
        } else if heliType == "patrol" {
          configData.patrolCrates := newCrateCount;
        }
        SaveConfig();
        replies := replies + [CrateCountSet(Upper(heliType), newCrateCount)];
      } else {
        replies := replies + [InvalidValue];
      }
    }

    /** `ProcessCommand`: the unchecked variant of the command, which nothing calls. */
    method ProcessCommand(caller: Player, heliType: string, action: string, value: string, p: Parsers)
      modifies this, configData
      ensures configData == old(configData)
      ensures Reflects(ProcessOutcome(old(configData.Value()), heliType, action, value, p), old(saved), old(replies))
    {
      if action == SetHealthAction {
        var parsed := p.tryParseFloat(value);
        if parsed.Some? {
          var newHealth := parsed.value;
          if heliType == "ch47" {
            configData.ch47Health := newHealth;
          } else if heliType == "patrol" {
            configData.patrolHealth := newHealth;
          } else {
            replies := replies + [InvalidType];
            return;
          }
          SaveConfig();
          replies := replies + [HealthSet(Upper(heliType), newHealth)];
        } else {
          replies := replies + [InvalidValue];
        }
      } else if action == SetCratesAction {
        var parsed := p.tryParseInt(value);
        if parsed.Some? {
          var newCrateCount := parsed.value;
          if heliType == "ch47" {
            configData.ch47Crates := newCrateCount;
          } else if heliType == "patrol" {
            configData.patrolCrates := newCrateCount;
          } else {
            replies := replies + [InvalidType];
            return;
          }
          SaveConfig();
          replies := replies + [CrateCountSet(Upper(heliType), newCrateCount)];
        } else {
          replies := replies + [InvalidValue];
        }
      }
    }
  }
}
