/**
 * The plugin's persisted settings: two helicopter health values and two
 * loot-crate counts, one of each per helicopter kind.
 *
 * `Settings` is the value of the record (what a save writes and a load
 * reads); `ConfigData` is the mutable object the plugin holds and whose
 * fields the command handlers overwrite in place.
 */
module Config {

  /** A C# `int`: every crate count the plugin stores fits in 32 bits. */
  newtype Int32 = x: int | -0x8000_0000 <= x < 0x8000_0000

  /**
   * A C# `float` health value. The plugin never computes on it, only copies
   * it from the parser to the settings and from the settings to an entity,
   * so it is modelled as a plain number.
   */
  type Health = real

  /** The two helicopter kinds the plugin manages. */
  datatype HeliKind = CH47 | Patrol

  datatype Settings = Settings(
    ch47Health: Health,
    patrolHealth: Health,
    ch47Crates: Int32,
    patrolCrates: Int32)
  {
    /** The stored health of helicopter kind `k`. */
    function HealthOf(k: HeliKind): Health
    {
      match k
      case CH47 => ch47Health
      case Patrol => patrolHealth
    }

    /** The stored crate count of helicopter kind `k`. */
    function CratesOf(k: HeliKind): Int32
    {
      match k
      case CH47 => ch47Crates
      case Patrol => patrolCrates
    }

    /** These settings with the health of kind `k` replaced by `v`; nothing else differs. */
    function WithHealth(k: HeliKind, v: Health): (t: Settings)
      ensures t.HealthOf(k) == v
      ensures OnlyChanged(this, t, HealthField(k))
    {
      match k
      case CH47 => this.(ch47Health := v)
      case Patrol => this.(patrolHealth := v)
    }

    /** These settings with the crate count of kind `k` replaced by `n`; nothing else differs. */
    function WithCrates(k: HeliKind, n: Int32): (t: Settings)
      ensures t.CratesOf(k) == n
      ensures OnlyChanged(this, t, CratesField(k))
    {
      match k
      case CH47 => this.(ch47Crates := n)
      case Patrol => this.(patrolCrates := n)
    }
  }

  /** One of the four settings. */
  datatype Field = HealthField(kind: HeliKind) | CratesField(kind: HeliKind)

  predicate SameAt(s: Settings, t: Settings, f: Field)
  {
    match f
    case HealthField(k) => s.HealthOf(k) == t.HealthOf(k)
    case CratesField(k) => s.CratesOf(k) == t.CratesOf(k)
  }

  /** `t` agrees with `s` on every setting except possibly `f`. */
  ghost predicate OnlyChanged(s: Settings, t: Settings, f: Field)
  {
    forall g: Field :: g != f ==> SameAt(s, t, g)
  }

  /** The settings written on first run when no configuration file exists. */
  const Defaults := Settings(4000.0, 10000.0, 1, 4)

  /** The configuration object the plugin holds; its fields are overwritten in place. */
  class ConfigData {
    var ch47Health: Health
    var patrolHealth: Health
    var ch47Crates: Int32
    var patrolCrates: Int32

    /** The record this object currently holds, as a save would write it. */
    function Value(): Settings
      reads this
    {
      Settings(ch47Health, patrolHealth, ch47Crates, patrolCrates)
    }

    constructor (s: Settings)
      ensures Value() == s
    {
      ch47Health, patrolHealth := s.ch47Health, s.patrolHealth;
      ch47Crates, patrolCrates := s.ch47Crates, s.patrolCrates;
    }
  }
}
