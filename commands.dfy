/**
 * The `heliutils` chat/console command: `<action> <type> <value>`, where the
 * action is `sethealth` or `setcrates`, the type is `ch47` or `patrol` and the
 * value is a number. This module holds the specification functions: what one
 * command does to the settings, whether it saves them, and which reply the
 * caller receives. The plugin class carries them out step by step.
 */
module Commands {
  import opened Wrappers
  import opened Config

  // ---------------------------------------------------------------------
  // Case conversion (ASCII letters only)
  // ---------------------------------------------------------------------

  function LowerChar(c: char): char
  {
    if 'A' <= c <= 'Z' then (c as int + 32) as char else c
  }

  function UpperChar(c: char): char
  {
    if 'a' <= c <= 'z' then (c as int - 32) as char else c
  }

  /** `string.ToLower`, for ASCII letters. */
  function Lower(s: string): string
  {
    if s == [] then [] else [LowerChar(s[0])] + Lower(s[1..])
  }

  /** `string.ToUpper`, for ASCII letters. */
  function Upper(s: string): string
  {
    if s == [] then [] else [UpperChar(s[0])] + Upper(s[1..])
  }

  /** Lower-casing maps each character on its own and keeps the length. */
  lemma {:induction false} LowerIsPointwise(s: string)
    ensures |Lower(s)| == |s|
    ensures forall i :: 0 <= i < |s| ==> Lower(s)[i] == LowerChar(s[i])
  {
    if s != [] {
      LowerIsPointwise(s[1..]);
    }
  }

  /** Upper-casing maps each character on its own and keeps the length. */
  lemma {:induction false} UpperIsPointwise(s: string)
    ensures |Upper(s)| == |s|
    ensures forall i :: 0 <= i < |s| ==> Upper(s)[i] == UpperChar(s[i])
  {
    if s != [] {
      UpperIsPointwise(s[1..]);
    }
  }

  // ---------------------------------------------------------------------
  // Tokens, permissions, callers and replies
  // ---------------------------------------------------------------------

  const SetHealthAction := "sethealth"
  const SetCratesAction := "setcrates"

  /** Needed for `sethealth`. */
  const PermissionHealth := "heliutils.sethealth"
  /** Needed for `setcrates`. */
  const PermissionCrate := "heliutils.setcrate"

  /** The command token that names helicopter kind `k`. */
  function Token(k: HeliKind): string
  {
    match k
    case CH47 => "ch47"
    case Patrol => "patrol"
  }

  /** The helicopter kind a (case-sensitive) token names, if any: the inverse of `Token`. */
  function KindOf(token: string): (r: Option<HeliKind>)
    ensures r.Some? ==> Token(r.value) == token
    ensures r.None? <==> forall k: HeliKind :: Token(k) != token
  {
    if token == "ch47" then Some(CH47)
    else if token == "patrol" then Some(Patrol)
    else None
  }

  /** How a reply names kind `k`: its token upper-cased. */
  function Label(k: HeliKind): string
  {
    Upper(Token(k))
  }

  /** The caller of a command and the permissions granted to them. */
  datatype Player = Player(id: string, permissions: set<string>)
  {
    predicate HasPermission(perm: string)
    {
      perm in permissions
    }
  }

  /**
   * `float.TryParse` and `int.TryParse`. Their culture-dependent grammars are
   * not modelled: a command sees them as any two total functions, and an
   * `int` result always fits in 32 bits.
   */
  datatype Parsers = Parsers(
    tryParseFloat: string -> Option<Health>,
    tryParseInt: string -> Option<Int32>)

  /** A reply sent to the caller: a localisation key and its format arguments. */
  datatype Reply =
    | Usage
    | InvalidType
    | NoPermission
    | InvalidValue
    | InvalidCommand
    | HealthSet(heliType: string, health: Health)
    | CrateCountSet(heliType: string, count: Int32)
  {
    /**
     * The key this reply is looked up under in the message table; every
     * reply but the unknown-command one has a registered text.
     */
    function Key(): (k: string)
      ensures k in RegisteredKeys <==> !InvalidCommand?
    {
      match this
      case Usage => "Usage"
      case InvalidType => "InvalidType"
      case NoPermission => "NoPermission"
      case InvalidValue => "InvalidValue"
      case InvalidCommand => "InvalidCommand"
      case HealthSet(_, _) => "HealthSet"
      case CrateCountSet(_, _) => "CrateCountSet"
    }

    predicate IsConfirmation()
    {
      HealthSet? || CrateCountSet?
    }
  }

  /** The keys the plugin registers a message text for when it initialises. */
  const RegisteredKeys: set<string> :=
    {"NoPermission", "InvalidValue", "HealthSet", "CrateCountSet", "Usage", "InvalidType"}

  // ---------------------------------------------------------------------
  // What one command does
  // ---------------------------------------------------------------------

  /**
   * The effect of one command: the settings afterwards, whether they were
   * saved (once, after the change), and the replies sent to the caller.
   */
  datatype Outcome = Outcome(settings: Settings, saved: bool, replies: seq<Reply>)

  /** A command turned away with reply `r`: nothing changes and nothing is saved. */
  function Rejected(s: Settings, r: Reply): Outcome
  {
    Outcome(s, false, [r])
  }

  /** `SetHealth`: parse the value as a float, store it for the type, save, confirm. */
  function SetHealthOutcome(s: Settings, heliType: string, value: string, p: Parsers): Outcome
  {
    match p.tryParseFloat(value)
    case None => Rejected(s, InvalidValue)
    case Some(v) =>
      var t := match KindOf(heliType) case Some(k) => s.WithHealth(k, v) case None => s;
      Outcome(t, true, [HealthSet(Upper(heliType), v)])
  }

  /** `SetCrates`: parse the value as an int, store it for the type, save, confirm. */
  function SetCratesOutcome(s: Settings, heliType: string, value: string, p: Parsers): Outcome
  {
    match p.tryParseInt(value)
    case None => Rejected(s, InvalidValue)
    case Some(n) =>
      var t := match KindOf(heliType) case Some(k) => s.WithCrates(k, n) case None => s;
      Outcome(t, true, [CrateCountSet(Upper(heliType), n)])
  }

  /**
   * The `switch (action)` of `HandleHeliCommand`, reached once the type is
   * known to name kind `k`: the action is checked, then the permission it
   * needs, then the value; only a command that passes all three changes a
   * setting, and it changes exactly the field it names.
   */
  function RunAction(s: Settings, caller: Player, k: HeliKind, action: string, value: string, p: Parsers): (o: Outcome)
    ensures |o.replies| == 1
    ensures !o.saved ==> o.settings == s
    ensures o.saved <==> o.replies[0].IsConfirmation()
    // an action other than the two gets the unknown-command reply
    ensures action != SetHealthAction && action != SetCratesAction ==> o == Rejected(s, InvalidCommand)
    // the permission is checked before the value is parsed
    ensures (action == SetHealthAction && !caller.HasPermission(PermissionHealth)) ||
            (action == SetCratesAction && !caller.HasPermission(PermissionCrate)) ==>
            o == Rejected(s, NoPermission)
    ensures (action == SetHealthAction && caller.HasPermission(PermissionHealth) &&
             p.tryParseFloat(value).None?) ||
            (action == SetCratesAction && caller.HasPermission(PermissionCrate) &&
             p.tryParseInt(value).None?) ==>
            o == Rejected(s, InvalidValue)
    // a permitted sethealth with a float stores it in the selected health field only
    ensures action == SetHealthAction && caller.HasPermission(PermissionHealth) &&
            p.tryParseFloat(value).Some? ==>
            var v := p.tryParseFloat(value).value;
            o.saved && o.settings.HealthOf(k) == v && OnlyChanged(s, o.settings, HealthField(k)) &&
            o.replies == [HealthSet(Label(k), v)]
    // a permitted setcrates with an int stores it in the selected count only, unbounded
    ensures action == SetCratesAction && caller.HasPermission(PermissionCrate) &&
            p.tryParseInt(value).Some? ==>
            var n := p.tryParseInt(value).value;
            o.saved && o.settings.CratesOf(k) == n && OnlyChanged(s, o.settings, CratesField(k)) &&
            o.replies == [CrateCountSet(Label(k), n)]
  {
    if action == SetHealthAction then
      if !caller.HasPermission(PermissionHealth) then Rejected(s, NoPermission)
      else
        SetHealthOutcome(s, Token(k), value, p)
    else if action == SetCratesAction then
      if !caller.HasPermission(PermissionCrate) then Rejected(s, NoPermission)
      else
        SetCratesOutcome(s, Token(k), value, p)
    else
      Rejected(s, InvalidCommand)
  }

  /**
   * `HandleHeliCommand`: the argument count is checked first, then the
   * lower-cased type, and only then the action (`RunAction`); the first
   * check that fails decides the one reply, and a refused command changes
   * and saves nothing.
   */
  function Dispatch(s: Settings, caller: Player, args: seq<string>, p: Parsers): (o: Outcome)
    ensures |o.replies| == 1
    ensures !o.saved ==> o.settings == s
    ensures o.saved <==> o.replies[0].IsConfirmation()
    // fewer than three arguments
    ensures |args| < 3 ==> o == Rejected(s, Usage)
    // an unknown type is refused whatever the action, permission and value
    ensures |args| >= 3 && KindOf(Lower(args[1])).None? ==> o == Rejected(s, InvalidType)
    // a known type hands the lower-cased action and the raw value on
    ensures |args| >= 3 && KindOf(Lower(args[1])).Some? ==>
            o == RunAction(s, caller, KindOf(Lower(args[1])).value, Lower(args[0]), args[2], p)
  {
    if |args| < 3 then
      Rejected(s, Usage)
    else
      var heliType, action, value := Lower(args[1]), Lower(args[0]), args[2];
      match KindOf(heliType)
      case None => Rejected(s, InvalidType)
      case Some(k) => RunAction(s, caller, k, action, value, p)
  }
  /**
   * `ProcessCommand`, which nothing calls: no argument count, no permission
   * and no lower-casing; the value is parsed before the type is checked, a
   * type other than the two tokens is refused only after a successful parse,
   * and an unknown action gets no reply at all.
   */
  function ProcessOutcome(s: Settings, heliType: string, action: string, value: string, p: Parsers): (o: Outcome)
    ensures |o.replies| <= 1
    ensures o.replies == [] <==> action != SetHealthAction && action != SetCratesAction
    ensures !o.saved ==> o.settings == s
    ensures o.saved <==> |o.replies| == 1 && o.replies[0].IsConfirmation()
    // an unparseable value is reported even when the type is invalid
    ensures (action == SetHealthAction && p.tryParseFloat(value).None?) ||
            (action == SetCratesAction && p.tryParseInt(value).None?) ==>
            o == Rejected(s, InvalidValue)
    // a parsed value with an unknown type is refused without a save
    ensures (action == SetHealthAction && p.tryParseFloat(value).Some?) ||
            (action == SetCratesAction && p.tryParseInt(value).Some?) ==>
            (o.saved <==> KindOf(heliType).Some?) &&
            (KindOf(heliType).None? ==> o == Rejected(s, InvalidType))
    ensures o.saved && action == SetHealthAction ==>
            var k, v := KindOf(heliType).value, p.tryParseFloat(value).value;
            o.settings.HealthOf(k) == v && OnlyChanged(s, o.settings, HealthField(k)) &&
            o.replies == [HealthSet(Label(k), v)]
    ensures o.saved && action == SetCratesAction ==>
            var k, n := KindOf(heliType).value, p.tryParseInt(value).value;
            o.settings.CratesOf(k) == n && OnlyChanged(s, o.settings, CratesField(k)) &&
            o.replies == [CrateCountSet(Label(k), n)]
  {
    if action == SetHealthAction then
      match p.tryParseFloat(value)
      case None => Rejected(s, InvalidValue)
      case Some(v) =>
        match KindOf(heliType)
        case None => Rejected(s, InvalidType)
        case Some(k) => Outcome(s.WithHealth(k, v), true, [HealthSet(Upper(heliType), v)])
    else if action == SetCratesAction then
      match p.tryParseInt(value)
      case None => Rejected(s, InvalidValue)
      case Some(n) =>
        match KindOf(heliType)
        case None => Rejected(s, InvalidType)
        case Some(k) => Outcome(s.WithCrates(k, n), true, [CrateCountSet(Upper(heliType), n)])
    else
      Outcome(s, false, [])
  }

  // ---------------------------------------------------------------------
  // Properties relating several commands
  // ---------------------------------------------------------------------

  /** Arguments after the third never change what a command does. */
  lemma ExtraArgumentsIgnored(s: Settings, caller: Player, args: seq<string>, extra: seq<string>, p: Parsers)
    requires |args| >= 3
    ensures Dispatch(s, caller, args + extra, p) == Dispatch(s, caller, args, p)
  {
    assert (args + extra)[..3] == args[..3];
  }

  /** The action and type tokens are compared case-insensitively. */
  lemma CaseInsensitive(s: Settings, caller: Player, a: string, a': string, t: string, t': string,
                        value: string, p: Parsers)
    requires Lower(a) == Lower(a') && Lower(t) == Lower(t')
    ensures Dispatch(s, caller, [a, t, value], p) == Dispatch(s, caller, [a', t', value], p)
  {
  }

  /** Replies name the kind in capitals. */
  lemma LabelsAreCapitalised()
    ensures Label(CH47) == "CH47" && Label(Patrol) == "PATROL"
  {
    assert Upper("ch47") == "CH47";
    assert Upper("patrol") == "PATROL";
  }

  /**
   * For a caller holding the permission, a valid type and a known action,
   * the uncalled `ProcessCommand` does what `HandleHeliCommand` does.
   */
  lemma ProcessAgreesWithDispatch(s: Settings, caller: Player, args: seq<string>, p: Parsers)
    requires |args| >= 3 && KindOf(Lower(args[1])).Some?
    requires (Lower(args[0]) == SetHealthAction && caller.HasPermission(PermissionHealth)) ||
             (Lower(args[0]) == SetCratesAction && caller.HasPermission(PermissionCrate))
    ensures ProcessOutcome(s, Lower(args[1]), Lower(args[0]), args[2], p) == Dispatch(s, caller, args, p)
  {
  }

  /**
   * Repeating a command that succeeded leaves the settings as the first run
   * left them, and saves and confirms again.
   */
  lemma RepeatIsIdempotent(s: Settings, caller: Player, args: seq<string>, p: Parsers)
    requires Dispatch(s, caller, args, p).saved
    ensures var o := Dispatch(s, caller, args, p);
            Dispatch(o.settings, caller, args, p) == o
  {
  }
}
