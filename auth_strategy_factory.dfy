/**
 * AuthStrategyFactory: chooses the passport strategy named by the configuration and caches the
 * choice. As written, the cache guard compares an uninitialised field with `null`, so the
 * configuration is never consulted; `IntendedStrategyName` is the guard the code evidently means.
 */
module AuthStrategyFactory {
  import opened Wrappers
  import opened Errors
  import opened Config
  import opened Strings

  const AuthStrategyKey := "AUTH_STRATEGY"
  /** The only value of the strategy enum. */
  const Discord := "discord"

  /** The strategy object a name stands for; only its name matters here. */
  datatype PassportStrategy = PassportStrategy(name: string)

  /** `_isValidAuthStrategy`: the value is one of the enum's values. */
  function IsValidAuthStrategy(name: string): (b: bool)
    ensures b <==> name == Discord
  {
    name in [Discord]
  }

  function InvalidStrategyMessage(name: string): string {
    "Configured AUTH_STRATEGY '" + name + "' is not a valid strategy."
  }

  /** A value as a template literal prints it. */
  function Show(name: Nullish<string>): string {
    match name
    case Undefined => "undefined"
    case Null => "null"
    case Defined(s) => s
  }

  function StrategyNotFoundMessage(name: Nullish<string>): string {
    "Strategy " + Show(name) + " not found in strategy map"
  }

  /** The configured name, lowercased, when it is set. */
  function ConfiguredName(settings: Settings): (r: Option<string>)
    ensures r.Some? <==> AuthStrategyKey in settings
    ensures r.Some? ==> r.value == Lower(settings[AuthStrategyKey])
  {
    match Get(settings, AuthStrategyKey)
    case Some(value) => Some(Lower(value))
    case None => None
  }

  /**
   * `getActiveStrategyName` as written: the returned name and the cache it leaves, from the cache
   * it finds. Any cached value other than `null`, `undefined` included, is returned as is.
   */
  function StrategyName(cached: Nullish<string>, settings: Settings): (r: (Result<Nullish<string>, Exception>, Nullish<string>))
    ensures !cached.Null? ==> r == (Success(cached), cached)
    ensures cached.Null? && AuthStrategyKey !in settings ==> r == (Success(Defined(Discord)), Defined(Discord))
    ensures cached.Null? && AuthStrategyKey in settings
            ==> (r.0.Success? <==> Lower(settings[AuthStrategyKey]) == Discord)
    ensures cached.Null? && r.0.Failure?
            ==> r == (Failure(Error(InvalidStrategyMessage(Lower(settings[AuthStrategyKey])))), cached)
    ensures cached.Null? && r.0.Success? ==> r.1 == r.0.value && r.1 == Defined(Discord)
  {
    if !cached.Null? then (Success(cached), cached)
    else
      match ConfiguredName(settings)
      case None => (Success(Defined(Discord)), Defined(Discord))
      case Some(name) =>
        if !IsValidAuthStrategy(name) then (Failure(Error(InvalidStrategyMessage(name))), cached)
        else (Success(Defined(name)), Defined(name))
  }

  /** `getActiveStrategyInstance`'s lookup of a name in the strategy map. */
  function StrategyInstance(strategyMap: map<string, PassportStrategy>, name: Nullish<string>): (r: Result<PassportStrategy, Exception>)
    ensures r.Success? <==> name.Defined? && name.value in strategyMap
    ensures r.Success? ==> r.value == strategyMap[name.value]
    ensures r.Failure? ==> r.error == Error(StrategyNotFoundMessage(name))
  {
    if name.Defined? && name.value in strategyMap then Success(strategyMap[name.value])
    else Failure(Error(StrategyNotFoundMessage(name)))
  }

  class AuthStrategyFactory {
    const strategyMap: map<string, PassportStrategy>
    /** The cache; it starts `undefined`, as the field is declared without an initialiser. */
    var activeStrategyName: Nullish<string>

    constructor (discordStrategy: PassportStrategy)
      ensures strategyMap == map[Discord := discordStrategy]
      ensures activeStrategyName == Undefined
    {
      strategyMap := map[Discord := discordStrategy];
      activeStrategyName := Undefined;
    }

    method GetActiveStrategyName(settings: Settings) returns (r: Result<Nullish<string>, Exception>)
      modifies this
      ensures (r, activeStrategyName) == StrategyName(old(activeStrategyName), settings)
    {
      if activeStrategyName != Null {
        return Success(activeStrategyName);
      }
      var strategyName := ConfiguredName(settings);
      if strategyName.None? {
        activeStrategyName := Defined(Discord);
        return Success(activeStrategyName);
      }
      if !IsValidAuthStrategy(strategyName.value) {
        return Failure(Error(InvalidStrategyMessage(strategyName.value)));
      }
      activeStrategyName := Defined(strategyName.value);
      r := Success(Defined(strategyName.value));
    }

    method GetActiveStrategyInstance(settings: Settings) returns (r: Result<PassportStrategy, Exception>)
      modifies this
      ensures activeStrategyName == StrategyName(old(activeStrategyName), settings).1
      ensures var name := StrategyName(old(activeStrategyName), settings).0;
              r == if name.Failure? then Failure(name.error) else StrategyInstance(strategyMap, name.value)
    {
      var name := GetActiveStrategyName(settings);
      if name.Failure? {
        return Failure(name.error);
      }
      r := StrategyInstance(strategyMap, name.value);
    }
  }

  /**
   * As written, a factory whose cache was never assigned answers `undefined` for every
   * configuration, keeps answering it, and cannot find a strategy instance.
   */
  lemma UnsetCacheNeverResolves(strategyMap: map<string, PassportStrategy>, settings: Settings)
    ensures StrategyName(Undefined, settings) == (Success(Undefined), Undefined)
    ensures StrategyInstance(strategyMap, Undefined) == Failure(Error(StrategyNotFoundMessage(Undefined)))
    ensures StrategyNotFoundMessage(Undefined) == "Strategy " + "undefined" + " not found in strategy map"
  {
  }

  /**
   * The evidently intended `getActiveStrategyName`: the cache holds a name once one was chosen
   * (`Some`) and is consulted only then.
   */
  function IntendedStrategyName(cached: Option<string>, settings: Settings): (r: (Result<string, Exception>, Option<string>))
    ensures cached.Some? ==> r == (Success(cached.value), cached)
    ensures cached.None? && AuthStrategyKey !in settings ==> r == (Success(Discord), Some(Discord))
    ensures cached.None? && AuthStrategyKey in settings
            ==> (r.0.Success? <==> Lower(settings[AuthStrategyKey]) == Discord)
    ensures cached.None? && r.0.Failure?
            ==> r == (Failure(Error(InvalidStrategyMessage(Lower(settings[AuthStrategyKey])))), None)
    ensures r.0.Success? ==> r.1 == Some(r.0.value)
  {
    if cached.Some? then (Success(cached.value), cached)
    else
      match ConfiguredName(settings)
      case None => (Success(Discord), Some(Discord))
      case Some(name) =>
        if !IsValidAuthStrategy(name) then (Failure(Error(InvalidStrategyMessage(name))), None)
        else (Success(name), Some(name))
  }

  /** Starting from the unset cache, the intended factory always finds the configured strategy's instance, and every later call returns the same name. */
  lemma IntendedStrategyResolves(discordStrategy: PassportStrategy, settings: Settings, later: Settings)
    requires AuthStrategyKey in settings ==> Lower(settings[AuthStrategyKey]) == Discord
    ensures IntendedStrategyName(None, settings).0 == Success(Discord)
    ensures StrategyInstance(map[Discord := discordStrategy], Defined(IntendedStrategyName(None, settings).0.value)) == Success(discordStrategy)
    ensures IntendedStrategyName(IntendedStrategyName(None, settings).1, later).0 == Success(Discord)
  {
  }

  /** The configured name is compared case-insensitively: "Discord" selects the discord strategy. */
  lemma ConfiguredNameIgnoresCase()
    ensures IntendedStrategyName(None, map[AuthStrategyKey := "Discord"]) == (Success(Discord), Some(Discord))
  {
    var lowered := Lower("Discord");
    assert lowered[0] == LowerChar('D') == 'd';
    assert lowered == Discord;
  }
}
