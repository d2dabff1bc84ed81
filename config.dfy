/**
 * Options of the SDK: the environment lookup `loadConfig`, the constant
 * `DEFAULT_OPTIONS`, and the object-spread merge and validation the
 * `SparkMessaging` constructor applies to them.
 */
module Config {
  import opened Wrappers
  import opened Errors

  /**
   * One property of a JavaScript options object: the key is missing, present
   * with the value `undefined`, or present with a value. A spread copies a
   * present key even when its value is `undefined`.
   */
  datatype Field<T> = Absent | Undefined | Given(value: T) {
    /** `value ?? fallback`: the value when there is one. */
    function OrElse(fallback: T): T {
      if Given? then value else fallback
    }
  }

  /** A `Partial<SparkMessagingOptions>`. */
  datatype PartialOptions = PartialOptions(
    serverUrl: Field<string>,
    projectKey: Field<string>,
    autoConnect: Field<bool>,
    reconnection: Field<bool>,
    reconnectionAttempts: Field<int>,
    reconnectionDelay: Field<int>)

  /** `{}`. */
  const NO_OPTIONS := PartialOptions(Absent, Absent, Absent, Absent, Absent, Absent)

  const DEFAULT_SERVER_URL := "http://localhost:3000"
  const DEFAULT_PROJECT_KEY := "default-project-key-12345"

  /** `DEFAULT_OPTIONS`. */
  const DEFAULT_OPTIONS := PartialOptions(
    Given(DEFAULT_SERVER_URL), Given(DEFAULT_PROJECT_KEY), Given(true), Given(true), Given(5), Given(1000))

  /** The defaults fill every key, and the two required ones with non-empty strings. */
  lemma DefaultsComplete()
    ensures DEFAULT_OPTIONS.serverUrl.Given? && DEFAULT_OPTIONS.serverUrl.value != ""
    ensures DEFAULT_OPTIONS.projectKey.Given? && DEFAULT_OPTIONS.projectKey.value != ""
    ensures DEFAULT_OPTIONS.autoConnect == Given(true) && DEFAULT_OPTIONS.reconnection == Given(true)
    ensures DEFAULT_OPTIONS.reconnectionAttempts == Given(5) && DEFAULT_OPTIONS.reconnectionDelay == Given(1000)
  {
  }

  /**
   * A configuration source: `window.SPARK_MESSAGING_CONFIG` in a browser or
   * `process.env` under Node, reduced to the two keys read from it.
   */
  datatype EnvSource = EnvSource(serverUrl: Option<string>, projectKey: Option<string>)

  /** One conditional assignment of `loadConfig`: a truthy value replaces what is there, anything else leaves it. */
  function Assign(current: Field<string>, value: Option<string>): (f: Field<string>)
    ensures Truthy(value) ==> f == Given(value.value)
    ensures !Truthy(value) ==> f == current
  {
    if Truthy(value) then Given(value.value) else current
  }

  /**
   * `loadConfig()`, with the two sources passed in: `window` is `None` when
   * there is no window or no `SPARK_MESSAGING_CONFIG` on it, `env` is `None`
   * when there is no `process.env`.
   */
  function LoadConfig(window: Option<EnvSource>, env: Option<EnvSource>): (c: PartialOptions)
    ensures c.autoConnect == c.reconnection == Absent
    ensures c.reconnectionAttempts == c.reconnectionDelay == Absent
  {
    var fromWindow :=
      if window.Some? then
        NO_OPTIONS.(serverUrl := Assign(Absent, window.value.serverUrl), projectKey := Assign(Absent, window.value.projectKey))
      else NO_OPTIONS;
    if env.Some? then
      fromWindow.(serverUrl := Assign(fromWindow.serverUrl, env.value.serverUrl),
                  projectKey := Assign(fromWindow.projectKey, env.value.projectKey))
    else fromWindow
  }

  /** Where a value of `loadConfig` comes from: a truthy Node value wins, then a truthy window value, else the key stays unset. */
  lemma LoadConfigPrecedence(window: Option<EnvSource>, env: Option<EnvSource>)
    ensures var c := LoadConfig(window, env);
      && (env.Some? && Truthy(env.value.serverUrl) ==> c.serverUrl == Given(env.value.serverUrl.value))
      && (env.Some? && Truthy(env.value.projectKey) ==> c.projectKey == Given(env.value.projectKey.value))
      && (!(env.Some? && Truthy(env.value.serverUrl)) && window.Some? && Truthy(window.value.serverUrl) ==>
            c.serverUrl == Given(window.value.serverUrl.value))
      && (!(env.Some? && Truthy(env.value.projectKey)) && window.Some? && Truthy(window.value.projectKey) ==>
            c.projectKey == Given(window.value.projectKey.value))
      && (!(env.Some? && Truthy(env.value.serverUrl)) && !(window.Some? && Truthy(window.value.serverUrl)) ==>
            c.serverUrl == Absent)
      && (!(env.Some? && Truthy(env.value.projectKey)) && !(window.Some? && Truthy(window.value.projectKey)) ==>
            c.projectKey == Absent)
  {
  }

  /** `loadConfig` never yields a falsy value: a key it sets holds a non-empty string. */
  lemma LoadConfigTruthy(window: Option<EnvSource>, env: Option<EnvSource>)
    ensures var c := LoadConfig(window, env);
      && (c.serverUrl.Absent? || (c.serverUrl.Given? && c.serverUrl.value != ""))
      && (c.projectKey.Absent? || (c.projectKey.Given? && c.projectKey.value != ""))
  {
  }

  /** `{...base, ...over}` for one key: a key present in `over`, even as `undefined`, wins. */
  function SpreadField<T>(base: Field<T>, over: Field<T>): Field<T> {
    if over.Absent? then base else over
  }

  /** `{...base, ...over}`. */
  function Spread(base: PartialOptions, over: PartialOptions): (r: PartialOptions)
    ensures over == NO_OPTIONS ==> r == base
    ensures base == NO_OPTIONS ==> r == over
  {
    PartialOptions(
      SpreadField(base.serverUrl, over.serverUrl),
      SpreadField(base.projectKey, over.projectKey),
      SpreadField(base.autoConnect, over.autoConnect),
      SpreadField(base.reconnection, over.reconnection),
      SpreadField(base.reconnectionAttempts, over.reconnectionAttempts),
      SpreadField(base.reconnectionDelay, over.reconnectionDelay))
  }

  /** Spreading is associative, so the three-way merge can be read either way round. */
  lemma SpreadAssociative(a: PartialOptions, b: PartialOptions, c: PartialOptions)
    ensures Spread(Spread(a, b), c) == Spread(a, Spread(b, c))
  {
  }

  /** The first argument of the constructor, with its second. */
  datatype ConstructorArgs =
    | NoArgs
    | OptionsArg(options: PartialOptions)
    | UrlAndKey(serverUrl: string, projectKey: Option<string>)

  /**
   * The options object the constructor derives from its arguments. A URL
   * string is used only when a truthy key comes with it; otherwise the string
   * stands where an options object is expected and contributes no option.
   */
  function UserOptions(args: ConstructorArgs): (o: PartialOptions)
    ensures args.UrlAndKey? && Truthy(args.projectKey) ==>
      o == NO_OPTIONS.(serverUrl := Given(args.serverUrl), projectKey := Given(args.projectKey.value))
    ensures args.UrlAndKey? && !Truthy(args.projectKey) ==> o == NO_OPTIONS
    ensures args.OptionsArg? ==> o == args.options
    ensures args.NoArgs? ==> o == NO_OPTIONS
  {
    match args
    case NoArgs => NO_OPTIONS
    case OptionsArg(options) => options
    case UrlAndKey(url, key) =>
      if Truthy(key) then NO_OPTIONS.(serverUrl := Given(url), projectKey := Given(key.value)) else NO_OPTIONS
  }

  /** The validated options the SDK keeps: the two required keys as non-empty strings, the rest as merged. */
  datatype Options = Options(
    serverUrl: string,
    projectKey: string,
    autoConnect: Field<bool>,
    reconnection: Field<bool>,
    reconnectionAttempts: Field<int>,
    reconnectionDelay: Field<int>)
  {
    /** `autoConnect !== false`. */
    predicate StartsAutomatically() {
      autoConnect != Given(false)
    }
  }

  /** JavaScript truthiness of an optional string property. */
  predicate Filled(f: Field<string>) {
    f.Given? && f.value != ""
  }

  /**
   * The merge and the two checks of the constructor: user options over the
   * environment over the defaults, then `serverUrl` and `projectKey` must be
   * truthy, `serverUrl` checked first.
   */
  function ResolveOptions(args: ConstructorArgs, window: Option<EnvSource>, env: Option<EnvSource>): (r: Result<Options, JsError>)
    ensures r.Success? ==> r.value.serverUrl != "" && r.value.projectKey != ""
    ensures r.Failure? ==> r.error.SparkErr? && r.error.error.code == INVALID_OPTIONS
  {
    var merged := Spread(Spread(DEFAULT_OPTIONS, LoadConfig(window, env)), UserOptions(args));
    if !Filled(merged.serverUrl) then
      Failure(CodedError("serverUrl is required", INVALID_OPTIONS))
    else if !Filled(merged.projectKey) then
      Failure(CodedError("projectKey is required", INVALID_OPTIONS))
    else
      Success(Options(merged.serverUrl.value, merged.projectKey.value, merged.autoConnect,
                      merged.reconnection, merged.reconnectionAttempts, merged.reconnectionDelay))
  }

  /**
   * Construction fails exactly when the caller's own options make a required
   * key falsy: the defaults always fill both and the environment never sets a
   * falsy one. A missing `serverUrl` is reported before a missing `projectKey`.
   */
  lemma ResolveFailsOnlyOnCallerFalsy(args: ConstructorArgs, window: Option<EnvSource>, env: Option<EnvSource>)
    ensures var user := UserOptions(args);
      var r := ResolveOptions(args, window, env);
      && (r.Failure? <==> (!user.serverUrl.Absent? && !Filled(user.serverUrl)) || (!user.projectKey.Absent? && !Filled(user.projectKey)))
      && (!user.serverUrl.Absent? && !Filled(user.serverUrl) ==> r == Failure(CodedError("serverUrl is required", INVALID_OPTIONS)))
  {
    LoadConfigTruthy(window, env);
  }

  /**
   * Merge precedence: a caller value wins; without one a truthy environment
   * value; without either the default.
   */
  lemma ResolvePrecedence(args: ConstructorArgs, window: Option<EnvSource>, env: Option<EnvSource>)
    requires ResolveOptions(args, window, env).Success?
    ensures var o := ResolveOptions(args, window, env).value;
      var user := UserOptions(args);
      var loaded := LoadConfig(window, env);
      && (user.serverUrl.Given? ==> o.serverUrl == user.serverUrl.value)
      && (user.serverUrl.Absent? && loaded.serverUrl.Given? ==> o.serverUrl == loaded.serverUrl.value)
      && (user.serverUrl.Absent? && loaded.serverUrl.Absent? ==> o.serverUrl == DEFAULT_SERVER_URL)
      && (user.projectKey.Given? ==> o.projectKey == user.projectKey.value)
      && (user.projectKey.Absent? && loaded.projectKey.Given? ==> o.projectKey == loaded.projectKey.value)
      && (user.projectKey.Absent? && loaded.projectKey.Absent? ==> o.projectKey == DEFAULT_PROJECT_KEY)
      && (user.autoConnect.Absent? ==> o.autoConnect == Given(true))
      && (user.reconnection.Absent? ==> o.reconnection == Given(true))
      && (user.reconnectionAttempts.Absent? ==> o.reconnectionAttempts == Given(5))
      && (user.reconnectionDelay.Absent? ==> o.reconnectionDelay == Given(1000))
      && (!user.autoConnect.Absent? ==> o.autoConnect == user.autoConnect)
      && (!user.reconnection.Absent? ==> o.reconnection == user.reconnection)
      && (!user.reconnectionAttempts.Absent? ==> o.reconnectionAttempts == user.reconnectionAttempts)
      && (!user.reconnectionDelay.Absent? ==> o.reconnectionDelay == user.reconnectionDelay)
  {
  }

  /**
   * Only the caller can switch the automatic connect off: it is off exactly
   * when the caller passes `autoConnect: false`; an explicit `undefined`, like
   * a missing key, leaves it on whatever the environment holds.
   */
  lemma AutoConnectDecidedByCaller(args: ConstructorArgs, window: Option<EnvSource>, env: Option<EnvSource>)
    requires ResolveOptions(args, window, env).Success?
    ensures !ResolveOptions(args, window, env).value.StartsAutomatically() <==> UserOptions(args).autoConnect == Given(false)
  {
    ResolvePrecedence(args, window, env);
  }
}
