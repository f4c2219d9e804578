/** The App Store Connect credentials of the `codesign-audit` command: values
    from the command line, the environment and an optional JSON file, read
    through a ConfigReader that asks its providers in order. The process
    environment, the home directory, file reads and JSON loading are handed
    in through a Host. */
module AscConfig {
  import opened Wrappers
  import Strings

  /** The five configuration keys; a provider is asked for no other. */
  datatype Key = IssuerId | KeyId | PrivateKey | PrivateKeyPath | TokenExpiration

  /** ASCConfigKeyName: the dotted name each key is stored under. */
  function KeyName(k: Key): string {
    match k
    case IssuerId => "asc.issuer_id"
    case KeyId => "asc.key_id"
    case PrivateKey => "asc.private_key"
    case PrivateKeyPath => "asc.private_key_path"
    case TokenExpiration => "asc.token_expiration"
  }

  /** ASCEnvVar: the environment variable each key is read from. */
  function EnvVar(k: Key): string {
    match k
    case IssuerId => "ASC_ISSUER_ID"
    case KeyId => "ASC_KEY_ID"
    case PrivateKey => "ASC_PRIVATE_KEY"
    case PrivateKeyPath => "ASC_PRIVATE_KEY_PATH"
    case TokenExpiration => "ASC_TOKEN_EXPIRATION"
  }

  const MissingPrivateKeyMessage: string :=
    "Missing ASC private key. Provide --asc-private-key, --asc-private-key-path, or ASC_PRIVATE_KEY/ASC_PRIVATE_KEY_PATH."

  /** A stored value and whether it is a secret. */
  datatype ConfigValue = ConfigValue(text: string, isSecret: bool)

  type Values = map<Key, ConfigValue>

  datatype ConfigError =
    | ValidationError(message: string)
    | MissingValue(key: Key)
    | FileProviderError(path: string)

  /** The command-line options. */
  datatype Options = Options(
    configPath: Option<string>, ascIssuerId: Option<string>, ascKeyId: Option<string>,
    ascPrivateKey: Option<string>, ascPrivateKeyPath: Option<string>, ascTokenExpiration: Option<string>)

  datatype Host = Host(
    env: map<string, string>,
    expandingTilde: string -> string,
    readFile: string -> Option<string>,
    loadJson: string -> Result<Values, ConfigError>)

  /** The five raw inputs of one source, in the order they are stored. */
  datatype Inputs = Inputs(
    issuerId: Option<string>, keyId: Option<string>, privateKey: Option<string>,
    privateKeyPath: Option<string>, tokenExpiration: Option<string>)

  datatype Provider = Provider(name: string, values: Values)

  datatype Loaded = Loaded(issuerId: string, keyId: string, privateKey: string, tokenExpiration: Option<string>)

  predicate AllSwiftWhitespace(s: string) {
    forall i :: 0 <= i < |s| ==> Strings.IsSwiftWhitespace(s[i])
  }

  /** normalizedInput: nil for nil and for text of only whitespace and line
      breaks; any other text unchanged, untrimmed. */
  function NormalizedInput(value: Option<string>): (r: Option<string>)
    ensures r.None? <==> value.None? || AllSwiftWhitespace(value.value)
    ensures r.Some? ==> r == value
  {
    if value.None? || AllSwiftWhitespace(value.value) then None else value
  }

  /** The input of a source that is stored under a key. */
  function InputFor(inputs: Inputs, key: Key): Option<string> {
    match key
    case IssuerId => inputs.issuerId
    case KeyId => inputs.keyId
    case PrivateKey => inputs.privateKey
    case PrivateKeyPath => inputs.privateKeyPath
    case TokenExpiration => inputs.tokenExpiration
  }

  /** One key's entry: its normalised input, secret exactly for the private key. */
  function Put(m: Values, k: Key, v: Option<string>): Values {
    if v.None? then m else m[k := ConfigValue(v.value, k == PrivateKey)]
  }

  /** The value map of one source, stored key by key. */
  function ValuesOf(inputs: Inputs): Values {
    var m1 := Put(map[], IssuerId, NormalizedInput(inputs.issuerId));
    var m2 := Put(m1, KeyId, NormalizedInput(inputs.keyId));
    var m3 := Put(m2, PrivateKey, NormalizedInput(inputs.privateKey));
    var m4 := Put(m3, PrivateKeyPath, NormalizedInput(inputs.privateKeyPath));
    Put(m4, TokenExpiration, NormalizedInput(inputs.tokenExpiration))
  }

  /** In the value map of a source, a key is present exactly when its
      normalised input is, holds that text, and is secret exactly for the
      private key. */
  lemma ValuesOfEntry(inputs: Inputs, k: Key)
    ensures var m := ValuesOf(inputs);
      var v := NormalizedInput(InputFor(inputs, k));
      (k in m <==> v.Some?)
      && (k in m ==> m[k].text == v.value && (m[k].isSecret <==> k == PrivateKey))
  {
  }

  /** setValue: store a present value, not secret; nil leaves the map alone. */
  method SetValue(value: Option<string>, key: Key, values: Values) returns (r: Values)
    ensures value.None? ==> r == values
    ensures value.Some? ==> r == values[key := ConfigValue(value.value, false)]
  {
    r := values;
    if value.None? {
      return;
    }
    r := r[key := ConfigValue(value.value, false)];
  }

  /** setSecretValue: the same, stored as a secret. */
  method SetSecretValue(value: Option<string>, key: Key, values: Values) returns (r: Values)
    ensures value.None? ==> r == values
    ensures value.Some? ==> r == values[key := ConfigValue(value.value, true)]
  {
    r := values;
    if value.None? {
      return;
    }
    r := r[key := ConfigValue(value.value, true)];
  }

  /** The body shared by cliConfigValues and environmentConfigValues. */
  method ConfigValuesFrom(inputs: Inputs) returns (values: Values)
    ensures values == ValuesOf(inputs)
  {
    values := map[];
    values := SetValue(NormalizedInput(inputs.issuerId), IssuerId, values);
    values := SetValue(NormalizedInput(inputs.keyId), KeyId, values);
    values := SetSecretValue(NormalizedInput(inputs.privateKey), PrivateKey, values);
    values := SetValue(NormalizedInput(inputs.privateKeyPath), PrivateKeyPath, values);
    values := SetValue(NormalizedInput(inputs.tokenExpiration), TokenExpiration, values);
  }

  function CliInputs(options: Options): Inputs {
    Inputs(options.ascIssuerId, options.ascKeyId, options.ascPrivateKey, options.ascPrivateKeyPath, options.ascTokenExpiration)
  }

  function EnvLookup(env: map<string, string>, name: string): Option<string> {
    if name in env then Some(env[name]) else None
  }

  function EnvInputs(env: map<string, string>): Inputs {
    Inputs(EnvLookup(env, EnvVar(IssuerId)), EnvLookup(env, EnvVar(KeyId)), EnvLookup(env, EnvVar(PrivateKey)),
      EnvLookup(env, EnvVar(PrivateKeyPath)), EnvLookup(env, EnvVar(TokenExpiration)))
  }

  method CliConfigValues(options: Options) returns (values: Values)
    ensures values == ValuesOf(CliInputs(options))
  {
    values := ConfigValuesFrom(CliInputs(options));
  }

  method EnvironmentConfigValues(env: map<string, string>) returns (values: Values)
    ensures values == ValuesOf(EnvInputs(env))
  {
    values := ConfigValuesFrom(EnvInputs(env));
  }

  /** The providers in the order they are asked: command line, environment,
      and the JSON file only when a config path is given; loading that file
      may fail. */
  function ProvidersOf(options: Options, host: Host): (r: Result<seq<Provider>, ConfigError>)
    ensures r.Failure? <==>
      NormalizedInput(options.configPath).Some?
      && host.loadJson(host.expandingTilde(NormalizedInput(options.configPath).value)).Failure?
    ensures r.Success? ==>
      2 <= |r.value| <= 3
      && r.value[0] == Provider("cli", ValuesOf(CliInputs(options)))
      && r.value[1] == Provider("environment", ValuesOf(EnvInputs(host.env)))
    ensures r.Success? ==> (|r.value| == 3 <==> NormalizedInput(options.configPath).Some?)
  {
    var cli := Provider("cli", ValuesOf(CliInputs(options)));
    var environment := Provider("environment", ValuesOf(EnvInputs(host.env)));
    var path := NormalizedInput(options.configPath);
    if path.None? then Success([cli, environment])
    else
      var expanded := host.expandingTilde(path.value);
      match host.loadJson(expanded)
      case Failure(e) => Failure(e)
      case Success(values) => Success([cli, environment, Provider(expanded, values)])
  }

  /** configurationProviders. */
  method ConfigurationProviders(options: Options, host: Host) returns (r: Result<seq<Provider>, ConfigError>)
    ensures r == ProvidersOf(options, host)
  {
    var providers: seq<Provider> := [];
    var cliValues := CliConfigValues(options);
    providers := providers + [Provider("cli", cliValues)];
    var envValues := EnvironmentConfigValues(host.env);
    providers := providers + [Provider("environment", envValues)];
    assert providers == [Provider("cli", cliValues), Provider("environment", envValues)];
    var configPath := NormalizedInput(options.configPath);
    if configPath.Some? {
      var expanded := host.expandingTilde(configPath.value);
      var fileValues := host.loadJson(expanded);
      if fileValues.Failure? {
        return Failure(fileValues.error);
      }
      providers := providers + [Provider(expanded, fileValues.value)];
      assert providers == [Provider("cli", cliValues), Provider("environment", envValues), Provider(expanded, fileValues.value)];
    }
    assert configPath.None? ==> ProvidersOf(options, host) == Success(providers);
    return Success(providers);
  }

  /** ConfigReader: the value of the first provider that has the key. */
  function Lookup(providers: seq<Provider>, key: Key): (r: Option<string>)
    ensures r.Some? <==> exists i :: 0 <= i < |providers| && key in providers[i].values
  {
    if providers == [] then None
    else if key in providers[0].values then Some(providers[0].values[key].text)
    else
      var rest := Lookup(providers[1..], key);
      assert forall i :: 1 <= i < |providers| ==> providers[i] == providers[1..][i - 1];
      rest
  }

  /** An earlier provider shadows every later one. */
  lemma {:induction false} FirstProviderWins(providers: seq<Provider>, key: Key, i: int)
    requires 0 <= i < |providers| && key in providers[i].values
    requires forall j :: 0 <= j < i ==> key !in providers[j].values
    ensures Lookup(providers, key) == Some(providers[i].values[key].text)
  {
    if i > 0 {
      FirstProviderWins(providers[1..], key, i - 1);
    }
  }

  /** The command line overrides the environment, which overrides the file. */
  lemma Precedence(options: Options, host: Host, key: Key)
    requires ProvidersOf(options, host).Success?
    ensures var providers := ProvidersOf(options, host).value;
      var cli := ValuesOf(CliInputs(options));
      var environment := ValuesOf(EnvInputs(host.env));
      (key in cli ==> Lookup(providers, key) == Some(cli[key].text))
      && (key !in cli && key in environment ==> Lookup(providers, key) == Some(environment[key].text))
      && (key !in cli && key !in environment && |providers| == 3 ==> Lookup(providers, key) == Lookup([providers[2]], key))
  {
    var providers := ProvidersOf(options, host).value;
    if key in ValuesOf(CliInputs(options)) {
      FirstProviderWins(providers, key, 0);
    } else if key in ValuesOf(EnvInputs(host.env)) {
      FirstProviderWins(providers, key, 1);
    } else if |providers| == 3 {
      assert providers[1..][1..] == [providers[2]];
    }
  }

  function RequiredString(providers: seq<Provider>, key: Key): (r: Result<string, ConfigError>)
    ensures r.Success? <==> Lookup(providers, key).Some?
    ensures r.Failure? ==> r.error == MissingValue(key)
  {
    var v := Lookup(providers, key);
    if v.Some? then Success(v.value) else Failure(MissingValue(key))
  }

  /** `try? requiredString(...)`: the value, or nil when it is missing. */
  function OptionalRequired(providers: seq<Provider>, key: Key): Option<string> {
    var r := RequiredString(providers, key);
    if r.Success? then Some(r.value) else None
  }

  /** resolvePrivateKey: a key path, when given, decides alone: its file's
      contents or an error naming the expanded path; otherwise the inline
      key, or an error when there is none. */
  function ResolvePrivateKey(providers: seq<Provider>, host: Host): (r: Result<string, ConfigError>)
    ensures var path := NormalizedInput(Lookup(providers, PrivateKeyPath));
      path.Some? ==>
        var expanded := host.expandingTilde(path.value);
        (r.Success? <==> host.readFile(expanded).Some?)
        && (r.Success? ==> r.value == host.readFile(expanded).value)
        && (r.Failure? ==> r.error == ValidationError("Failed to read ASC private key file at " + expanded + "."))
    ensures NormalizedInput(Lookup(providers, PrivateKeyPath)).None? ==>
      var inline := NormalizedInput(OptionalRequired(providers, PrivateKey));
      (r.Success? <==> inline.Some?)
      && (r.Success? ==> r.value == inline.value && !AllSwiftWhitespace(r.value))
      && (r.Failure? ==> r.error == ValidationError(MissingPrivateKeyMessage))
  {
    var path := NormalizedInput(Lookup(providers, PrivateKeyPath));
    if path.Some? then
      var expanded := host.expandingTilde(path.value);
      var contents := host.readFile(expanded);
      if contents.Some? then Success(contents.value)
      else Failure(ValidationError("Failed to read ASC private key file at " + expanded + "."))
    else
      var inline := NormalizedInput(OptionalRequired(providers, PrivateKey));
      if inline.Some? then Success(inline.value)
      else Failure(ValidationError(MissingPrivateKeyMessage))
  }

  /** loadASCConfig as a value: issuer id, key id and private key are
      required, in that order; the token expiration is optional and normalised. */
  function LoadedConfig(options: Options, host: Host): (r: Result<Loaded, ConfigError>)
    ensures ProvidersOf(options, host).Failure? ==> r == Failure(ProvidersOf(options, host).error)
    ensures ProvidersOf(options, host).Success? ==>
      var providers := ProvidersOf(options, host).value;
      (Lookup(providers, IssuerId).None? ==> r == Failure(MissingValue(IssuerId)))
      && (Lookup(providers, IssuerId).Some? && Lookup(providers, KeyId).None? ==>
            r == Failure(MissingValue(KeyId)))
      && (r.Success? <==>
            Lookup(providers, IssuerId).Some? && Lookup(providers, KeyId).Some?
            && ResolvePrivateKey(providers, host).Success?)
      && (r.Success? ==> r.value == Loaded(Lookup(providers, IssuerId).value, Lookup(providers, KeyId).value,
            ResolvePrivateKey(providers, host).value, NormalizedInput(Lookup(providers, TokenExpiration))))
  {
    var providers :- ProvidersOf(options, host);
    var issuerId :- RequiredString(providers, IssuerId);
    var keyId :- RequiredString(providers, KeyId);
    var privateKey :- ResolvePrivateKey(providers, host);
    Success(Loaded(issuerId, keyId, privateKey, NormalizedInput(Lookup(providers, TokenExpiration))))
  }

  /** loadASCConfig. */
  method LoadAscConfig(options: Options, host: Host) returns (r: Result<Loaded, ConfigError>)
    ensures r == LoadedConfig(options, host)
  {
    var providers := ConfigurationProviders(options, host);
    if providers.Failure? {
      return Failure(providers.error);
    }
    var issuerId := RequiredString(providers.value, IssuerId);
    if issuerId.Failure? {
      return Failure(issuerId.error);
    }
    var keyId := RequiredString(providers.value, KeyId);
    if keyId.Failure? {
      return Failure(keyId.error);
    }
    var privateKey := ResolvePrivateKey(providers.value, host);
    if privateKey.Failure? {
      return Failure(privateKey.error);
    }
    var tokenExpiration := NormalizedInput(Lookup(providers.value, TokenExpiration));
    r := Success(Loaded(issuerId.value, keyId.value, privateKey.value, tokenExpiration));
  }
}
