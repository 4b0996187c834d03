/** Configuration: defaults, validation, and the choice of a scanner backend at startup and at run time. */
module ScannerConfig {
  import opened Models

  // ---- The configuration ----

  /** Scanner types are strings; the empty one means "not set". */
  type ScannerType = string

  const CLI := "cli"
  const REGISTRY := "registry"

  datatype AuthConfig = AuthConfig(kind: string, secret: string)

  datatype RegistryConfig = RegistryConfig(name: string, kind: string, auth: AuthConfig, scannerType: ScannerType)

  datatype RegistryScannerConfig = RegistryScannerConfig(apiURL: string, projectID: string, pollInterval: string)

  datatype ScannerSettings = ScannerSettings(scannerType: ScannerType, sysdigToken: string, cliPath: string,
                                             defaultTimeout: string, maxConcurrent: int,
                                             registryScanner: Option<RegistryScannerConfig>)

  datatype ServerSettings = ServerSettings(port: int, readTimeout: string, writeTimeout: string,
                                           maxRequestSize: int, shutdownTimeout: string)

  datatype QueueSettings = QueueSettings(bufferSize: int, workers: int)

  datatype Config = Config(server: ServerSettings, registries: seq<RegistryConfig>, scanner: ScannerSettings,
                           queue: QueueSettings)

  /** What lies outside: which durations parse, and which paths name an executable. */
  datatype Environment = Environment(parses: string -> bool, executable: string -> bool)

  // ---- Defaults ----

  function OrDefault(s: string, default_: string): string { if s == "" then default_ else s }
  function OrNumber(n: int, default_: int): int { if n == 0 then default_ else n }

  function ServerDefaults(s: ServerSettings): ServerSettings {
    ServerSettings(OrNumber(s.port, 8080), OrDefault(s.readTimeout, "30s"), OrDefault(s.writeTimeout, "30s"),
                   OrNumber(s.maxRequestSize, 10 * 1024 * 1024), OrDefault(s.shutdownTimeout, "30s"))
  }

  /** The settings of the registry scanner are completed only when it is the global type. */
  function ScannerDefaults(s: ScannerSettings): ScannerSettings {
    var scannerType := OrDefault(s.scannerType, CLI);
    ScannerSettings(scannerType, s.sysdigToken, OrDefault(s.cliPath, "/usr/local/bin/sysdig-cli-scanner"),
                    OrDefault(s.defaultTimeout, "300s"), OrNumber(s.maxConcurrent, 5),
                    match s.registryScanner
                    case None => None
                    case Some(r) =>
                      if scannerType != REGISTRY then Some(r)
                      else Some(r.(apiURL := OrDefault(r.apiURL, "https://secure.sysdig.com"),
                                   pollInterval := OrDefault(r.pollInterval, "5s"))))
  }

  function QueueDefaults(q: QueueSettings): QueueSettings {
    QueueSettings(OrNumber(q.bufferSize, 100), OrNumber(q.workers, 3))
  }

  function WithDefaults(c: Config): Config {
    Config(ServerDefaults(c.server), c.registries, ScannerDefaults(c.scanner), QueueDefaults(c.queue))
  }

  /** Option by option: what is set stays, what is not becomes its default. */
  lemma DefaultsSpelledOut(c: Config)
    ensures var d, s := WithDefaults(c).server, c.server;
            && d.port == (if s.port != 0 then s.port else 8080)
            && d.readTimeout == (if s.readTimeout != "" then s.readTimeout else "30s")
            && d.writeTimeout == (if s.writeTimeout != "" then s.writeTimeout else "30s")
            && d.maxRequestSize == (if s.maxRequestSize != 0 then s.maxRequestSize else 10_485_760)
            && d.shutdownTimeout == (if s.shutdownTimeout != "" then s.shutdownTimeout else "30s")
    ensures var d, s := WithDefaults(c).scanner, c.scanner;
            && d.scannerType == (if s.scannerType != "" then s.scannerType else "cli")
            && d.cliPath == (if s.cliPath != "" then s.cliPath else "/usr/local/bin/sysdig-cli-scanner")
            && d.defaultTimeout == (if s.defaultTimeout != "" then s.defaultTimeout else "300s")
            && d.maxConcurrent == (if s.maxConcurrent != 0 then s.maxConcurrent else 5)
            && d.sysdigToken == s.sysdigToken
    ensures var d, s := WithDefaults(c).scanner.registryScanner, c.scanner.registryScanner;
            && (d.Some? <==> s.Some?)
            && (c.scanner.scannerType != "registry" ==> d == s)
            && (c.scanner.scannerType == "registry" && s.Some? ==>
                  && d.value.apiURL == (if s.value.apiURL != "" then s.value.apiURL else "https://secure.sysdig.com")
                  && d.value.pollInterval == (if s.value.pollInterval != "" then s.value.pollInterval else "5s")
                  && d.value.projectID == s.value.projectID)
    ensures var d, q := WithDefaults(c).queue, c.queue;
            && d.bufferSize == (if q.bufferSize != 0 then q.bufferSize else 100)
            && d.workers == (if q.workers != 0 then q.workers else 3)
    ensures WithDefaults(c).registries == c.registries
  {
    assert |CLI| == 3 && |REGISTRY| == 8;
  }

  // ---- Validate ----

  datatype ConfigError =
    | NoRegistries
    | MissingName(index: nat)
    | DuplicateName(name: string)
    | BadRegistryType(name: string)
    | BadAuth(name: string)
    | MissingToken
    | BadScannerType
    | MissingRegistryScanner
    | MissingProject
    | BadPollInterval
    | BadDuration

  predicate ValidRegistryType(kind: string) {
    kind == "dockerhub" || kind == "harbor" || kind == "gitlab"
  }

  predicate ValidAuth(auth: AuthConfig) {
    && (auth.kind == "hmac" || auth.kind == "bearer" || auth.kind == "none")
    && (auth.kind == "none" || auth.secret != "")
  }

  predicate SecretIfNeeded(auth: AuthConfig) {
    auth.kind == "none" || (auth.kind in {"hmac", "bearer"} && auth.secret != "")
  }

  /** What the registry loop accepts: names that are not empty and not repeated, known types, sound auth. */
  predicate ValidRegistries(rs: seq<RegistryConfig>) {
    && (forall i :: 0 <= i < |rs| ==>
          rs[i].name != "" && rs[i].kind in {"dockerhub", "harbor", "gitlab"} && SecretIfNeeded(rs[i].auth))
    && (forall i, j :: 0 <= i < j < |rs| ==> rs[i].name != rs[j].name)
  }

  predicate ValidScanner(env: Environment, s: ScannerSettings) {
    && s.sysdigToken != ""
    && (s.scannerType == CLI || s.scannerType == REGISTRY)
    && (s.scannerType == REGISTRY ==>
          && s.registryScanner.Some?
          && s.registryScanner.value.projectID != ""
          && (s.registryScanner.value.pollInterval != "" ==> env.parses(s.registryScanner.value.pollInterval)))
  }

  predicate ValidDurations(env: Environment, c: Config) {
    && env.parses(c.server.readTimeout) && env.parses(c.server.writeTimeout)
    && env.parses(c.server.shutdownTimeout) && env.parses(c.scanner.defaultTimeout)
  }

  predicate ValidConfig(env: Environment, c: Config) {
    && c.registries != [] && ValidRegistries(c.registries)
    && ValidScanner(env, c.scanner) && ValidDurations(env, c)
  }

  /** The registry that an error of the loop names, and what is wrong with it. */
  predicate BlamesRegistry(rs: seq<RegistryConfig>, err: ConfigError) {
    match err
    case MissingName(i) => i < |rs| && rs[i].name == ""
    case DuplicateName(name) => exists i, j :: 0 <= i < j < |rs| && rs[i].name == rs[j].name == name
    case BadRegistryType(name) =>
      exists i :: 0 <= i < |rs| && rs[i].name == name && rs[i].kind !in {"dockerhub", "harbor", "gitlab"}
    case BadAuth(name) => exists i :: 0 <= i < |rs| && rs[i].name == name && !SecretIfNeeded(rs[i].auth)
    case _ => false
  }

  method ValidateRegistries(rs: seq<RegistryConfig>) returns (err: Option<ConfigError>)
    ensures err.None? <==> ValidRegistries(rs)
    ensures err.Some? ==> BlamesRegistry(rs, err.value)
  {
    var registryNames: set<string> := {};
    for i := 0 to |rs|
      invariant ValidRegistries(rs[..i])
      invariant forall name :: name in registryNames <==> exists j :: 0 <= j < i && rs[j].name == name
    {
      var reg := rs[i];
      if reg.name == "" {
        return Some(MissingName(i));
      }
      if reg.name in registryNames {
        return Some(DuplicateName(reg.name));
      }
      registryNames := registryNames + {reg.name};
      if !ValidRegistryType(reg.kind) {
        return Some(BadRegistryType(reg.name));
      }
      if !ValidAuth(reg.auth) {
        return Some(BadAuth(reg.name));
      }
      assert rs[..i + 1] == rs[..i] + [reg];
    }
    assert rs[..|rs|] == rs;
    err := None;
  }

  /** What each error says of the configuration. */
  predicate Blames(env: Environment, c: Config, err: ConfigError) {
    var s := c.scanner;
    match err
    case NoRegistries => c.registries == []
    case MissingToken => s.sysdigToken == ""
    case BadScannerType => s.scannerType !in {"cli", "registry"}
    case MissingRegistryScanner => s.scannerType == "registry" && s.registryScanner.None?
    case MissingProject =>
      s.scannerType == "registry" && s.registryScanner.Some? && s.registryScanner.value.projectID == ""
    case BadPollInterval =>
      && s.scannerType == "registry" && s.registryScanner.Some?
      && s.registryScanner.value.pollInterval != "" && !env.parses(s.registryScanner.value.pollInterval)
    case BadDuration =>
      || !env.parses(c.server.readTimeout) || !env.parses(c.server.writeTimeout)
      || !env.parses(c.server.shutdownTimeout) || !env.parses(s.defaultTimeout)
    case _ => BlamesRegistry(c.registries, err)
  }

  /** An error is returned if and only if something is wrong, and it says something that is. */
  method Validate(env: Environment, c: Config) returns (err: Option<ConfigError>)
    ensures err.None? <==> ValidConfig(env, c)
    ensures err.Some? ==> Blames(env, c, err.value)
    ensures err.None? <==> forall e :: !Blames(env, c, e)
  {
    NothingToBlame(env, c);
    if |c.registries| == 0 {
      return Some(NoRegistries);
    }
    err := ValidateRegistries(c.registries);
    if err.Some? {
      return;
    }
    if c.scanner.sysdigToken == "" {
      return Some(MissingToken);
    }
    if c.scanner.scannerType != CLI && c.scanner.scannerType != REGISTRY {
      return Some(BadScannerType);
    }
    if c.scanner.scannerType == REGISTRY {
      if c.scanner.registryScanner.None? {
        return Some(MissingRegistryScanner);
      }
      if c.scanner.registryScanner.value.projectID == "" {
        return Some(MissingProject);
      }
      var pollInterval := c.scanner.registryScanner.value.pollInterval;
      if pollInterval != "" && !env.parses(pollInterval) {
        return Some(BadPollInterval);
      }
    }
    // the durations are in a map: the order of the checks is not fixed, and any failure is an error
    if !(env.parses(c.server.readTimeout) && env.parses(c.server.writeTimeout)
         && env.parses(c.server.shutdownTimeout) && env.parses(c.scanner.defaultTimeout)) {
      return Some(BadDuration);
    }
    err := None;
  }

  /** A configuration is valid exactly when no error can be held against it. */
  lemma NothingToBlame(env: Environment, c: Config)
    ensures ValidConfig(env, c) <==> forall e :: !Blames(env, c, e)
  {
    if ValidConfig(env, c) {
      forall e ensures !Blames(env, c, e) {
      }
    } else if ValidRegistries(c.registries) {
      assert Blames(env, c, NoRegistries) || Blames(env, c, MissingToken) || Blames(env, c, BadScannerType)
             || Blames(env, c, MissingRegistryScanner) || Blames(env, c, MissingProject)
             || Blames(env, c, BadPollInterval) || Blames(env, c, BadDuration);
    } else {
      BadRegistryIsBlamed(env, c);
    }
  }

  lemma BadRegistryIsBlamed(env: Environment, c: Config)
    requires !ValidRegistries(c.registries)
    ensures exists e :: Blames(env, c, e)
  {
    var rs := c.registries;
    if i: nat :| i < |rs| && (rs[i].name == "" || rs[i].kind !in {"dockerhub", "harbor", "gitlab"}
                             || !SecretIfNeeded(rs[i].auth)) {
      assert Blames(env, c, MissingName(i)) || Blames(env, c, BadRegistryType(rs[i].name))
             || Blames(env, c, BadAuth(rs[i].name));
    } else {
      var i, j :| 0 <= i < j < |rs| && rs[i].name == rs[j].name;
      assert Blames(env, c, DuplicateName(rs[i].name));
    }
  }

  /** The configuration that Load fills in place and then checks. */
  class LoadedConfig {
    var config: Config

    constructor (config: Config)
      ensures this.config == config
    {
      this.config := config;
    }

    method ApplyServerDefaults()
      modifies this
      ensures config == old(config).(server := ServerDefaults(old(config).server))
    {
      var server := config.server;
      if server.port == 0 {
        server := server.(port := 8080);
      }
      if server.readTimeout == "" {
        server := server.(readTimeout := "30s");
      }
      if server.writeTimeout == "" {
        server := server.(writeTimeout := "30s");
      }
      if server.maxRequestSize == 0 {
        server := server.(maxRequestSize := 10 * 1024 * 1024);
      }
      if server.shutdownTimeout == "" {
        server := server.(shutdownTimeout := "30s");
      }
      config := config.(server := server);
    }

    method ApplyScannerDefaults()
      modifies this
      ensures config == old(config).(scanner := ScannerDefaults(old(config).scanner))
    {
      var scanner := config.scanner;
      if scanner.scannerType == "" {
        scanner := scanner.(scannerType := CLI);
      }
      if scanner.cliPath == "" {
        scanner := scanner.(cliPath := "/usr/local/bin/sysdig-cli-scanner");
      }
      if scanner.defaultTimeout == "" {
        scanner := scanner.(defaultTimeout := "300s");
      }
      if scanner.maxConcurrent == 0 {
        scanner := scanner.(maxConcurrent := 5);
      }
      if scanner.scannerType == REGISTRY && scanner.registryScanner.Some? {
        var r := scanner.registryScanner.value;
        if r.apiURL == "" {
          r := r.(apiURL := "https://secure.sysdig.com");
        }
        if r.pollInterval == "" {
          r := r.(pollInterval := "5s");
        }
        scanner := scanner.(registryScanner := Some(r));
      }
      config := config.(scanner := scanner);
    }

    method ApplyDefaults()
      modifies this
      ensures config == WithDefaults(old(config))
    {
      ApplyServerDefaults();
      ApplyScannerDefaults();
      var queue := config.queue;
      if queue.bufferSize == 0 {
        queue := queue.(bufferSize := 100);
      }
      if queue.workers == 0 {
        queue := queue.(workers := 3);
      }
      config := config.(queue := queue);
    }

    /** Load after parsing: the defaults first, then the checks. */
    method Load(env: Environment) returns (err: Option<ConfigError>)
      modifies this
      ensures config == WithDefaults(old(config))
      ensures err.None? <==> ValidConfig(env, config)
    {
      ApplyDefaults();
      err := Validate(env, config);
    }
  }

  // ---- The choice of a backend ----

  datatype Backend = CLIScanner | RegistryScanner

  datatype BackendError = UnsupportedType(scannerType: ScannerType) | InvalidBackend(scannerType: ScannerType)

  datatype BackendResult = Created(backend: Backend) | Refused(error: BackendError)

  /** The type of the first registry with the name, or the empty string. */
  function FirstOverride(rs: seq<RegistryConfig>, name: string): ScannerType {
    if rs == [] then "" else if rs[0].name == name then rs[0].scannerType else FirstOverride(rs[1..], name)
  }

  function DetermineScannerType(c: Config, name: string): ScannerType {
    if FirstOverride(c.registries, name) != "" then FirstOverride(c.registries, name)
    else OrDefault(c.scanner.scannerType, CLI)
  }

  /** ValidateConfig of the two backends. */
  predicate BackendValid(env: Environment, c: Config, b: Backend) {
    match b
    case CLIScanner => env.executable(c.scanner.cliPath)
    case RegistryScanner =>
      && c.scanner.registryScanner.Some?
      && c.scanner.registryScanner.value.apiURL != ""
      && c.scanner.registryScanner.value.projectID != ""
      && c.scanner.sysdigToken != ""
  }

  function NewScannerBackend(env: Environment, c: Config, name: string): BackendResult {
    var scannerType := DetermineScannerType(c, name);
    if scannerType != CLI && scannerType != REGISTRY then Refused(UnsupportedType(scannerType))
    else
      var backend := if scannerType == CLI then CLIScanner else RegistryScanner;
      if BackendValid(env, c, backend) then Created(backend) else Refused(InvalidBackend(scannerType))
  }

  /** The probes made at startup: the empty name for the global type, and each registry with an override. */
  predicate ProbesSucceed(env: Environment, c: Config) {
    && NewScannerBackend(env, c, "").Created?
    && forall i :: 0 <= i < |c.registries| && c.registries[i].scannerType != "" ==>
         NewScannerBackend(env, c, c.registries[i].name).Created?
  }

  method ValidateScannerConfig(env: Environment, c: Config) returns (err: Option<BackendError>)
    ensures err.None? <==> ProbesSucceed(env, c)
  {
    var global := NewScannerBackend(env, c, "");
    if global.Refused? {
      return Some(global.error);
    }
    for i := 0 to |c.registries|
      invariant forall j :: 0 <= j < i && c.registries[j].scannerType != "" ==>
                  NewScannerBackend(env, c, c.registries[j].name).Created?
    {
      if c.registries[i].scannerType != "" {
        var backend := NewScannerBackend(env, c, c.registries[i].name);
        if backend.Refused? {
          return Some(backend.error);
        }
      }
    }
    err := None;
  }

  /** The type for a name, in words: that of the first registry with the name, if it sets one; or else the
      global type; or else cli.  A later registry with the same name plays no part. */
  lemma TypeByFirstMatch(c: Config, name: string)
    ensures var global := if c.scanner.scannerType != "" then c.scanner.scannerType else "cli";
            && ((forall i :: 0 <= i < |c.registries| ==> c.registries[i].name != name) ==>
                  DetermineScannerType(c, name) == global)
            && (forall i :: 0 <= i < |c.registries| && c.registries[i].name == name
                            && (forall j :: 0 <= j < i ==> c.registries[j].name != name) ==>
                  DetermineScannerType(c, name) ==
                  if c.registries[i].scannerType != "" then c.registries[i].scannerType else global)
  {
    forall i | 0 <= i < |c.registries| && c.registries[i].name == name
               && (forall j :: 0 <= j < i ==> c.registries[j].name != name)
      ensures FirstOverride(c.registries, name) == c.registries[i].scannerType
    {
      FirstMatchDecides(c.registries, name, i);
    }
    OverrideIsConfigured(c.registries, name);
  }

  lemma {:induction false} FirstMatchDecides(rs: seq<RegistryConfig>, name: string, i: nat)
    requires i < |rs| && rs[i].name == name && forall j :: 0 <= j < i ==> rs[j].name != name
    ensures FirstOverride(rs, name) == rs[i].scannerType
  {
    if i > 0 {
      assert forall j :: 0 <= j < i - 1 ==> rs[1..][j] == rs[j + 1];
      FirstMatchDecides(rs[1..], name, i - 1);
    }
  }

  /** When a backend is created, which one, and why not otherwise. */
  lemma CreatedIff(env: Environment, c: Config, name: string)
    ensures var t, s, r := DetermineScannerType(c, name), c.scanner, NewScannerBackend(env, c, name);
            && (r == Created(CLIScanner) <==> t == "cli" && env.executable(s.cliPath))
            && (r == Created(RegistryScanner) <==>
                  && t == "registry" && s.registryScanner.Some? && s.sysdigToken != ""
                  && s.registryScanner.value.apiURL != "" && s.registryScanner.value.projectID != "")
            && (r == Refused(UnsupportedType(t)) <==> t !in {"cli", "registry"})
            && (r.Refused? ==> r.error == UnsupportedType(t) || r.error == InvalidBackend(t))
  {
    assert |CLI| == 3 && |REGISTRY| == 8;
  }

  /** The choice that createScanHandler makes for a request: by the host of the image, not by the
      configured name that overrides go by. */
  function HandlerBackend(env: Environment, c: Config, req: ScanRequest): BackendResult {
    NewScannerBackend(env, c, req.registry)
  }

  // ---- Startup covers run time ----

  lemma {:induction false} OverrideIsConfigured(rs: seq<RegistryConfig>, name: string)
    ensures FirstOverride(rs, name) != "" ==>
              exists i :: 0 <= i < |rs| && rs[i].name == name && rs[i].scannerType == FirstOverride(rs, name)
    ensures (forall i :: 0 <= i < |rs| ==> rs[i].name != name) ==> FirstOverride(rs, name) == ""
  {
    if rs != [] && rs[0].name != name {
      OverrideIsConfigured(rs[1..], name);
      if FirstOverride(rs, name) != "" {
        var i :| 0 <= i < |rs[1..]| && rs[1..][i].name == name
                 && rs[1..][i].scannerType == FirstOverride(rs[1..], name);
        assert rs[i + 1].name == name && rs[i + 1].scannerType == FirstOverride(rs, name);
      }
    }
  }

  /** With no empty registry name, the startup probes succeed if and only if a backend can be created for
      every name whatsoever: the probe of the empty name then stands for the global type. */
  lemma ProbesCoverEveryName(env: Environment, c: Config)
    requires forall i :: 0 <= i < |c.registries| ==> c.registries[i].name != ""
    ensures ProbesSucceed(env, c) <==> forall name :: NewScannerBackend(env, c, name).Created?
  {
    OverrideIsConfigured(c.registries, "");
    if ProbesSucceed(env, c) {
      forall name ensures NewScannerBackend(env, c, name).Created? {
        OverrideIsConfigured(c.registries, name);
        if FirstOverride(c.registries, name) != "" {
          var i :| 0 <= i < |c.registries| && c.registries[i].name == name
                   && c.registries[i].scannerType == FirstOverride(c.registries, name);
          assert NewScannerBackend(env, c, c.registries[i].name).Created?;
        } else {
          assert DetermineScannerType(c, name) == DetermineScannerType(c, "");
        }
      }
    }
  }

  function BackendOf(t: ScannerType): Backend {
    if t == CLI then CLIScanner else RegistryScanner
  }

  /** What the two startup checks promise for every name: creating its backend succeeds, and the backend is
      that of the override configured under the name, or else of the global type. */
  lemma StartupCoversEveryName(env: Environment, c: Config, name: string)
    requires ValidConfig(env, c) && ProbesSucceed(env, c)
    ensures NewScannerBackend(env, c, name) == Created(BackendOf(DetermineScannerType(c, name)))
    ensures DetermineScannerType(c, name) in {CLI, REGISTRY}
    ensures forall i :: 0 <= i < |c.registries| && c.registries[i].name == name && c.registries[i].scannerType != "" ==>
              DetermineScannerType(c, name) == c.registries[i].scannerType
    ensures (forall i :: 0 <= i < |c.registries| && c.registries[i].name == name ==>
               c.registries[i].scannerType == "") ==>
              DetermineScannerType(c, name) == c.scanner.scannerType
  {
    ProbesCoverEveryName(env, c);
    assert NewScannerBackend(env, c, name).Created?;
    OverrideIsConfigured(c.registries, name);
    UniqueOverride(c.registries, name);
  }

  /** What they promise for every request: its backend is created.  It is the one that the request's own
      registry was configured for if and only if host and name lead to the same scanner type. */
  lemma StartupCoversRunTime(env: Environment, c: Config, req: ScanRequest)
    requires ValidConfig(env, c) && ProbesSucceed(env, c)
    ensures HandlerBackend(env, c, req).Created?
    ensures HandlerBackend(env, c, req) == NewScannerBackend(env, c, req.registryName) <==>
            DetermineScannerType(c, req.registry) == DetermineScannerType(c, req.registryName)
  {
    StartupCoversEveryName(env, c, req.registry);
    StartupCoversEveryName(env, c, req.registryName);
    assert |CLI| == 3 && |REGISTRY| == 8;
  }

  /** Parsers put a host such as docker.io where the lookup expects a configured name.  For a host that is no
      configured name the global type is always chosen, so the override of the request's own registry takes
      effect if and only if it says nothing else. */
  lemma OverrideOfRequestTakesEffectIff(env: Environment, c: Config, req: ScanRequest, i: nat)
    requires ValidConfig(env, c) && ProbesSucceed(env, c)
    requires i < |c.registries| && c.registries[i].name == req.registryName
    requires forall j :: 0 <= j < |c.registries| ==> c.registries[j].name != req.registry
    ensures HandlerBackend(env, c, req) == Created(BackendOf(c.scanner.scannerType))
    ensures HandlerBackend(env, c, req) == NewScannerBackend(env, c, req.registryName) <==>
            c.registries[i].scannerType == "" || c.registries[i].scannerType == c.scanner.scannerType
  {
    StartupCoversRunTime(env, c, req);
    StartupCoversEveryName(env, c, req.registry);
    StartupCoversEveryName(env, c, req.registryName);
    UniqueOverride(c.registries, req.registryName);
  }

  /** A configuration that both startup checks accept, and a request whose own override is not applied. */
  lemma OverrideGoesByHost(env: Environment) returns (c: Config, req: ScanRequest)
    requires env.executable("/usr/local/bin/sysdig-cli-scanner") && env.parses("30s") && env.parses("300s")
    ensures ValidConfig(env, c) && ProbesSucceed(env, c)
    ensures req.registryName == "harbor" && req.registry == "harbor.example.com"
    ensures HandlerBackend(env, c, req) == Created(CLIScanner)
    ensures NewScannerBackend(env, c, req.registryName) == Created(RegistryScanner)
  {
    var harbor := RegistryConfig("harbor", "harbor", AuthConfig("none", ""), REGISTRY);
    var settings := RegistryScannerConfig("https://secure.sysdig.com", "project", "");
    c := Config(ServerSettings(8080, "30s", "30s", 1024, "30s"), [harbor],
                ScannerSettings(CLI, "token", "/usr/local/bin/sysdig-cli-scanner", "300s", 5, Some(settings)),
                QueueSettings(100, 3));
    req := ScanRequest("harbor.example.com/a:b", "harbor", "harbor.example.com", "", "", 0);
    assert |CLI| == 3 && |REGISTRY| == 8 && |harbor.name| == 6 && |req.registry| == 18;
    OnlyRegistry(harbor, "");
    OnlyRegistry(harbor, req.registry);
    OnlyRegistry(harbor, req.registryName);
  }

  lemma OnlyRegistry(r: RegistryConfig, name: string)
    ensures FirstOverride([r], name) == if r.name == name then r.scannerType else ""
  {
    assert [r][1..] == [];
  }

  /** Names are unique, so the first registry with a name is the one. */
  lemma {:induction false} UniqueOverride(rs: seq<RegistryConfig>, name: string)
    requires forall i, j :: 0 <= i < j < |rs| ==> rs[i].name != rs[j].name
    ensures forall i :: 0 <= i < |rs| && rs[i].name == name ==> FirstOverride(rs, name) == rs[i].scannerType
  {
    if rs != [] && rs[0].name != name {
      UniqueOverride(rs[1..], name);
      assert forall i :: 1 <= i < |rs| ==> rs[i] == rs[1..][i - 1];
    }
  }

  /** Without the check for empty names the probes can succeed and a request still fail: a registry named ""
      hides an unusable global type. */
  lemma EmptyNameHidesTheGlobalType(env: Environment, c: Config, name: string)
    requires c.registries == [RegistryConfig("", "harbor", AuthConfig("none", ""), CLI)] && name != ""
    requires env.executable(c.scanner.cliPath) && c.scanner.scannerType == REGISTRY && c.scanner.registryScanner.None?
    ensures ProbesSucceed(env, c) && NewScannerBackend(env, c, name).Refused?
  {
    assert |CLI| == 3 && |REGISTRY| == 8;
    assert c.registries[0].name == "" && c.registries[1..] == [];
    assert FirstOverride(c.registries, "") == CLI && FirstOverride(c.registries, name) == "";
  }

  /** Defaults for the registry scanner are filled in only when it is the global type; an override alone
      leaves the address empty, and startup then refuses the configuration. */
  lemma OverrideAloneGetsNoDefaults(env: Environment, c: Config, i: nat)
    requires i < |c.registries| && c.registries[i].scannerType == REGISTRY && c.scanner.scannerType != REGISTRY
    requires c.scanner.registryScanner.Some? && c.scanner.registryScanner.value.apiURL == ""
    requires forall i, j :: 0 <= i < j < |c.registries| ==> c.registries[i].name != c.registries[j].name
    ensures !ProbesSucceed(env, WithDefaults(c))
  {
    var d := WithDefaults(c);
    UniqueOverride(d.registries, d.registries[i].name);
    assert |REGISTRY| == 8;
    assert NewScannerBackend(env, d, d.registries[i].name).Refused?;
  }
}
