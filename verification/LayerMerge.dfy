/** Configuration layers and how they merge into a plan (crates/vigil-types/src/plan). */
module LayerMerge {
  import opened Prelude
  import opened OrderedMaps
  import ServiceActor

  datatype Override = Merge | Replace

  datatype Startup = Disabled | Enabled

  datatype LogsForward = ForwardEnabled | ForwardDisabled | Passthrough

  datatype PushFormat = Ndjson

  datatype ServiceConfig = ServiceConfig(
    overrideMode: Override,
    summary: Option<string>,
    description: Option<string>,
    command: Option<string>,
    startup: Startup,
    after: seq<string>,
    before: seq<string>,
    required: seq<string>,
    environment: OrderedMap<string, string>,
    user: Option<string>,
    userId: Option<nat>,
    group: Option<string>,
    groupId: Option<nat>,
    workingDir: Option<string>,
    stopSignal: Option<int>,
    killDelay: Option<string>,
    onSuccess: Option<ServiceActor.ExitPolicy>,
    onFailure: Option<ServiceActor.ExitPolicy>,
    onCheckFailure: OrderedMap<string, ServiceActor.ExitPolicy>,
    backoffDelay: Option<string>,
    backoffFactor: Option<real>,
    backoffLimit: Option<string>,
    logsForward: Option<LogsForward>,
    logsPushSocket: Option<string>,
    logsPushAddr: Option<string>,
    logsPushFormat: Option<PushFormat>)
  {
    ghost predicate Valid() {
      environment.Valid() && onCheckFailure.Valid()
    }

    /** The part its actor runs by. */
    function ForActor(): ServiceActor.Config {
      ServiceActor.Config(onSuccess, onFailure, backoffDelay, backoffFactor, backoffLimit)
    }
  }

  datatype CheckLevel = Alive | Ready

  /** Probe definitions are carried whole; their fields never merge. */
  datatype HttpCheck = HttpCheck(url: string, headers: OrderedMap<string, string>, noFollowRedirects: bool,
                                 insecure: bool, insecureProxy: bool, ca: Option<string>, successStatuses: seq<nat>)

  datatype TcpCheck = TcpCheck(host: Option<string>, port: nat)

  datatype ExecCheck = ExecCheck(command: string, serviceContext: Option<string>,
                                 environment: OrderedMap<string, string>, user: Option<string>, userId: Option<nat>,
                                 group: Option<string>, groupId: Option<nat>, workingDir: Option<string>)

  datatype CheckConfig = CheckConfig(
    overrideMode: Override,
    level: CheckLevel,
    startup: Startup,
    delay: Option<string>,
    period: Option<string>,
    timeout: Option<string>,
    threshold: Option<nat>,
    http: Option<HttpCheck>,
    tcp: Option<TcpCheck>,
    exec: Option<ExecCheck>)

  datatype AlertFormat = Webhook | Alertmanager | CloudEvents | OtlpLogs

  datatype AlertConfig = AlertConfig(
    overrideMode: Override,
    url: string,
    format: AlertFormat,
    headers: OrderedMap<string, string>,
    labels: OrderedMap<string, string>,
    sendInfoFields: OrderedMap<string, string>,
    onCheck: seq<string>,
    tlsInsecure: bool,
    tlsCa: Option<string>,
    proxy: Option<string>,
    proxyCa: Option<string>,
    noProxy: Option<string>,
    retryAttempts: Option<nat>,
    retryBackoff: seq<string>,
    bodyTemplate: Option<string>)
  {
    ghost predicate Valid() {
      headers.Valid() && labels.Valid() && sendInfoFields.Valid()
    }
  }

  // ---------------------------------------------------------------------
  // Merging one entry over another
  // ---------------------------------------------------------------------

  /** An overlay's optional field wins when it is set. */
  function Or<T>(overlay: Option<T>, base: Option<T>): Option<T> {
    if overlay.Some? then overlay else base
  }

  function MergeService(base: ServiceConfig, overlay: ServiceConfig): ServiceConfig {
    ServiceConfig(
      base.overrideMode,
      Or(overlay.summary, base.summary),
      Or(overlay.description, base.description),
      Or(overlay.command, base.command),
      overlay.startup,
      AddAll(base.after, overlay.after),
      AddAll(base.before, overlay.before),
      AddAll(base.required, overlay.required),
      Extend(base.environment, overlay.environment),
      Or(overlay.user, base.user),
      Or(overlay.userId, base.userId),
      Or(overlay.group, base.group),
      Or(overlay.groupId, base.groupId),
      Or(overlay.workingDir, base.workingDir),
      Or(overlay.stopSignal, base.stopSignal),
      Or(overlay.killDelay, base.killDelay),
      Or(overlay.onSuccess, base.onSuccess),
      Or(overlay.onFailure, base.onFailure),
      Extend(base.onCheckFailure, overlay.onCheckFailure),
      Or(overlay.backoffDelay, base.backoffDelay),
      Or(overlay.backoffFactor, base.backoffFactor),
      Or(overlay.backoffLimit, base.backoffLimit),
      Or(overlay.logsForward, base.logsForward),
      Or(overlay.logsPushSocket, base.logsPushSocket),
      Or(overlay.logsPushAddr, base.logsPushAddr),
      Or(overlay.logsPushFormat, base.logsPushFormat))
  }

  function MergeCheck(base: CheckConfig, overlay: CheckConfig): CheckConfig {
    CheckConfig(
      base.overrideMode,
      overlay.level,
      overlay.startup,
      Or(overlay.delay, base.delay),
      Or(overlay.period, base.period),
      Or(overlay.timeout, base.timeout),
      Or(overlay.threshold, base.threshold),
      Or(overlay.http, base.http),
      Or(overlay.tcp, base.tcp),
      Or(overlay.exec, base.exec))
  }

  function MergeAlert(base: AlertConfig, overlay: AlertConfig): AlertConfig {
    AlertConfig(
      base.overrideMode,
      if overlay.url != "" then overlay.url else base.url,
      overlay.format,
      Extend(base.headers, overlay.headers),
      Extend(base.labels, overlay.labels),
      Extend(base.sendInfoFields, overlay.sendInfoFields),
      AddAll(base.onCheck, overlay.onCheck),
      overlay.tlsInsecure,
      Or(overlay.tlsCa, base.tlsCa),
      Or(overlay.proxy, base.proxy),
      Or(overlay.proxyCa, base.proxyCa),
      Or(overlay.noProxy, base.noProxy),
      Or(overlay.retryAttempts, base.retryAttempts),
      if overlay.retryBackoff != [] then overlay.retryBackoff else base.retryBackoff,
      Or(overlay.bodyTemplate, base.bodyTemplate))
  }

  method PushMissing(base: seq<string>, extra: seq<string>) returns (r: seq<string>)
    ensures r == AddAll(base, extra)
  {
    r := base;
    for i := 0 to |extra|
      invariant r == AddAll(base, extra[..i])
    {
      assert extra[..i + 1] == extra[..i] + [extra[i]];
      AddAllStep(base, extra[..i], extra[i]);
      if extra[i] !in r {
        r := r + [extra[i]];
      }
    }
    assert extra[..|extra|] == extra;
  }

  /** Overwrites the fields of `base` one after the other. */
  method MergeServiceInto(base: ServiceConfig, overlay: ServiceConfig) returns (merged: ServiceConfig)
    requires overlay.Valid()
    ensures merged == MergeService(base, overlay)
  {
    hide AddAll, Extend;
    merged := base;
    merged := merged.(summary := Or(overlay.summary, merged.summary));
    merged := merged.(description := Or(overlay.description, merged.description));
    merged := merged.(command := Or(overlay.command, merged.command));
    merged := merged.(startup := overlay.startup);
    var after := PushMissing(base.after, overlay.after);
    var before := PushMissing(base.before, overlay.before);
    var required := PushMissing(base.required, overlay.required);
    var environment := ExtendInPlace(base.environment, overlay.environment);
    merged := merged.(after := after, before := before, required := required, environment := environment);
    merged := merged.(user := Or(overlay.user, merged.user));
    merged := merged.(userId := Or(overlay.userId, merged.userId));
    merged := merged.(group := Or(overlay.group, merged.group));
    merged := merged.(groupId := Or(overlay.groupId, merged.groupId));
    merged := merged.(workingDir := Or(overlay.workingDir, merged.workingDir));
    merged := merged.(stopSignal := Or(overlay.stopSignal, merged.stopSignal));
    merged := merged.(killDelay := Or(overlay.killDelay, merged.killDelay));
    merged := merged.(onSuccess := Or(overlay.onSuccess, merged.onSuccess));
    merged := merged.(onFailure := Or(overlay.onFailure, merged.onFailure));
    var onCheckFailure := ExtendInPlace(base.onCheckFailure, overlay.onCheckFailure);
    merged := merged.(onCheckFailure := onCheckFailure);
    merged := merged.(backoffDelay := Or(overlay.backoffDelay, merged.backoffDelay));
    merged := merged.(backoffFactor := Or(overlay.backoffFactor, merged.backoffFactor));
    merged := merged.(backoffLimit := Or(overlay.backoffLimit, merged.backoffLimit));
    merged := merged.(logsForward := Or(overlay.logsForward, merged.logsForward));
    merged := merged.(logsPushSocket := Or(overlay.logsPushSocket, merged.logsPushSocket));
    merged := merged.(logsPushAddr := Or(overlay.logsPushAddr, merged.logsPushAddr));
    merged := merged.(logsPushFormat := Or(overlay.logsPushFormat, merged.logsPushFormat));
  }

  method MergeCheckInto(base: CheckConfig, overlay: CheckConfig) returns (merged: CheckConfig)
    ensures merged == MergeCheck(base, overlay)
  {
    merged := base.(level := overlay.level, startup := overlay.startup);
    merged := merged.(delay := Or(overlay.delay, merged.delay));
    merged := merged.(period := Or(overlay.period, merged.period));
    merged := merged.(timeout := Or(overlay.timeout, merged.timeout));
    merged := merged.(threshold := Or(overlay.threshold, merged.threshold));
    merged := merged.(http := Or(overlay.http, merged.http));
    merged := merged.(tcp := Or(overlay.tcp, merged.tcp));
    merged := merged.(exec := Or(overlay.exec, merged.exec));
  }

  method MergeAlertInto(base: AlertConfig, overlay: AlertConfig) returns (merged: AlertConfig)
    requires overlay.Valid()
    ensures merged == MergeAlert(base, overlay)
  {
    hide AddAll, Extend;
    merged := base;
    if overlay.url != "" { merged := merged.(url := overlay.url); }
    merged := merged.(format := overlay.format, tlsInsecure := overlay.tlsInsecure);
    merged := merged.(tlsCa := Or(overlay.tlsCa, merged.tlsCa));
    merged := merged.(proxy := Or(overlay.proxy, merged.proxy));
    merged := merged.(proxyCa := Or(overlay.proxyCa, merged.proxyCa));
    merged := merged.(noProxy := Or(overlay.noProxy, merged.noProxy));
    merged := merged.(retryAttempts := Or(overlay.retryAttempts, merged.retryAttempts));
    merged := merged.(bodyTemplate := Or(overlay.bodyTemplate, merged.bodyTemplate));
    if overlay.retryBackoff != [] { merged := merged.(retryBackoff := overlay.retryBackoff); }
    var headers := ExtendInPlace(base.headers, overlay.headers);
    var labels := ExtendInPlace(base.labels, overlay.labels);
    var info := ExtendInPlace(base.sendInfoFields, overlay.sendInfoFields);
    var onCheck := PushMissing(base.onCheck, overlay.onCheck);
    merged := merged.(headers := headers, labels := labels, sendInfoFields := info, onCheck := onCheck);
  }
}
