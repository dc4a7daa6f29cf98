/**
  Where a resolved entry comes from: an account of the plan, entry by entry and field by field, that does not
  mention the order in which the program merges.
  */
module LayerProvenance {
  import opened Prelude
  import opened OrderedMaps
  import opened LayerMerge
  import opened LayerCollapse
  import ServiceActor

  /** The entries that make up `name`: those of the layers that mention it, from the last Replace on. */
  function Contributions<V>(layers: seq<Layer>, name: string, part: Layer -> OrderedMap<string, V>,
                            cuts: V -> bool): seq<V>
  {
    if layers == [] then []
    else
      var front := Contributions(layers[..|layers| - 1], name, part, cuts);
      var last := part(layers[|layers| - 1]);
      if name !in last.vals then front
      else if cuts(last.vals[name]) then [last.vals[name]]
      else front + [last.vals[name]]
  }

  function MergeAll<V>(entries: seq<V>, merge: (V, V) -> V): V
    requires entries != []
  {
    if |entries| == 1 then entries[0]
    else merge(MergeAll(entries[..|entries| - 1], merge), entries[|entries| - 1])
  }

  /** One part of a plan, resolved by itself. */
  function ResolvePart<V>(layers: seq<Layer>, part: Layer -> OrderedMap<string, V>,
                          cuts: V -> bool, merge: (V, V) -> V): OrderedMap<string, V>
  {
    if layers == [] then EmptyMap()
    else Overlay(ResolvePart(layers[..|layers| - 1], part, cuts, merge), part(layers[|layers| - 1]), cuts, merge)
  }

  function Services(l: Layer): OrderedMap<string, ServiceConfig> { l.content.services }

  function Checks(l: Layer): OrderedMap<string, CheckConfig> { l.content.checks }

  function Alerts(l: Layer): OrderedMap<string, AlertConfig> { l.content.alerts }

  lemma {:induction false} ResolveParts(layers: seq<Layer>)
    ensures Resolve(layers).services == ResolvePart(layers, Services, ServiceReplaces, MergeService)
    ensures Resolve(layers).checks == ResolvePart(layers, Checks, CheckReplaces, MergeCheck)
    ensures Resolve(layers).alerts == ResolvePart(layers, Alerts, AlertReplaces, MergeAlert)
    decreases |layers|
  {
    hide Overlay;
    if layers != [] {
      ResolveParts(layers[..|layers| - 1]);
    }
  }

  /** A name is in the plan exactly when some layer contributes to it, and its entry merges the contributions. */
  lemma {:induction false} EntryMergesContributions<V>(layers: seq<Layer>, name: string,
                                                       part: Layer -> OrderedMap<string, V>,
                                                       cuts: V -> bool, merge: (V, V) -> V)
    ensures var resolved := ResolvePart(layers, part, cuts, merge);
            var entries := Contributions(layers, name, part, cuts);
            && (name in resolved.vals <==> entries != [])
            && (entries != [] ==> resolved.vals[name] == MergeAll(entries, merge))
    decreases |layers|
  {
    hide AddAll;
    if layers != [] {
      var front, last := layers[..|layers| - 1], part(layers[|layers| - 1]);
      EntryMergesContributions(front, name, part, cuts, merge);
      var earlier := Contributions(front, name, part, cuts);
      if name in last.vals && !cuts(last.vals[name]) {
        MergeAllStep(earlier, last.vals[name], merge);
      }
    }
  }

  /** Every entry for `name`, layer by layer. */
  function Entries<V>(layers: seq<Layer>, name: string, part: Layer -> OrderedMap<string, V>): seq<V> {
    if layers == [] then []
    else
      Entries(layers[..|layers| - 1], name, part)
      + if name in part(layers[|layers| - 1]).vals then [part(layers[|layers| - 1]).vals[name]] else []
  }

  /** `k` is the place of the last entry in Replace mode, or 0 if there is none. */
  ghost predicate LastReplace<V(!new)>(entries: seq<V>, mode: V -> Override, k: nat) {
    && k <= |entries|
    && (k > 0 ==> k < |entries| && mode(entries[k]) == Replace)
    && forall i :: k < i < |entries| ==> mode(entries[i]) == Merge
  }

  lemma {:induction false} ContributionsStartAtReplace<V(!new)>(layers: seq<Layer>, name: string,
                                                                part: Layer -> OrderedMap<string, V>,
                                                                cuts: V -> bool, mode: V -> Override)
    returns (k: nat)
    requires forall e :: cuts(e) <==> mode(e) == Replace
    ensures LastReplace(Entries(layers, name, part), mode, k)
    ensures Contributions(layers, name, part, cuts) == Entries(layers, name, part)[k..]
    decreases |layers|
  {
    if layers == [] {
      return 0;
    }
    var front, last := layers[..|layers| - 1], part(layers[|layers| - 1]);
    k := ContributionsStartAtReplace(front, name, part, cuts, mode);
    if name in last.vals && mode(last.vals[name]) == Replace {
      k := |Entries(front, name, part)|;
    }
  }

  /** For every kind of entry, what a plan merges is all that is said from the last Replace on, and nothing before. */
  lemma PlanStartsAtReplace(layers: seq<Layer>, name: string) returns (s: nat, c: nat, a: nat)
    ensures LastReplace(Entries(layers, name, Services), (e: ServiceConfig) => e.overrideMode, s)
    ensures Contributions(layers, name, Services, ServiceReplaces) == Entries(layers, name, Services)[s..]
    ensures LastReplace(Entries(layers, name, Checks), (e: CheckConfig) => e.overrideMode, c)
    ensures Contributions(layers, name, Checks, CheckReplaces) == Entries(layers, name, Checks)[c..]
    ensures LastReplace(Entries(layers, name, Alerts), (e: AlertConfig) => e.overrideMode, a)
    ensures Contributions(layers, name, Alerts, AlertReplaces) == Entries(layers, name, Alerts)[a..]
  {
    hide Contributions, Entries, LastReplace;
    s := ContributionsStartAtReplace(layers, name, Services, ServiceReplaces, (e: ServiceConfig) => e.overrideMode);
    c := ContributionsStartAtReplace(layers, name, Checks, CheckReplaces, (e: CheckConfig) => e.overrideMode);
    a := ContributionsStartAtReplace(layers, name, Alerts, AlertReplaces, (e: AlertConfig) => e.overrideMode);
  }

  lemma MergeAllStep<V>(entries: seq<V>, entry: V, merge: (V, V) -> V)
    ensures MergeAll(entries + [entry], merge)
            == if entries == [] then entry else merge(MergeAll(entries, merge), entry)
  {
    assert (entries + [entry])[..|entries + [entry]| - 1] == entries;
  }

  /** Names stand in the order of their first mention, whatever the override modes. */
  lemma {:induction false} NamesInFirstMentionOrder<V>(layers: seq<Layer>, part: Layer -> OrderedMap<string, V>,
                                                       cuts: V -> bool, merge: (V, V) -> V)
    ensures ResolvePart(layers, part, cuts, merge).keys == AddAll([], Mentions(layers, part))
    decreases |layers|
  {
    hide Overlay;
    if layers != [] {
      var front, last := layers[..|layers| - 1], layers[|layers| - 1];
      NamesInFirstMentionOrder(front, part, cuts, merge);
      OverlayKeys(ResolvePart(front, part, cuts, merge), part(last), cuts, merge);
      AddAllConcat([], Mentions(front, part), part(last).keys);
    }
  }

  function Mentions<V>(layers: seq<Layer>, part: Layer -> OrderedMap<string, V>): seq<string> {
    if layers == [] then []
    else Mentions(layers[..|layers| - 1], part) + part(layers[|layers| - 1]).keys
  }

  lemma OverlayKeys<V>(m: OrderedMap<string, V>, layer: OrderedMap<string, V>, cuts: V -> bool, merge: (V, V) -> V)
    ensures Overlay(m, layer, cuts, merge).keys == AddAll(m.keys, layer.keys)
  {
    hide AddAll;
  }

  lemma {:induction false} AddAllConcat<T(!new)>(base: seq<T>, xs: seq<T>, ys: seq<T>)
    ensures AddAll(AddAll(base, xs), ys) == AddAll(base, xs + ys)
    decreases |ys|
  {
    hide AddAll;
    if ys == [] {
      AddAllNothing(AddAll(base, xs));
      assert xs + ys == xs;
    } else {
      var front, last := ys[..|ys| - 1], ys[|ys| - 1];
      AddAllConcat(base, xs, front);
      AddAllStep(base, xs + front, last);
      AddAllStep(AddAll(base, xs), front, last);
      assert ys == front + [last] && xs + ys == (xs + front) + [last];
    }
  }

  // ---------------------------------------------------------------------
  // Field by field
  // ---------------------------------------------------------------------

  /** The last entry that sets an optional field decides it. */
  function LastSet<V, T>(entries: seq<V>, field: V -> Option<T>): Option<T> {
    if entries == [] then None
    else if field(entries[|entries| - 1]).Some? then field(entries[|entries| - 1])
    else LastSet(entries[..|entries| - 1], field)
  }

  /** `merge` treats `field` as an optional field where the overlay wins. */
  ghost predicate OverlayWins<V(!new), T(!new)>(merge: (V, V) -> V, field: V -> Option<T>) {
    forall x, y :: field(merge(x, y)) == Or(field(y), field(x))
  }

  lemma {:induction false} LastSetDecides<V(!new), T(!new)>(entries: seq<V>, merge: (V, V) -> V, field: V -> Option<T>)
    requires entries != [] && OverlayWins(merge, field)
    ensures field(MergeAll(entries, merge)) == LastSet(entries, field)
    decreases |entries|
  {
    if |entries| > 1 {
      LastSetDecides(entries[..|entries| - 1], merge, field);
    } else {
      assert LastSet(entries[..0], field) == None;
    }
  }

  /** A field the overlay always overwrites is the last entry's. */
  lemma {:induction false} LastEntryDecides(entries: seq<ServiceConfig>)
    requires entries != []
    ensures MergeAll(entries, MergeService).startup == entries[|entries| - 1].startup
    ensures MergeAll(entries, MergeService).overrideMode == entries[0].overrideMode
    decreases |entries|
  {
    hide AddAll, Extend;
    if |entries| > 1 {
      LastEntryDecides(entries[..|entries| - 1]);
    }
  }

  lemma {:induction false} ListsAreUnions(entries: seq<ServiceConfig>, name: string)
    requires entries != []
    ensures var merged := MergeAll(entries, MergeService);
            && (name in merged.after <==> exists e :: e in entries && name in e.after)
            && (name in merged.before <==> exists e :: e in entries && name in e.before)
            && (name in merged.required <==> exists e :: e in entries && name in e.required)
    ensures entries[0].after <= MergeAll(entries, MergeService).after
    decreases |entries|
  {
    hide AddAll, Extend;
    if |entries| > 1 {
      var front, last := entries[..|entries| - 1], entries[|entries| - 1];
      ListsAreUnions(front, name);
      assert entries == front + [last];
      assert forall e :: e in entries <==> e in front || e == last;
    }
  }

  /** `merge` unites two lists, the base's first. */
  ghost predicate Unites<V(!new)>(merge: (V, V) -> V, list: V -> seq<string>) {
    forall x, y :: list(merge(x, y)) == AddAll(list(x), list(y))
  }

  function Listed<V>(entries: seq<V>, list: V -> seq<string>): seq<string> {
    if entries == [] then [] else Listed(entries[..|entries| - 1], list) + list(entries[|entries| - 1])
  }

  /** The first entry's list, then what the others add, in the order they name it. */
  function UnionOf<V>(entries: seq<V>, list: V -> seq<string>): seq<string> {
    if entries == [] then [] else AddAll(list(entries[0]), Listed(entries[1..], list))
  }

  lemma {:induction false} ListsUnite<V(!new)>(entries: seq<V>, merge: (V, V) -> V, list: V -> seq<string>)
    requires entries != [] && Unites(merge, list)
    ensures list(MergeAll(entries, merge)) == UnionOf(entries, list)
    decreases |entries|
  {
    hide AddAll;
    if |entries| == 1 {
      AddAllNothing(list(entries[0]));
      assert Listed(entries[1..], list) == [];
      assert entries == [] + [entries[0]];
      MergeAllStep([], entries[0], merge);
    } else {
      var front, last := entries[..|entries| - 1], entries[|entries| - 1];
      ListsUnite(front, merge, list);
      assert entries == front + [last];
      MergeAllStep(front, last, merge);
      assert entries[1..] == front[1..] + [last];
      assert entries[1..][..|entries[1..]| - 1] == front[1..];
      AddAllConcat(list(entries[0]), Listed(front[1..], list), list(last));
    }
  }

  function EnvironmentAt(c: ServiceConfig, key: string): Option<string> { Lookup(c.environment, key) }

  function CheckPolicyAt(c: ServiceConfig, check: string): Option<ServiceActor.ExitPolicy> {
    Lookup(c.onCheckFailure, check)
  }

  /** The optional text fields of a service. */
  datatype TextField =
    | Summary | Description | Command | User | Group | WorkingDir | KillDelay | BackoffDelay | BackoffLimit
    | LogsPushSocket | LogsPushAddr

  function Text(c: ServiceConfig, f: TextField): Option<string> {
    match f
    case Summary => c.summary
    case Description => c.description
    case Command => c.command
    case User => c.user
    case Group => c.group
    case WorkingDir => c.workingDir
    case KillDelay => c.killDelay
    case BackoffDelay => c.backoffDelay
    case BackoffLimit => c.backoffLimit
    case LogsPushSocket => c.logsPushSocket
    case LogsPushAddr => c.logsPushAddr
  }

  lemma OverlayWinsEverywhere(f: TextField, key: string)
    ensures OverlayWins(MergeService, (c: ServiceConfig) => Text(c, f))
    ensures OverlayWins(MergeService, (c: ServiceConfig) => EnvironmentAt(c, key))
    ensures OverlayWins(MergeService, (c: ServiceConfig) => CheckPolicyAt(c, key))
    ensures OverlayWins(MergeService, (c: ServiceConfig) => c.userId)
    ensures OverlayWins(MergeService, (c: ServiceConfig) => c.groupId)
    ensures OverlayWins(MergeService, (c: ServiceConfig) => c.stopSignal)
    ensures OverlayWins(MergeService, (c: ServiceConfig) => c.onSuccess)
    ensures OverlayWins(MergeService, (c: ServiceConfig) => c.onFailure)
    ensures OverlayWins(MergeService, (c: ServiceConfig) => c.backoffFactor)
    ensures OverlayWins(MergeService, (c: ServiceConfig) => c.logsForward)
    ensures OverlayWins(MergeService, (c: ServiceConfig) => c.logsPushFormat)
    ensures Unites(MergeService, (c: ServiceConfig) => c.after)
    ensures Unites(MergeService, (c: ServiceConfig) => c.before)
    ensures Unites(MergeService, (c: ServiceConfig) => c.required)
  {
    hide AddAll;
  }

  /**
    The service a plan ends up with: every optional field is the last one set since the last Replace, every
    environment variable and check policy the last one given, the ordering lists are united in order, and the startup
    mode is the last layer's.
    */
  lemma ServiceOfPlan(layers: seq<Layer>, name: string, f: TextField, key: string)
    ensures var entries := Contributions(layers, name, Services, ServiceReplaces);
            var services := Resolve(layers).services;
            && (name in services.vals <==> entries != [])
            && (entries != [] ==>
                  var s := services.vals[name];
                  && Text(s, f) == LastSet(entries, (c: ServiceConfig) => Text(c, f))
                  && EnvironmentAt(s, key) == LastSet(entries, (c: ServiceConfig) => EnvironmentAt(c, key))
                  && CheckPolicyAt(s, key) == LastSet(entries, (c: ServiceConfig) => CheckPolicyAt(c, key))
                  && s.userId == LastSet(entries, (c: ServiceConfig) => c.userId)
                  && s.groupId == LastSet(entries, (c: ServiceConfig) => c.groupId)
                  && s.stopSignal == LastSet(entries, (c: ServiceConfig) => c.stopSignal)
                  && s.onSuccess == LastSet(entries, (c: ServiceConfig) => c.onSuccess)
                  && s.onFailure == LastSet(entries, (c: ServiceConfig) => c.onFailure)
                  && s.backoffFactor == LastSet(entries, (c: ServiceConfig) => c.backoffFactor)
                  && s.logsForward == LastSet(entries, (c: ServiceConfig) => c.logsForward)
                  && s.logsPushFormat == LastSet(entries, (c: ServiceConfig) => c.logsPushFormat)
                  && s.after == UnionOf(entries, (c: ServiceConfig) => c.after)
                  && s.before == UnionOf(entries, (c: ServiceConfig) => c.before)
                  && s.required == UnionOf(entries, (c: ServiceConfig) => c.required)
                  && s.startup == entries[|entries| - 1].startup && s.overrideMode == entries[0].overrideMode)
  {
    hide Contributions, MergeAll, LastSet, OverlayWins, Unites, UnionOf, MergeService, Resolve, ResolvePart, Overlay,
         Text, EnvironmentAt, CheckPolicyAt;
    var entries := Contributions(layers, name, Services, ServiceReplaces);
    ResolveParts(layers);
    EntryMergesContributions(layers, name, Services, ServiceReplaces, MergeService);
    if entries != [] {
      OverlayWinsEverywhere(f, key);
      LastEntryDecides(entries);
      LastSetDecides(entries, MergeService, (c: ServiceConfig) => Text(c, f));
      LastSetDecides(entries, MergeService, (c: ServiceConfig) => EnvironmentAt(c, key));
      LastSetDecides(entries, MergeService, (c: ServiceConfig) => CheckPolicyAt(c, key));
      LastSetDecides(entries, MergeService, (c: ServiceConfig) => c.userId);
      LastSetDecides(entries, MergeService, (c: ServiceConfig) => c.groupId);
      LastSetDecides(entries, MergeService, (c: ServiceConfig) => c.stopSignal);
      LastSetDecides(entries, MergeService, (c: ServiceConfig) => c.onSuccess);
      LastSetDecides(entries, MergeService, (c: ServiceConfig) => c.onFailure);
      LastSetDecides(entries, MergeService, (c: ServiceConfig) => c.backoffFactor);
      LastSetDecides(entries, MergeService, (c: ServiceConfig) => c.logsForward);
      LastSetDecides(entries, MergeService, (c: ServiceConfig) => c.logsPushFormat);
      ListsUnite(entries, MergeService, (c: ServiceConfig) => c.after);
      ListsUnite(entries, MergeService, (c: ServiceConfig) => c.before);
      ListsUnite(entries, MergeService, (c: ServiceConfig) => c.required);
    }
  }

  // ---------------------------------------------------------------------
  // Checks and alerts
  // ---------------------------------------------------------------------

  ghost predicate OverlayOverwrites<V(!new), T(!new)>(merge: (V, V) -> V, field: V -> T) {
    forall x, y :: field(merge(x, y)) == field(y)
  }

  lemma {:induction false} LastEntryOverwrites<V(!new), T(!new)>(entries: seq<V>, merge: (V, V) -> V, field: V -> T)
    requires entries != [] && OverlayOverwrites(merge, field)
    ensures field(MergeAll(entries, merge)) == field(entries[|entries| - 1])
  {
    if |entries| > 1 {
      assert MergeAll(entries, merge)
             == merge(MergeAll(entries[..|entries| - 1], merge), entries[|entries| - 1]);
    }
  }

  lemma CheckFields()
    ensures OverlayOverwrites(MergeCheck, (c: CheckConfig) => c.level)
    ensures OverlayOverwrites(MergeCheck, (c: CheckConfig) => c.startup)
    ensures OverlayWins(MergeCheck, (c: CheckConfig) => c.delay)
    ensures OverlayWins(MergeCheck, (c: CheckConfig) => c.period)
    ensures OverlayWins(MergeCheck, (c: CheckConfig) => c.timeout)
    ensures OverlayWins(MergeCheck, (c: CheckConfig) => c.threshold)
    ensures OverlayWins(MergeCheck, (c: CheckConfig) => c.http)
    ensures OverlayWins(MergeCheck, (c: CheckConfig) => c.tcp)
    ensures OverlayWins(MergeCheck, (c: CheckConfig) => c.exec)
  {
  }

  /** The check a plan ends up with: level and startup from the last layer, everything else as last set. */
  lemma CheckOfPlan(layers: seq<Layer>, name: string)
    ensures var entries := Contributions(layers, name, Checks, CheckReplaces);
            var checks := Resolve(layers).checks;
            && (name in checks.vals <==> entries != [])
            && (entries != [] ==>
                  var c := checks.vals[name];
                  && c.level == entries[|entries| - 1].level
                  && c.startup == entries[|entries| - 1].startup
                  && c.delay == LastSet(entries, (c: CheckConfig) => c.delay)
                  && c.period == LastSet(entries, (c: CheckConfig) => c.period)
                  && c.timeout == LastSet(entries, (c: CheckConfig) => c.timeout)
                  && c.threshold == LastSet(entries, (c: CheckConfig) => c.threshold)
                  && c.http == LastSet(entries, (c: CheckConfig) => c.http)
                  && c.tcp == LastSet(entries, (c: CheckConfig) => c.tcp)
                  && c.exec == LastSet(entries, (c: CheckConfig) => c.exec))
  {
    hide Contributions, MergeAll, LastSet, OverlayWins, OverlayOverwrites, MergeCheck, Resolve, ResolvePart, Overlay;
    var entries := Contributions(layers, name, Checks, CheckReplaces);
    ResolveParts(layers);
    EntryMergesContributions(layers, name, Checks, CheckReplaces, MergeCheck);
    if entries != [] {
      CheckFields();
      LastEntryOverwrites(entries, MergeCheck, (c: CheckConfig) => c.level);
      LastEntryOverwrites(entries, MergeCheck, (c: CheckConfig) => c.startup);
      LastSetDecides(entries, MergeCheck, (c: CheckConfig) => c.delay);
      LastSetDecides(entries, MergeCheck, (c: CheckConfig) => c.period);
      LastSetDecides(entries, MergeCheck, (c: CheckConfig) => c.timeout);
      LastSetDecides(entries, MergeCheck, (c: CheckConfig) => c.threshold);
      LastSetDecides(entries, MergeCheck, (c: CheckConfig) => c.http);
      LastSetDecides(entries, MergeCheck, (c: CheckConfig) => c.tcp);
      LastSetDecides(entries, MergeCheck, (c: CheckConfig) => c.exec);
    }
  }

  /** An alert's URL and retry list count as set when they are not empty. */
  function UrlOf(c: AlertConfig): Option<string> { if c.url == "" then None else Some(c.url) }

  function RetryOf(c: AlertConfig): Option<seq<string>> { if c.retryBackoff == [] then None else Some(c.retryBackoff) }

  lemma AlertFields(key: string)
    ensures OverlayOverwrites(MergeAlert, (c: AlertConfig) => c.format)
    ensures OverlayOverwrites(MergeAlert, (c: AlertConfig) => c.tlsInsecure)
    ensures OverlayWins(MergeAlert, UrlOf)
    ensures OverlayWins(MergeAlert, RetryOf)
    ensures OverlayWins(MergeAlert, (c: AlertConfig) => Lookup(c.headers, key))
    ensures OverlayWins(MergeAlert, (c: AlertConfig) => Lookup(c.labels, key))
    ensures OverlayWins(MergeAlert, (c: AlertConfig) => Lookup(c.sendInfoFields, key))
    ensures OverlayWins(MergeAlert, (c: AlertConfig) => c.tlsCa)
    ensures OverlayWins(MergeAlert, (c: AlertConfig) => c.proxy)
    ensures OverlayWins(MergeAlert, (c: AlertConfig) => c.proxyCa)
    ensures OverlayWins(MergeAlert, (c: AlertConfig) => c.noProxy)
    ensures OverlayWins(MergeAlert, (c: AlertConfig) => c.retryAttempts)
    ensures OverlayWins(MergeAlert, (c: AlertConfig) => c.bodyTemplate)
    ensures Unites(MergeAlert, (c: AlertConfig) => c.onCheck)
  {
    hide AddAll;
  }

  /** The alert a plan ends up with, field by field. */
  lemma AlertOfPlan(layers: seq<Layer>, name: string, key: string)
    ensures var entries := Contributions(layers, name, Alerts, AlertReplaces);
            var alerts := Resolve(layers).alerts;
            && (name in alerts.vals <==> entries != [])
            && (entries != [] ==>
                  var a := alerts.vals[name];
                  && UrlOf(a) == LastSet(entries, UrlOf)
                  && RetryOf(a) == LastSet(entries, RetryOf)
                  && a.format == entries[|entries| - 1].format
                  && a.tlsInsecure == entries[|entries| - 1].tlsInsecure
                  && Lookup(a.headers, key) == LastSet(entries, (c: AlertConfig) => Lookup(c.headers, key))
                  && Lookup(a.labels, key) == LastSet(entries, (c: AlertConfig) => Lookup(c.labels, key))
                  && Lookup(a.sendInfoFields, key)
                     == LastSet(entries, (c: AlertConfig) => Lookup(c.sendInfoFields, key))
                  && a.tlsCa == LastSet(entries, (c: AlertConfig) => c.tlsCa)
                  && a.proxy == LastSet(entries, (c: AlertConfig) => c.proxy)
                  && a.proxyCa == LastSet(entries, (c: AlertConfig) => c.proxyCa)
                  && a.noProxy == LastSet(entries, (c: AlertConfig) => c.noProxy)
                  && a.retryAttempts == LastSet(entries, (c: AlertConfig) => c.retryAttempts)
                  && a.bodyTemplate == LastSet(entries, (c: AlertConfig) => c.bodyTemplate)
                  && a.onCheck == UnionOf(entries, (c: AlertConfig) => c.onCheck))
  {
    hide Contributions, MergeAll, LastSet, OverlayWins, OverlayOverwrites, Unites, UnionOf, MergeAlert, Resolve,
         ResolvePart, Overlay, UrlOf, RetryOf, Lookup;
    var entries := Contributions(layers, name, Alerts, AlertReplaces);
    ResolveParts(layers);
    EntryMergesContributions(layers, name, Alerts, AlertReplaces, MergeAlert);
    if entries != [] {
      AlertFields(key);
      LastEntryOverwrites(entries, MergeAlert, (c: AlertConfig) => c.format);
      LastEntryOverwrites(entries, MergeAlert, (c: AlertConfig) => c.tlsInsecure);
      LastSetDecides(entries, MergeAlert, UrlOf);
      LastSetDecides(entries, MergeAlert, RetryOf);
      LastSetDecides(entries, MergeAlert, (c: AlertConfig) => Lookup(c.headers, key));
      LastSetDecides(entries, MergeAlert, (c: AlertConfig) => Lookup(c.labels, key));
      LastSetDecides(entries, MergeAlert, (c: AlertConfig) => Lookup(c.sendInfoFields, key));
      LastSetDecides(entries, MergeAlert, (c: AlertConfig) => c.tlsCa);
      LastSetDecides(entries, MergeAlert, (c: AlertConfig) => c.proxy);
      LastSetDecides(entries, MergeAlert, (c: AlertConfig) => c.proxyCa);
      LastSetDecides(entries, MergeAlert, (c: AlertConfig) => c.noProxy);
      LastSetDecides(entries, MergeAlert, (c: AlertConfig) => c.retryAttempts);
      LastSetDecides(entries, MergeAlert, (c: AlertConfig) => c.bodyTemplate);
      ListsUnite(entries, MergeAlert, (c: AlertConfig) => c.onCheck);
    }
  }

  // ---------------------------------------------------------------------
  // Queue settings
  // ---------------------------------------------------------------------

  /** The limits of the alert queue are those of the last layer that sets them. */
  lemma {:induction false} QueueSettingsOfPlan(layers: seq<Layer>)
    ensures Resolve(layers).queueDepth == LastSet(layers, (l: Layer) => l.content.queueDepth)
    ensures Resolve(layers).queueTime == LastSet(layers, (l: Layer) => l.content.queueTime)
    decreases |layers|
  {
    hide Overlay;
    if layers != [] {
      QueueSettingsOfPlan(layers[..|layers| - 1]);
    }
  }
}
