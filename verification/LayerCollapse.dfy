/** Folding layers into a plan, and the laws the fold obeys (crates/vigil-types/src/plan/layer.rs). */
module LayerCollapse {
  import opened Prelude
  import opened OrderedMaps
  import opened LayerMerge

  // ---------------------------------------------------------------------
  // One map of entries over another
  // ---------------------------------------------------------------------

  /** What an entry becomes when a layer mentions it. */
  function Combine<V>(base: Option<V>, entry: V, cuts: V -> bool, merge: (V, V) -> V): V {
    if base.None? || cuts(entry) then entry else merge(base.value, entry)
  }

  function Lookup<K(!new), V>(m: OrderedMap<K, V>, k: K): Option<V> {
    if k in m.vals then Some(m.vals[k]) else None
  }

  /** The entry for `k` once `layer` has been applied to `m`. */
  function At<V>(m: OrderedMap<string, V>, layer: OrderedMap<string, V>, k: string,
                 cuts: V -> bool, merge: (V, V) -> V): V
    requires k in m.vals || k in layer.vals
  {
    if k in layer.vals then Combine(Lookup(m, k), layer.vals[k], cuts, merge) else m.vals[k]
  }

  /** All entries of `layer` applied to `m` at once. */
  function Overlay<V>(m: OrderedMap<string, V>, layer: OrderedMap<string, V>,
                      cuts: V -> bool, merge: (V, V) -> V): OrderedMap<string, V>
  {
    OrderedMap(
      AddAll(m.keys, layer.keys),
      map k | k in m.vals.Keys + layer.vals.Keys :: At(m, layer, k, cuts, merge))
  }

  lemma OverlayValid<V>(m: OrderedMap<string, V>, layer: OrderedMap<string, V>,
                        cuts: V -> bool, merge: (V, V) -> V)
    requires m.Valid() && layer.Valid()
    ensures Overlay(m, layer, cuts, merge).Valid()
  {
    AddAllDistinct(m.keys, layer.keys);
  }

  /** Applying one entry is an insertion. */
  lemma OverlayStep<V>(m: OrderedMap<string, V>, layer: OrderedMap<string, V>, n: nat,
                       cuts: V -> bool, merge: (V, V) -> V)
    requires layer.Valid() && n < |layer.keys|
    ensures var k := layer.keys[n];
            var before := Overlay(m, Front(layer, n), cuts, merge);
            && Lookup(before, k) == Lookup(m, k)
            && before.Insert(k, Combine(Lookup(before, k), layer.vals[k], cuts, merge))
               == Overlay(m, Front(layer, n + 1), cuts, merge)
  {
    hide AddAll, Front, Combine;
    FrontStep(layer, n);
    FrontExcludes(layer, n);
    var k := layer.keys[n];
    OverlayInsert(m, Front(layer, n), k, layer.vals[k], cuts, merge);
    assert Front(layer, n + 1) == OrderedMap(Front(layer, n).keys + [k], Front(layer, n).vals[k := layer.vals[k]]);
  }

  lemma FrontExcludes<V>(layer: OrderedMap<string, V>, n: nat)
    requires layer.Valid() && n < |layer.keys|
    ensures layer.keys[n] !in Front(layer, n).vals
  {
  }

  lemma OverlayInsert<V>(m: OrderedMap<string, V>, layer: OrderedMap<string, V>, k: string, entry: V,
                         cuts: V -> bool, merge: (V, V) -> V)
    requires k !in layer.vals
    ensures var before := Overlay(m, layer, cuts, merge);
            && Lookup(before, k) == Lookup(m, k)
            && before.Insert(k, Combine(Lookup(m, k), entry, cuts, merge))
               == Overlay(m, OrderedMap(layer.keys + [k], layer.vals[k := entry]), cuts, merge)
  {
    hide AddAll, Combine;
    AddAllStep(m.keys, layer.keys, k);
    var after := OrderedMap(layer.keys + [k], layer.vals[k := entry]);
    var before := Overlay(m, layer, cuts, merge);
    assert m.vals.Keys + after.vals.Keys == m.vals.Keys + layer.vals.Keys + {k};
    assert before.vals[k := Combine(Lookup(m, k), entry, cuts, merge)] == Overlay(m, after, cuts, merge).vals;
  }

  lemma OverlayNothing<V>(m: OrderedMap<string, V>, layer: OrderedMap<string, V>,
                          cuts: V -> bool, merge: (V, V) -> V)
    requires layer.Valid()
    ensures Overlay(m, Front(layer, 0), cuts, merge) == m
  {
    assert Overlay(m, Front(layer, 0), cuts, merge).vals == m.vals;
  }

  ghost predicate Associative<V(!new)>(cuts: V -> bool, merge: (V, V) -> V) {
    && (forall x, y, z :: merge(merge(x, y), z) == merge(x, merge(y, z)))
    && (forall x, y :: cuts(merge(x, y)) == cuts(x))
  }

  /** Overlaying is associative: Replace entries cut, Merge entries chain, keys keep their first place. */
  lemma OverlayAssociative<V(!new)>(m: OrderedMap<string, V>, a: OrderedMap<string, V>, b: OrderedMap<string, V>,
                                    cuts: V -> bool, merge: (V, V) -> V)
    requires Associative(cuts, merge)
    ensures Overlay(Overlay(m, a, cuts, merge), b, cuts, merge)
            == Overlay(m, Overlay(a, b, cuts, merge), cuts, merge)
  {
    hide AddAll;
    AddAllAssociative(m.keys, a.keys, b.keys);
    var left := Overlay(Overlay(m, a, cuts, merge), b, cuts, merge);
    var right := Overlay(m, Overlay(a, b, cuts, merge), cuts, merge);
    forall k | k in left.vals ensures left.vals[k] == right.vals[k] {
      if k in m.vals && k in a.vals && k in b.vals {
        assert merge(merge(m.vals[k], a.vals[k]), b.vals[k]) == merge(m.vals[k], merge(a.vals[k], b.vals[k]));
      }
    }
    assert left.vals == right.vals;
  }

  // ---------------------------------------------------------------------
  // The three merges are associative
  // ---------------------------------------------------------------------

  predicate ServiceReplaces(c: ServiceConfig) { c.overrideMode == Replace }

  predicate CheckReplaces(c: CheckConfig) { c.overrideMode == Replace }

  predicate AlertReplaces(c: AlertConfig) { c.overrideMode == Replace }

  lemma MergeServiceAssociative(x: ServiceConfig, y: ServiceConfig, z: ServiceConfig)
    ensures MergeService(MergeService(x, y), z) == MergeService(x, MergeService(y, z))
  {
    hide AddAll, Extend;
    AddAllAssociative(x.after, y.after, z.after);
    AddAllAssociative(x.before, y.before, z.before);
    AddAllAssociative(x.required, y.required, z.required);
    ExtendAssociative(x.environment, y.environment, z.environment);
    ExtendAssociative(x.onCheckFailure, y.onCheckFailure, z.onCheckFailure);
  }

  lemma MergeCheckAssociative(x: CheckConfig, y: CheckConfig, z: CheckConfig)
    ensures MergeCheck(MergeCheck(x, y), z) == MergeCheck(x, MergeCheck(y, z))
  {
  }

  lemma MergeAlertAssociative(x: AlertConfig, y: AlertConfig, z: AlertConfig)
    ensures MergeAlert(MergeAlert(x, y), z) == MergeAlert(x, MergeAlert(y, z))
  {
    hide AddAll, Extend;
    AddAllAssociative(x.onCheck, y.onCheck, z.onCheck);
    ExtendAssociative(x.headers, y.headers, z.headers);
    ExtendAssociative(x.labels, y.labels, z.labels);
    ExtendAssociative(x.sendInfoFields, y.sendInfoFields, z.sendInfoFields);
  }

  lemma MergesAreAssociative()
    ensures Associative(ServiceReplaces, MergeService)
    ensures Associative(CheckReplaces, MergeCheck)
    ensures Associative(AlertReplaces, MergeAlert)
  {
    hide MergeService, MergeCheck, MergeAlert;
    forall x, y, z ensures MergeService(MergeService(x, y), z) == MergeService(x, MergeService(y, z)) {
      MergeServiceAssociative(x, y, z);
    }
    forall x, y, z ensures MergeCheck(MergeCheck(x, y), z) == MergeCheck(x, MergeCheck(y, z)) {
      MergeCheckAssociative(x, y, z);
    }
    forall x, y, z ensures MergeAlert(MergeAlert(x, y), z) == MergeAlert(x, MergeAlert(y, z)) {
      MergeAlertAssociative(x, y, z);
    }
    MergesKeepMode();
  }

  /** Merging keeps the override mode of the entry merged into. */
  lemma MergesKeepMode()
    ensures forall x, y :: MergeService(x, y).overrideMode == x.overrideMode
    ensures forall x, y :: MergeCheck(x, y).overrideMode == x.overrideMode
    ensures forall x, y :: MergeAlert(x, y).overrideMode == x.overrideMode
  {
    hide AddAll, Extend;
  }

  // ---------------------------------------------------------------------
  // Layers and plans
  // ---------------------------------------------------------------------

  /** Everything a layer contributes, which is also everything a plan resolves. */
  datatype Content = Content(
    services: OrderedMap<string, ServiceConfig>,
    checks: OrderedMap<string, CheckConfig>,
    alerts: OrderedMap<string, AlertConfig>,
    queueDepth: Option<nat>,
    queueTime: Option<string>)
  {
    ghost predicate Valid() {
      && services.Valid() && checks.Valid() && alerts.Valid()
      && (forall k :: k in services.vals ==> services.vals[k].Valid())
      && (forall k :: k in alerts.vals ==> alerts.vals[k].Valid())
    }
  }

  datatype Layer = Layer(order: nat, labelText: string, summary: Option<string>, description: Option<string>,
                         content: Content)

  datatype Plan = Plan(layers: seq<Layer>, content: Content)

  function NoContent(): Content {
    Content(EmptyMap(), EmptyMap(), EmptyMap(), None, None)
  }

  /** A layer's content over what the earlier layers resolved to. */
  function Apply(base: Content, layer: Content): Content {
    Content(
      Overlay(base.services, layer.services, ServiceReplaces, MergeService),
      Overlay(base.checks, layer.checks, CheckReplaces, MergeCheck),
      Overlay(base.alerts, layer.alerts, AlertReplaces, MergeAlert),
      Or(layer.queueDepth, base.queueDepth),
      Or(layer.queueTime, base.queueTime))
  }

  function Resolve(layers: seq<Layer>): Content {
    if layers == [] then NoContent()
    else Apply(Resolve(layers[..|layers| - 1]), layers[|layers| - 1].content)
  }

  /**
    One layer over what is there: an entry that is new or in Replace mode stands as it is, one in Merge mode is merged
    into the entry there, and what the layer does not mention stays. The same for services, checks and alerts.
    */
  lemma ModeDecides(base: Content, layer: Content, name: string)
    ensures var before, mentioned, after := base.services.vals, layer.services.vals, Apply(base, layer).services.vals;
            && (name in after <==> name in before || name in mentioned)
            && (name in mentioned && (name !in before || mentioned[name].overrideMode == Replace) ==>
                  after[name] == mentioned[name])
            && (name in mentioned && name in before && mentioned[name].overrideMode == Merge ==>
                  after[name] == MergeService(before[name], mentioned[name]))
            && (name in before && name !in mentioned ==> after[name] == before[name])
    ensures var before, mentioned, after := base.checks.vals, layer.checks.vals, Apply(base, layer).checks.vals;
            && (name in after <==> name in before || name in mentioned)
            && (name in mentioned && (name !in before || mentioned[name].overrideMode == Replace) ==>
                  after[name] == mentioned[name])
            && (name in mentioned && name in before && mentioned[name].overrideMode == Merge ==>
                  after[name] == MergeCheck(before[name], mentioned[name]))
            && (name in before && name !in mentioned ==> after[name] == before[name])
    ensures var before, mentioned, after := base.alerts.vals, layer.alerts.vals, Apply(base, layer).alerts.vals;
            && (name in after <==> name in before || name in mentioned)
            && (name in mentioned && (name !in before || mentioned[name].overrideMode == Replace) ==>
                  after[name] == mentioned[name])
            && (name in mentioned && name in before && mentioned[name].overrideMode == Merge ==>
                  after[name] == MergeAlert(before[name], mentioned[name]))
            && (name in before && name !in mentioned ==> after[name] == before[name])
  {
    hide AddAll, MergeService, MergeCheck, MergeAlert;
  }

  method ApplyServices(base: OrderedMap<string, ServiceConfig>, layer: OrderedMap<string, ServiceConfig>)
    returns (services: OrderedMap<string, ServiceConfig>)
    requires layer.Valid() && forall k :: k in layer.vals ==> layer.vals[k].Valid()
    ensures services == Overlay(base, layer, ServiceReplaces, MergeService)
  {
    hide Overlay, MergeService, Front;
    services := base;
    OverlayNothing(base, layer, ServiceReplaces, MergeService);
    for i := 0 to |layer.keys|
      invariant services == Overlay(base, Front(layer, i), ServiceReplaces, MergeService)
    {
      var name := layer.keys[i];
      var entry := layer.vals[name];
      OverlayStep(base, layer, i, ServiceReplaces, MergeService);
      match entry.overrideMode {
        case Replace =>
          services := services.Insert(name, entry);
        case Merge =>
          if name !in services.vals {
            services := services.Insert(name, entry);
          } else {
            var merged := MergeServiceInto(services.vals[name], entry);
            services := services.Insert(name, merged);
          }
      }
    }
    FrontAll(layer);
  }

  method ApplyChecks(base: OrderedMap<string, CheckConfig>, layer: OrderedMap<string, CheckConfig>)
    returns (checks: OrderedMap<string, CheckConfig>)
    requires layer.Valid()
    ensures checks == Overlay(base, layer, CheckReplaces, MergeCheck)
  {
    hide Overlay, MergeCheck, Front;
    checks := base;
    OverlayNothing(base, layer, CheckReplaces, MergeCheck);
    for i := 0 to |layer.keys|
      invariant checks == Overlay(base, Front(layer, i), CheckReplaces, MergeCheck)
    {
      var name := layer.keys[i];
      var entry := layer.vals[name];
      OverlayStep(base, layer, i, CheckReplaces, MergeCheck);
      match entry.overrideMode {
        case Replace =>
          checks := checks.Insert(name, entry);
        case Merge =>
          if name !in checks.vals {
            checks := checks.Insert(name, entry);
          } else {
            var merged := MergeCheckInto(checks.vals[name], entry);
            checks := checks.Insert(name, merged);
          }
      }
    }
    FrontAll(layer);
  }

  method ApplyAlerts(base: OrderedMap<string, AlertConfig>, layer: OrderedMap<string, AlertConfig>)
    returns (alerts: OrderedMap<string, AlertConfig>)
    requires layer.Valid() && forall k :: k in layer.vals ==> layer.vals[k].Valid()
    ensures alerts == Overlay(base, layer, AlertReplaces, MergeAlert)
  {
    hide Overlay, MergeAlert, Front;
    alerts := base;
    OverlayNothing(base, layer, AlertReplaces, MergeAlert);
    for i := 0 to |layer.keys|
      invariant alerts == Overlay(base, Front(layer, i), AlertReplaces, MergeAlert)
    {
      var name := layer.keys[i];
      var entry := layer.vals[name];
      OverlayStep(base, layer, i, AlertReplaces, MergeAlert);
      match entry.overrideMode {
        case Replace =>
          alerts := alerts.Insert(name, entry);
        case Merge =>
          if name !in alerts.vals {
            alerts := alerts.Insert(name, entry);
          } else {
            var merged := MergeAlertInto(alerts.vals[name], entry);
            alerts := alerts.Insert(name, merged);
          }
      }
    }
    FrontAll(layer);
  }

  method FromLayers(layers: seq<Layer>) returns (plan: Plan)
    requires forall l :: l in layers ==> l.content.Valid()
    ensures plan == Plan(layers, Resolve(layers))
  {
    hide Overlay;
    var services: OrderedMap<string, ServiceConfig> := EmptyMap();
    var checks: OrderedMap<string, CheckConfig> := EmptyMap();
    var alerts: OrderedMap<string, AlertConfig> := EmptyMap();
    var queueDepth: Option<nat> := None;
    var queueTime: Option<string> := None;
    for i := 0 to |layers|
      invariant Content(services, checks, alerts, queueDepth, queueTime) == Resolve(layers[..i])
    {
      assert layers[i] in layers;
      assert layers[..i + 1][..i] == layers[..i];
      var layer := layers[i].content;
      services := ApplyServices(services, layer.services);
      checks := ApplyChecks(checks, layer.checks);
      if layer.queueDepth.Some? {
        queueDepth := layer.queueDepth;
      }
      if layer.queueTime.Some? {
        queueTime := layer.queueTime;
      }
      alerts := ApplyAlerts(alerts, layer.alerts);
    }
    assert layers[..|layers|] == layers;
    plan := Plan(layers, Content(services, checks, alerts, queueDepth, queueTime));
  }

  // ---------------------------------------------------------------------
  // Collapsing a run of layers
  // ---------------------------------------------------------------------

  lemma ApplyAssociative(a: Content, b: Content, c: Content)
    ensures Apply(Apply(a, b), c) == Apply(a, Apply(b, c))
  {
    hide Overlay, Associative;
    MergesAreAssociative();
    OverlayAssociative(a.services, b.services, c.services, ServiceReplaces, MergeService);
    OverlayAssociative(a.checks, b.checks, c.checks, CheckReplaces, MergeCheck);
    OverlayAssociative(a.alerts, b.alerts, c.alerts, AlertReplaces, MergeAlert);
  }

  lemma OverEmpty<V>(m: OrderedMap<string, V>, cuts: V -> bool, merge: (V, V) -> V)
    requires m.Valid()
    ensures Overlay(EmptyMap(), m, cuts, merge) == m
    ensures Overlay(m, EmptyMap(), cuts, merge) == m
  {
    hide AddAll, Combine;
    AddAllToEmpty(m.keys);
    AddAllNothing(m.keys);
    OverEmptyValues(m, cuts, merge);
  }

  lemma OverEmptyValues<V>(m: OrderedMap<string, V>, cuts: V -> bool, merge: (V, V) -> V)
    ensures Overlay(EmptyMap(), m, cuts, merge).vals == m.vals
    ensures Overlay(m, EmptyMap(), cuts, merge).vals == m.vals
  {
    hide AddAll;
  }

  lemma ApplyNoContent(c: Content)
    requires c.services.Valid() && c.checks.Valid() && c.alerts.Valid()
    ensures Apply(NoContent(), c) == c == Apply(c, NoContent())
  {
    hide Overlay;
    OverEmpty(c.services, ServiceReplaces, MergeService);
    OverEmpty(c.checks, CheckReplaces, MergeCheck);
    OverEmpty(c.alerts, AlertReplaces, MergeAlert);
  }

  lemma {:induction false} ResolveValid(layers: seq<Layer>)
    requires forall l :: l in layers ==> l.content.Valid()
    ensures var c := Resolve(layers); c.services.Valid() && c.checks.Valid() && c.alerts.Valid()
    decreases |layers|
  {
    hide Overlay;
    if layers != [] {
      var front, last := Resolve(layers[..|layers| - 1]), layers[|layers| - 1].content;
      ResolveValid(layers[..|layers| - 1]);
      OverlayValid(front.services, last.services, ServiceReplaces, MergeService);
      OverlayValid(front.checks, last.checks, CheckReplaces, MergeCheck);
      OverlayValid(front.alerts, last.alerts, AlertReplaces, MergeAlert);
    }
  }

  lemma {:induction false} ResolveConcat(a: seq<Layer>, b: seq<Layer>)
    requires forall l :: l in a + b ==> l.content.Valid()
    ensures Resolve(a + b) == Apply(Resolve(a), Resolve(b))
    decreases |b|
  {
    hide Apply;
    assert forall l :: l in a ==> l in a + b;
    if b == [] {
      assert a + b == a;
      ResolveValid(a);
      ApplyNoContent(Resolve(a));
    } else {
      var front, last := b[..|b| - 1], b[|b| - 1];
      assert a + b == (a + front) + [last];
      assert (a + b)[..|a + b| - 1] == a + front;
      ResolveConcat(a, front);
      ApplyAssociative(Resolve(a), Resolve(front), last.content);
    }
  }

  /** The single layer that stands for a run of layers. */
  function Collapse(run: seq<Layer>, order: nat, labelText: string): Layer {
    Layer(order, labelText, None, None, Resolve(run))
  }

  /**
    Replacing any contiguous run of layers by the one layer made of its merged entries leaves the whole plan as it
    was: entries with their field values, list orders, override modes, map orders and the queue settings.
    */
  lemma CollapseKeepsPlan(before: seq<Layer>, run: seq<Layer>, after: seq<Layer>, order: nat, labelText: string)
    requires forall l :: l in before + run + after ==> l.content.Valid()
    ensures Resolve(before + [Collapse(run, order, labelText)] + after) == Resolve(before + run + after)
  {
    hide Apply;
    var one := Collapse(run, order, labelText);
    assert forall l :: l in before + run ==> l in before + run + after;
    assert forall l :: l in run || l in after || l in before ==> l in before + run + after;
    ResolveConcat(before + run, after);
    ResolveConcat(before, run);
    ResolveOne(before, one);
    ResolveAfter(before + [one], before + run, after);
  }

  lemma ResolveOne(before: seq<Layer>, one: Layer)
    ensures Resolve(before + [one]) == Apply(Resolve(before), one.content)
  {
    hide Apply;
    assert (before + [one])[..|before + [one]| - 1] == before;
  }

  /** What comes after only sees what the layers before resolved to. */
  lemma {:induction false} ResolveAfter(a: seq<Layer>, b: seq<Layer>, after: seq<Layer>)
    requires Resolve(a) == Resolve(b)
    ensures Resolve(a + after) == Resolve(b + after)
    decreases |after|
  {
    hide Apply;
    if after == [] {
      assert a + after == a && b + after == b;
    } else {
      var front, last := after[..|after| - 1], after[|after| - 1];
      assert a + after == (a + front) + [last] && b + after == (b + front) + [last];
      ResolveAfter(a, b, front);
      ResolveOne(a + front, last);
      ResolveOne(b + front, last);
    }
  }
}
