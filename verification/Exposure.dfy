/**
 Exposing a component: either through a gateway route configuration, or through an ingress (a route on
 OpenShift). When the strategy changes, the new one is synced before the old one is removed.
 */
module Exposure {
  import opened Cluster
  import Sync
  import Deploy

  function ConfigKey(cr: Key, component: string): Key {
    Key(ConfigMap, cr.namespace, "che-gateway-route-" + component)
  }

  function RoutingKey(cr: Key, openShift: bool, component: string): Key {
    Key(if openShift then Route else Ingress, cr.namespace, component)
  }

  /** One component on one platform, with the blueprints of its two ways of exposure. */
  datatype Component = Component(name: string, openShift: bool, config: Obj, routing: Obj)

  /** The world after a call, and whether it was done. */
  datatype Turn = Turn(w: World, done: bool)

  function ThroughGateway(w: World, crDeleting: bool, c: Component): Turn {
    var o := Sync.Syncing(w, crDeleting, ConfigKey(w.rely.cr, c.name), c.config, Sync.LabelsEqual);
    if !o.done then Turn(o.w, false)
    else Turn(Sync.Deleting(o.w, RoutingKey(w.rely.cr, c.openShift, c.name), true).0, true)
  }

  function ThroughRouting(w: World, crDeleting: bool, c: Component): Turn {
    var k := RoutingKey(w.rely.cr, c.openShift, c.name);
    var o := Sync.Syncing(w, crDeleting, k, c.routing, Sync.LabelsAndDigest);
    if !o.done then Turn(o.w, false)
    else
      var (w1, route) := if c.openShift then CallGet(o.w, k, true) else (o.w, Ok(c.routing));
      if route.Failed? then Turn(w1, false)
      else Turn(Sync.Deleting(w1, ConfigKey(w.rely.cr, c.name), true).0, true)
  }

  function Exposing(w: World, crDeleting: bool, c: Component, useGateway: bool): Turn {
    if useGateway then ThroughGateway(w, crDeleting, c) else ThroughRouting(w, crDeleting, c)
  }

  // ---------- step by step ----------

  method ExposeWithHostPath(ctx: Deploy.DeployContext, c: Component, strategy: string, singleHostExposureType: string)
    returns (done: bool)
    modifies ctx`w
    ensures var useGateway := strategy == "single-host" && (c.openShift || singleHostExposureType == "gateway");
            Turn(ctx.w, done) == Exposing(old(ctx.w), ctx.cr.deleting, c, useGateway)
  {
    var useGateway := strategy == "single-host" && (c.openShift || singleHostExposureType == "gateway");
    var config, routing := ConfigKey(ctx.w.rely.cr, c.name), RoutingKey(ctx.w.rely.cr, c.openShift, c.name);
    var error;
    if useGateway {
      var cfg := new Deploy.Blueprint(config, c.config);
      done, error := ctx.Sync(cfg, Sync.LabelsEqual);
      if !done {
        return false;
      }
      done, error := ctx.Delete(routing, true);
      return true;
    }
    var blueprint := new Deploy.Blueprint(routing, c.routing);
    done, error := ctx.Sync(blueprint, Sync.LabelsAndDigest);
    if !done {
      return false;
    }
    if c.openShift {
      var route := ctx.ClientGet(routing, true);
      if route.Failed? {
        return false;
      }
    }
    done, error := ctx.Delete(config, true);
    return true;
  }

  // ---------- exactly one, and never none ----------

  predicate Exposed(objects: map<Key, Obj>, cr: Key, c: Component) {
    ConfigKey(cr, c.name) in objects || RoutingKey(cr, c.openShift, c.name) in objects
  }

  /** Only the way that is asked for is there, and as its blueprint has it: the configuration of the gateway, a
      config map; or a route on OpenShift and an ingress elsewhere. */
  predicate OnlyWay(objects: map<Key, Obj>, cr: Key, c: Component, useGateway: bool) {
    var config := Key(ConfigMap, cr.namespace, "che-gateway-route-" + c.name);
    var routing := Key(if c.openShift then Route else Ingress, cr.namespace, c.name);
    if useGateway then config in objects && objects[config].spec == c.config.spec && routing !in objects
    else routing in objects && objects[routing].spec == c.routing.spec && config !in objects
  }

  /** Nobody interferes, and neither object is held or being torn down. */
  ghost predicate Undisturbed(w: World, c: Component) {
    && Sync.Ready(w, ConfigKey(w.rely.cr, c.name), c.config)
    && Sync.Ready(w, RoutingKey(w.rely.cr, c.openShift, c.name), c.routing)
    && Unheld(w.store.objects, ConfigKey(w.rely.cr, c.name))
    && Unheld(w.store.objects, RoutingKey(w.rely.cr, c.openShift, c.name))
  }

  predicate Unheld(objects: map<Key, Obj>, k: Key) {
    k in objects ==> objects[k].finalizers == []
  }

  /** Blueprints as callers build them. */
  predicate Proper(cr: Key, c: Component) {
    && c.config.version == 0 && c.config.finalizers == [] && !c.config.deleting
    && Sync.WithOwner(cr, ConfigKey(cr, c.name), c.config).Ok?
    && c.routing.version == 0 && c.routing.finalizers == [] && !c.routing.deleting
    && Sync.WithOwner(cr, RoutingKey(cr, c.openShift, c.name), c.routing).Ok?
  }

  lemma OtherBlueprints(w: World, c: Component, d: Component)
    requires Undisturbed(w, c) && Proper(w.rely.cr, d) && d.name == c.name && d.openShift == c.openShift
    ensures Undisturbed(w, d)
  {
  }

  /** The states a call adds to the history. */
  ghost predicate Adds(w: World, v: World, p: map<Key, Obj> -> bool) {
    exists added: seq<map<Key, Obj>> :: v.history == w.history + added && forall m | m in added :: p(m)
  }

  lemma AddsMore(u: World, v: World, w: World, p: map<Key, Obj> -> bool)
    requires Adds(u, v, p) && Adds(v, w, p)
    ensures Adds(u, w, p)
  {
    var a: seq<map<Key, Obj>> :| v.history == u.history + a && forall m | m in a :: p(m);
    var b: seq<map<Key, Obj>> :| w.history == v.history + b && forall m | m in b :: p(m);
    assert w.history == u.history + (a + b);
  }

  lemma AddsOne(w: World, v: World, m: map<Key, Obj>, p: map<Key, Obj> -> bool)
    requires v.history == w.history || v.history == w.history + [m]
    requires p(m)
    ensures Adds(w, v, p)
  {
    if v.history == w.history {
      assert v.history == w.history + [];
    } else {
      assert forall x | x in [m] :: x == m;
    }
  }

  /** What a call that touches one key leaves of the rest. */
  ghost predicate Touches(w: World, v: World, k: Key) {
    && v.script == [] && v.rely == w.rely
    && forall x | x != k :: Lookup(v.store.objects, x) == Lookup(w.store.objects, x)
  }

  lemma QuietCreate(w: World, k: Key, bp: Obj)
    requires w.script == [] && k !in w.store.objects && bp.version == 0 && WithOwnerOk(w, k, bp)
    ensures var o := Sync.Creating(w, false, k, bp, false);
            && o.done && Touches(w, o.w, k) && k in o.w.store.objects
            && o.w.store.objects[k].finalizers == bp.finalizers
            && o.w.history == w.history + [o.w.store.objects]
  {
  }

  predicate WithOwnerOk(w: World, k: Key, bp: Obj) {
    Sync.WithOwner(w.rely.cr, k, bp).Ok?
  }

  lemma QuietDelete(w: World, k: Key)
    requires w.script == [] && Unheld(w.store.objects, k)
    ensures var v := CallDelete(w, k).0;
            && Touches(w, v, k) && k !in v.store.objects
            && (v.history == w.history || v.history == w.history + [v.store.objects])
            && (CallDelete(w, k).1.Ok? || CallDelete(w, k).1.error == NotFound)
  {
  }

  lemma QuietPatch(w: World, k: Key, bp: Obj)
    requires w.script == [] && k in w.store.objects && !w.store.objects[k].deleting && WithOwnerOk(w, k, bp)
    ensures var v := Sync.Patching(w, k, bp, w.store.objects[k].version).w;
            && Touches(w, v, k) && k in v.store.objects
            && (v.store.objects[k] == w.store.objects[k] || v.store.objects[k].finalizers == bp.finalizers)
            && (v.history == w.history || v.history == w.history + [v.store.objects])
  {
  }

  /** The states a sync of `k` passes through, with or without the other object. */
  ghost predicate QuietResult(w: World, v: World, k: Key, other: Key, anew: bool) {
    && Touches(w, v, k) && k in v.store.objects && Unheld(v.store.objects, k)
    && ((anew && other !in w.store.objects)
        || Adds(w, v, m => k in m || (other in m && other in w.store.objects)))
  }

  lemma QuietReplace(w: World, k: Key, merged: Obj, other: Key)
    requires w.script == [] && k in w.store.objects && Unheld(w.store.objects, k) && other != k
    requires merged.version == 0 && merged.finalizers == [] && WithOwnerOk(w, k, merged)
    ensures QuietResult(w, Sync.Replacing(w, false, k, merged).w, k, other, true)
  {
    var p := (m: map<Key, Obj>) => k in m || (other in m && other in w.store.objects);
    var v := Sync.Replacing(w, false, k, merged).w;
    QuietDelete(w, k);
    var gone := CallDelete(w, k).0;
    QuietCreate(gone, k, merged);
    if other in w.store.objects {
      assert Lookup(gone.store.objects, other) == Lookup(w.store.objects, other);
      AddsOne(w, gone, gone.store.objects, p);
      AddsOne(gone, v, v.store.objects, p);
      AddsMore(w, gone, v, p);
    }
  }

  /** A sync without interference: it touches only its key, the object is there afterwards, and the states on
      the way have it or are those of a replacement, which leaves the rest as it is. */
  lemma QuietSync(w: World, k: Key, bp: Obj, c: Sync.Comparer, other: Key)
    requires Sync.Ready(w, k, bp) && Unheld(w.store.objects, k) && other != k
    ensures QuietResult(w, Sync.Syncing(w, false, k, bp, c).w, k, other, Replaces(w, k, bp, c))
  {
    var p := (m: map<Key, Obj>) => k in m || (other in m && other in w.store.objects);
    var v := Sync.Syncing(w, false, k, bp, c).w;
    var caught := Sync.Caught(w);
    if k !in w.store.objects {
      assert CallGet(w, k, Sync.ReadsFromCache(w.rely.cr, k)) == (caught, Failed(NotFound));
      QuietCreate(caught, k, bp);
      AddsOne(w, v, v.store.objects, p);
    } else {
      Sync.SyncingIsUpdating(w, k, bp, c);
      if Sync.LooksLike(w.store.objects[k], bp, c) {
        AddsOne(w, v, w.store.objects, p);
      } else if !Sync.IsUpdateUsingDeleteCreate(k.kind) {
        QuietPatch(caught, k, Sync.Overlay(w.store.objects[k], bp));
        AddsOne(w, v, v.store.objects, p);
      } else {
        QuietReplace(caught, k, Sync.Overlay(w.store.objects[k], bp), other);
      }
    }
  }

  /** The object is deleted and created anew. */
  predicate Replaces(w: World, k: Key, bp: Obj, c: Sync.Comparer) {
    Sync.IsUpdateUsingDeleteCreate(k.kind) && k in w.store.objects && !Sync.LooksLike(w.store.objects[k], bp, c)
  }

  lemma QuietRemove(w: World, k: Key, other: Key)
    requires w.script == [] && Unheld(w.store.objects, k) && other != k && other in w.store.objects
    ensures var v := Sync.Deleting(w, k, true).0;
            && Touches(w, v, k) && k !in v.store.objects
            && Adds(w, v, m => other in m)
  {
    var v := Sync.Deleting(w, k, true).0;
    var caught := Sync.Caught(w);
    assert CallGet(w, k, true).0 == caught;
    if k in w.store.objects {
      QuietDelete(caught, k);
    }
    assert Lookup(v.store.objects, other) == Lookup(w.store.objects, other);
    AddsOne(w, v, v.store.objects, m => other in m);
  }

  lemma AddsWeaken(w: World, v: World, p: map<Key, Obj> -> bool, q: map<Key, Obj> -> bool)
    requires Adds(w, v, p) && forall m :: p(m) ==> q(m)
    ensures Adds(w, v, q)
  {
    var added: seq<map<Key, Obj>> :| v.history == w.history + added && forall m | m in added :: p(m);
  }

  ghost function ExposedNow(cr: Key, c: Component): map<Key, Obj> -> bool {
    m => Exposed(m, cr, c)
  }

  /** The only call that leaves the component unexposed for a moment: replacing its route or ingress while there
      is no gateway configuration to stand in. */
  predicate Gap(w: World, c: Component, useGateway: bool) {
    var routing := RoutingKey(w.rely.cr, c.openShift, c.name);
    && !useGateway
    && ConfigKey(w.rely.cr, c.name) !in w.store.objects
    && routing in w.store.objects
    && !Sync.LooksLike(w.store.objects[routing], c.routing, Sync.LabelsAndDigest)
  }

  /** What any call leaves behind. */
  ghost predicate Switched(w: World, t: Turn, c: Component, useGateway: bool) {
    && t.w.rely == w.rely
    && Undisturbed(t.w, c)
    && (t.done ==> OnlyWay(t.w.store.objects, w.rely.cr, c, useGateway))
    && (Adds(w, t.w, ExposedNow(w.rely.cr, c)) <==> !Gap(w, c, useGateway))
  }

  /** What was, stays in the history. */
  predicate Extends(w: World, v: World) {
    |w.history| <= |v.history| && v.history[..|w.history|] == w.history
  }

  lemma AddsExtends(w: World, v: World, p: map<Key, Obj> -> bool)
    requires Adds(w, v, p)
    ensures Extends(w, v)
  {
    var added: seq<map<Key, Obj>> :| v.history == w.history + added && forall m | m in added :: p(m);
  }

  /** The next state after `w` on the way to `v` is not a `p`. */
  predicate Breaks(w: World, v: World, p: map<Key, Obj> -> bool) {
    Extends(w, v) && |w.history| < |v.history| && !p(v.history[|w.history|])
  }

  lemma BreaksLater(w: World, u: World, v: World, p: map<Key, Obj> -> bool)
    requires Breaks(w, u, p) && Extends(u, v)
    ensures Breaks(w, v, p)
  {
    assert v.history[..|u.history|][..|w.history|] == v.history[..|w.history|];
    assert v.history[|w.history|] == v.history[..|u.history|][|w.history|];
  }

  lemma BreaksIsNotAdds(w: World, v: World, p: map<Key, Obj> -> bool)
    requires Breaks(w, v, p)
    ensures !Adds(w, v, p)
  {
  }

  /** A replacement passes through a state without the object. */
  lemma ReplacementBreaks(w: World, k: Key, bp: Obj, c: Sync.Comparer, p: map<Key, Obj> -> bool)
    requires Sync.Ready(w, k, bp) && Unheld(w.store.objects, k) && Replaces(w, k, bp, c)
    requires forall m: map<Key, Obj> ::
               k !in m && (forall x | x != k :: Lookup(m, x) == Lookup(w.store.objects, x)) ==> !p(m)
    ensures Breaks(w, Sync.Syncing(w, false, k, bp, c).w, p)
  {
    var caught := Sync.Caught(w);
    var (w1, found) := CallGet(w, k, Sync.ReadsFromCache(w.rely.cr, k));
    assert w1 == caught && found == Ok(w.store.objects[k]);
    var merged := Sync.Overlay(w.store.objects[k], bp);
    QuietDelete(caught, k);
    var gone := CallDelete(caught, k).0;
    assert gone.history == w.history + [gone.store.objects];
    QuietCreate(gone, k, merged);
    var v := Sync.Syncing(w, false, k, bp, c).w;
    assert v.history == w.history + [gone.store.objects] + [v.store.objects];
  }

  /** The gap is real: in this case a state on the way has neither. */
  lemma GapIsReal(w: World, c: Component)
    requires Undisturbed(w, c) && Gap(w, c, false)
    ensures var routing := RoutingKey(w.rely.cr, c.openShift, c.name);
            Breaks(w, Sync.Syncing(w, false, routing, c.routing, Sync.LabelsAndDigest).w, ExposedNow(w.rely.cr, c))
  {
    var cr := w.rely.cr;
    var config, routing := ConfigKey(cr, c.name), RoutingKey(cr, c.openShift, c.name);
    var p := ExposedNow(cr, c);
    forall m: map<Key, Obj> |
      routing !in m && (forall x | x != routing :: Lookup(m, x) == Lookup(w.store.objects, x))
      ensures !p(m)
    {
      assert Lookup(m, config) == Lookup(w.store.objects, config);
    }
    ReplacementBreaks(w, routing, c.routing, Sync.LabelsAndDigest, p);
  }

  lemma ReadyElsewhere(w: World, v: World, k: Key, bp: Obj, touched: Key)
    requires Sync.Ready(w, k, bp) && Unheld(w.store.objects, k) && Touches(w, v, touched) && touched != k
    ensures Sync.Ready(v, k, bp) && Unheld(v.store.objects, k)
  {
    assert Lookup(v.store.objects, k) == Lookup(w.store.objects, k);
  }

  lemma GatewaySwitch(w: World, c: Component)
    requires Undisturbed(w, c)
    ensures Switched(w, ThroughGateway(w, false, c), c, true)
  {
    var cr := w.rely.cr;
    var config, routing := ConfigKey(cr, c.name), RoutingKey(cr, c.openShift, c.name);
    var o := Sync.Syncing(w, false, config, c.config, Sync.LabelsEqual);
    var p := (m: map<Key, Obj>) => config in m || (routing in m && routing in w.store.objects);
    Sync.Round(w, config, c.config, Sync.LabelsEqual);
    QuietSync(w, config, c.config, Sync.LabelsEqual, routing);
    ReadyElsewhere(w, o.w, routing, c.routing, config);
    AddsWeaken(w, o.w, p, ExposedNow(cr, c));
    if o.done {
      var v := Sync.Deleting(o.w, routing, true).0;
      QuietRemove(o.w, routing, config);
      ReadyElsewhere(o.w, v, config, c.config, routing);
      AddsWeaken(o.w, v, m => config in m, ExposedNow(cr, c));
      AddsMore(w, o.w, v, ExposedNow(cr, c));
    }
  }

  lemma {:induction false} RoutingSwitch(w: World, c: Component)
    requires Undisturbed(w, c)
    ensures Switched(w, ThroughRouting(w, false, c), c, false)
  {
    var cr := w.rely.cr;
    var config, routing := ConfigKey(cr, c.name), RoutingKey(cr, c.openShift, c.name);
    var o := Sync.Syncing(w, false, routing, c.routing, Sync.LabelsAndDigest);
    var p := (m: map<Key, Obj>) => routing in m || (config in m && config in w.store.objects);
    Sync.Round(w, routing, c.routing, Sync.LabelsAndDigest);
    QuietSync(w, routing, c.routing, Sync.LabelsAndDigest, config);
    ReadyElsewhere(w, o.w, config, c.config, routing);
    if !Gap(w, c, false) {
      AddsWeaken(w, o.w, p, ExposedNow(cr, c));
    } else {
      GapIsReal(w, c);
      BreaksIsNotAdds(w, o.w, ExposedNow(cr, c));
    }
    if o.done {
      var w1 := if c.openShift then Sync.Caught(o.w) else o.w;
      assert c.openShift ==> CallGet(o.w, routing, true) == (w1, Ok(o.w.store.objects[routing]));
      var v := Sync.Deleting(w1, config, true).0;
      QuietRemove(w1, config, routing);
      ReadyElsewhere(w1, v, routing, c.routing, config);
      AddsWeaken(w1, v, m => routing in m, ExposedNow(cr, c));
      if !Gap(w, c, false) {
        AddsOne(o.w, w1, o.w.store.objects, ExposedNow(cr, c));
        AddsMore(w, o.w, w1, ExposedNow(cr, c));
        AddsMore(w, w1, v, ExposedNow(cr, c));
      } else {
        AddsExtends(w1, v, ExposedNow(cr, c));
        BreaksLater(w, o.w, v, ExposedNow(cr, c));
        BreaksIsNotAdds(w, v, ExposedNow(cr, c));
      }
    }
  }

  function TargetKey(cr: Key, c: Component, useGateway: bool): Key {
    if useGateway then ConfigKey(cr, c.name) else RoutingKey(cr, c.openShift, c.name)
  }

  function TargetObj(c: Component, useGateway: bool): Obj {
    if useGateway then c.config else c.routing
  }

  function TargetComparer(useGateway: bool): Sync.Comparer {
    if useGateway then Sync.LabelsEqual else Sync.LabelsAndDigest
  }

  function TargetSync(w: World, c: Component, useGateway: bool): Sync.Outcome {
    Sync.Syncing(w, false, TargetKey(w.rely.cr, c, useGateway), TargetObj(c, useGateway), TargetComparer(useGateway))
  }

  /** A call is done if and only if its sync is. */
  lemma DoneIfSynced(w: World, c: Component, useGateway: bool)
    requires Undisturbed(w, c)
    ensures var o := TargetSync(w, c, useGateway);
            && Exposing(w, false, c, useGateway).done == o.done
            && (!o.done ==> Exposing(w, false, c, useGateway).w == o.w)
  {
    if !useGateway {
      var routing := RoutingKey(w.rely.cr, c.openShift, c.name);
      var o := TargetSync(w, c, useGateway);
      Sync.Round(w, routing, c.routing, Sync.LabelsAndDigest);
      assert c.openShift ==> CallGet(o.w, routing, true).1 == Ok(o.w.store.objects[routing]);
    }
  }

  /** Progress: a switch is done at the second call at the latest, if its sync can settle at all. */
  lemma {:induction false} SwitchCompletes(w: World, c: Component, useGateway: bool)
    requires Undisturbed(w, c)
    requires Sync.CanSettle(w, TargetKey(w.rely.cr, c, useGateway), TargetObj(c, useGateway),
        TargetComparer(useGateway))
    ensures var first := Exposing(w, false, c, useGateway);
            var second := Exposing(first.w, false, c, useGateway);
            && (first.done || second.done)
            && (first.done ==> OnlyWay(first.w.store.objects, w.rely.cr, c, useGateway))
            && (second.done ==> OnlyWay(second.w.store.objects, w.rely.cr, c, useGateway))
  {
    var first := Exposing(w, false, c, useGateway);
    OneWay(w, c, useGateway);
    DoneIfSynced(w, c, useGateway);
    OneWay(first.w, c, useGateway);
    if !first.done {
      var k, bp := TargetKey(w.rely.cr, c, useGateway), TargetObj(c, useGateway);
      Sync.SettlesAfterOneRound(w, first.w, k, bp, TargetComparer(useGateway));
      DoneIfSynced(first.w, c, useGateway);
    }
  }

  /** What a strategy makes of a component: its two blueprints, and which way of exposure it asks for. */
  datatype Mode = Mode(config: Obj, routing: Obj, useGateway: bool)

  function Under(c: Component, mode: Mode): Component {
    c.(config := mode.config, routing := mode.routing)
  }

  /** Any number of calls while the strategy, and with it the blueprints, changes between them. */
  function Run(w: World, c: Component, modes: seq<Mode>): World {
    if modes == [] then w
    else
      var mode := modes[|modes| - 1];
      Exposing(Run(w, c, modes[..|modes| - 1]), false, Under(c, mode), mode.useGateway).w
  }

  lemma {:induction false} RunStaysUndisturbed(w: World, c: Component, modes: seq<Mode>)
    requires Undisturbed(w, c) && forall mode | mode in modes :: Proper(w.rely.cr, Under(c, mode))
    ensures Undisturbed(Run(w, c, modes), c) && Run(w, c, modes).rely == w.rely
    decreases |modes|
  {
    if modes != [] {
      var before := Run(w, c, modes[..|modes| - 1]);
      var mode := modes[|modes| - 1];
      assert mode in modes;
      RunStaysUndisturbed(w, c, modes[..|modes| - 1]);
      OtherBlueprints(before, c, Under(c, mode));
      OneWay(before, Under(c, mode), mode.useGateway);
      OtherBlueprints(Run(w, c, modes), Under(c, mode), c);
    }
  }

  lemma OneWay(w: World, c: Component, useGateway: bool)
    requires Undisturbed(w, c)
    ensures Switched(w, Exposing(w, false, c, useGateway), c, useGateway)
  {
    if useGateway {
      GatewaySwitch(w, c);
    } else {
      RoutingSwitch(w, c);
    }
  }

  /** After any sequence of strategy changes, a call that is done leaves exactly the way it was asked for; and a
      state on the way has neither if and only if a route or ingress is replaced while it is the only one. */
  lemma ExactlyOneWay(w: World, c: Component, modes: seq<Mode>, mode: Mode)
    requires Undisturbed(w, c)
    requires Proper(w.rely.cr, Under(c, mode)) && forall m | m in modes :: Proper(w.rely.cr, Under(c, m))
    ensures var before := Run(w, c, modes);
            var d := Under(c, mode);
            Switched(before, Exposing(before, false, d, mode.useGateway), d, mode.useGateway)
  {
    RunStaysUndisturbed(w, c, modes);
    OtherBlueprints(Run(w, c, modes), c, Under(c, mode));
    OneWay(Run(w, c, modes), Under(c, mode), mode.useGateway);
  }

  // ---------- when a deletion fails ----------

  /** Whether the removal of the other way fails does not matter to a call: it is done all the same, and leaves the
      other way behind if and only if that removal fails, for every script. */
  lemma LeftIfRemovalFails(w: World, c: Component, useGateway: bool)
    requires var other := TargetKey(w.rely.cr, c, !useGateway);
             && other in w.rely.owned && other in w.store.objects && w.store.objects[other].finalizers == []
    ensures var other := TargetKey(w.rely.cr, c, !useGateway);
            var t := Exposing(w, false, c, useGateway);
            var synced := TargetSync(w, c, useGateway).w;
            var before := if c.openShift && !useGateway then CallGet(synced, TargetKey(w.rely.cr, c, false), true).0
                          else synced;
            t.done ==> (other in t.w.store.objects <==> Sync.DeletionFails(before, other, true))
  {
    var other := TargetKey(w.rely.cr, c, !useGateway);
    var o := TargetSync(w, c, useGateway);
    var target := TargetKey(w.rely.cr, c, useGateway);
    Sync.SyncKeepsOwned(w, target, TargetObj(c, useGateway), TargetComparer(useGateway), other);
    assert Lookup(o.w.store.objects, other) == Lookup(w.store.objects, other);
    if useGateway {
      Sync.DeletionLeaves(o.w, other, true);
    } else {
      var w1 := if c.openShift then CallGet(o.w, TargetKey(w.rely.cr, c, false), true).0 else o.w;
      OwnedStays(o.w, other);
      assert Lookup(w1.store.objects, other) == Lookup(w.store.objects, other);
      Sync.DeletionLeaves(w1, other, true);
    }
  }

  /** On OpenShift a route that cannot be read back keeps the configuration, and asks for another call. */
  lemma UnreadRouteKeepsConfig(w: World, c: Component)
    requires c.openShift && ConfigKey(w.rely.cr, c.name) in w.rely.owned
    ensures var o := TargetSync(w, c, false);
            var t := Exposing(w, false, c, false);
            var config := ConfigKey(w.rely.cr, c.name);
            !o.done || CallGet(o.w, RoutingKey(w.rely.cr, true, c.name), true).1.Failed? ==>
              !t.done && Lookup(t.w.store.objects, config) == Lookup(w.store.objects, config)
  {
    var config, routing := ConfigKey(w.rely.cr, c.name), RoutingKey(w.rely.cr, true, c.name);
    var o := TargetSync(w, c, false);
    Sync.SyncKeepsOwned(w, routing, c.routing, Sync.LabelsAndDigest, config);
    OwnedStays(o.w, config);
  }

  // ---------- a lagging cache ----------

  /** The cache still shows an up-to-date gateway configuration that is gone, and the route or ingress, which
      is there and which nothing holds. */
  predicate StaleSwitch(s: Store, cr: Key, c: Component) {
    var config, routing := ConfigKey(cr, c.name), RoutingKey(cr, c.openShift, c.name);
    && config !in s.objects
    && Passes(s.cache, config, c.config)
    && routing in s.objects && s.objects[routing].finalizers == []
    && routing in s.cache
  }

  /** Nobody interferes, but the cache does not catch up either: for the longest call, four API calls. */
  predicate Lagging(script: seq<EnvStep>) {
    |script| >= 4 && forall i | 0 <= i < 4 :: script[i] == Pause
  }

  lemma PauseSettles(w: World)
    requires w.script != [] && w.script[0] == Pause
    ensures Settle(w) == (w.(script := w.script[1..]), NoFault)
  {
  }

  lemma LaggingRemoval(w: World, k: Key)
    requires |w.script| >= 2 && w.script[0] == Pause && w.script[1] == Pause
    ensures var v := Sync.Deleting(w, k, true).0;
            v.store.objects == if k in w.store.cache then Deleted(w.store, k).0.objects else w.store.objects
  {
    PauseSettles(w);
    PauseSettles(w.(script := w.script[1..]));
  }

  /** A write of one key that leaves the rest, and the cache, as they are. */
  ghost predicate LaggingWrite(w: World, v: World, k: Key) {
    && w.script != [] && v.script == w.script[1..] && v.rely == w.rely && v.store.cache == w.store.cache
    && (forall x | x != k :: Lookup(v.store.objects, x) == Lookup(w.store.objects, x))
    && (k in w.store.objects ==> k in v.store.objects)
  }

  lemma LaggingCreate(w: World, k: Key, bp: Obj)
    requires w.script != [] && w.script[0] == Pause && Sync.WithOwner(w.rely.cr, k, bp).Ok?
    ensures var o := Sync.Creating(w, false, k, bp, false);
            LaggingWrite(w, o.w, k) && (o.done ==> k in o.w.store.objects)
  {
    PauseSettles(w);
  }

  lemma LaggingPatch(w: World, k: Key, merged: Obj, version: nat)
    requires w.script != [] && w.script[0] == Pause && Sync.WithOwner(w.rely.cr, k, merged).Ok?
    requires k in w.store.objects ==> !w.store.objects[k].deleting
    ensures var o := Sync.Patching(w, k, merged, version); LaggingWrite(w, o.w, k) && !o.done
  {
    PauseSettles(w);
  }

  predicate Passes(cache: map<Key, Obj>, k: Key, bp: Obj) {
    k in cache && cache[k].spec == bp.spec && cache[k].labels == bp.labels
  }

  lemma LaggingSync(w: World, k: Key, bp: Obj)
    requires |w.script| >= 2 && w.script[0] == Pause && w.script[1] == Pause
    requires k.kind == ConfigMap && k.namespace == w.rely.cr.namespace
    requires k in w.store.objects ==> !w.store.objects[k].deleting
    ensures var o := Sync.Syncing(w, false, k, bp, Sync.LabelsEqual);
            var w1 := w.(script := w.script[1..]);
            if Passes(w.store.cache, k, bp) then o.done && o.w == w1
            else if Sync.WithOwner(w.rely.cr, k, bp).Failed? then !o.done && o.w == w1
            else LaggingWrite(w1, o.w, k) && (o.done ==> k in o.w.store.objects)
  {
    var w1 := w.(script := w.script[1..]);
    PauseSettles(w);
    if k !in w.store.cache {
      if Sync.WithOwner(w.rely.cr, k, bp).Ok? {
        LaggingCreate(w1, k, bp);
      }
    } else if !Passes(w.store.cache, k, bp) && Sync.WithOwner(w.rely.cr, k, bp).Ok? {
      LaggingPatch(w1, k, Sync.Overlay(w.store.cache[k], bp), w.store.cache[k].version);
    }
  }

  /** With a lagging cache a switch to the gateway leaves a component that was exposed without any exposure
      exactly if the cache still shows a configuration that is gone, and the route or ingress. */
  lemma StaleCacheUnexposes(w: World, c: Component)
    requires Lagging(w.script) && Exposed(w.store.objects, w.rely.cr, c)
    requires var config := ConfigKey(w.rely.cr, c.name);
             config in w.store.objects ==> !w.store.objects[config].deleting
    ensures var t := ThroughGateway(w, false, c);
            && (!Exposed(t.w.store.objects, w.rely.cr, c) <==> StaleSwitch(w.store, w.rely.cr, c))
            && (StaleSwitch(w.store, w.rely.cr, c) ==> t.done)
  {
    var cr := w.rely.cr;
    var config, routing := ConfigKey(cr, c.name), RoutingKey(cr, c.openShift, c.name);
    var o := Sync.Syncing(w, false, config, c.config, Sync.LabelsEqual);
    LaggingSync(w, config, c.config);
    assert Lookup(o.w.store.objects, routing) == Lookup(w.store.objects, routing);
    if o.done {
      LaggingRemoval(o.w, routing);
      var v := Sync.Deleting(o.w, routing, true).0;
      assert Lookup(v.store.objects, config) == Lookup(o.w.store.objects, config);
    }
  }
}
