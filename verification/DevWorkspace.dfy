/**
 The cluster-wide objects of the dev workspace operator, which every Che operator on the cluster tries to keep
 in step with its own templates. Two annotations say which operator an object belongs to and which template
 it was made from; they keep operators of different versions from overwriting each other for ever.
 */
module DevWorkspace {
  import opened Cluster
  import Sync
  import Deploy

  const NAMESPACE := "che.eclipse.org/namespace"
  const HASH := "che.eclipse.org/hash256"

  function Get(m: Fields, k: string): string {
    if k in m then m[k] else ""
  }

  function Marked(bp: Obj, namespace: string, hash: string): Obj {
    bp.(annotations := bp.annotations[NAMESPACE := namespace][HASH := hash])
  }

  /** Whether an operator may write an object: it is missing, or it was made from another template and either
      belongs to this operator or there is no other one. */
  predicate MayWrite(actual: Option<Obj>, namespace: string, hash: string, onlyOne: bool) {
    actual.None? ||
    (Get(actual.value.annotations, HASH) != hash
     && (Get(actual.value.annotations, NAMESPACE) == namespace || onlyOne))
  }

  /** One sync of an object from the process-wide template `bp`, which is edited in place and kept. `onlyOne`
      is missing if the clusters cannot be listed. */
  function SyncingObject(w: World, crDeleting: bool, k: Key, bp: Obj, hash: string,
      onlyOne: Option<bool>): (o: Sync.Outcome)
    ensures o.w.rely == w.rely
  {
    var (w1, found) := CallGet(w, k, Sync.ReadsFromCache(w.rely.cr, k));
    if found.Failed? && found.error != NotFound then Sync.Outcome(w1, bp, false, Some(found.error))
    else if onlyOne.None? then Sync.Outcome(w1, bp, false, Some(Unavailable))
    else if MayWrite(if found.Ok? then Some(found.obj) else None, w.rely.cr.namespace, hash, onlyOne.value) then
      Sync.Syncing(w1, crDeleting, k, Marked(bp, w.rely.cr.namespace, hash), Sync.Everything)
    else Sync.Outcome(w1, bp, true, None)
  }

  // ---------- step by step ----------

  /** A template read once per process: the object, which later syncs edit, and its hash. */
  class Object2Sync {
    const obj: Deploy.Blueprint
    const hash256: string

    constructor (obj: Deploy.Blueprint, hash256: string)
      ensures this.obj == obj && this.hash256 == hash256
    {
      this.obj, this.hash256 := obj, hash256;
    }
  }

  function Enabled(clusters: seq<bool>): nat {
    if clusters == [] then 0 else (if clusters[0] then 1 else 0) + Enabled(clusters[1..])
  }

  /** Whether there is only one operator, if the clusters can be listed. */
  function OnlyOneOf(clusters: Option<seq<bool>>): Option<bool> {
    if clusters.None? then None else Some(Enabled(clusters.value) == 1)
  }

  lemma {:induction false} NoneEnabled(clusters: seq<bool>)
    ensures Enabled(clusters) == 0 <==> forall i | 0 <= i < |clusters| :: !clusters[i]
  {
    if clusters != [] {
      NoneEnabled(clusters[1..]);
      assert forall i | 0 < i < |clusters| :: clusters[i] == clusters[1..][i - 1];
    }
  }

  /** Exactly one of them is enabled. */
  predicate ExactlyOne(clusters: seq<bool>) {
    exists i :: 0 <= i < |clusters| && clusters[i] && forall j | 0 <= j < |clusters| && j != i :: !clusters[j]
  }

  lemma {:induction false} OneEnabled(clusters: seq<bool>)
    ensures Enabled(clusters) == 1 <==> ExactlyOne(clusters)
  {
    if clusters != [] {
      var rest := clusters[1..];
      assert forall i | 0 < i < |clusters| :: clusters[i] == rest[i - 1];
      NoneEnabled(rest);
      OneEnabled(rest);
      if ExactlyOne(rest) && !clusters[0] {
        var i :| 0 <= i < |rest| && rest[i] && forall j | 0 <= j < |rest| && j != i :: !rest[j];
        assert clusters[i + 1];
      }
      if ExactlyOne(clusters) {
        var i :| 0 <= i < |clusters| && clusters[i] && forall j | 0 <= j < |clusters| && j != i :: !clusters[j];
        if i > 0 {
          assert rest[i - 1];
          assert forall j | 0 <= j < |rest| && j != i - 1 :: !rest[j] by {
            assert forall j | 0 <= j < |rest| :: rest[j] == clusters[j + 1];
          }
        } else {
          assert forall j | 0 <= j < |rest| :: rest[j] == clusters[j + 1];
        }
      }
    }
  }

  /** `clusters` holds spec.devWorkspace.enable of every CheCluster on the cluster, unless listing them failed. */
  method IsOnlyOneOperatorManagesDWResources(clusters: Option<seq<bool>>) returns (onlyOne: bool, error: Option<Error>)
    ensures OnlyOneOf(clusters) == if error.None? then Some(onlyOne) else None
    ensures clusters.None? <==> error == Some(Unavailable)
    ensures clusters.Some? ==> error.None? && (onlyOne <==> ExactlyOne(clusters.value))
  {
    if clusters.None? {
      return false, Some(Unavailable);
    }
    var items := clusters.value;
    var devWorkspaceEnabledNum := 0;
    for i := 0 to |items|
      invariant devWorkspaceEnabledNum + Enabled(items[i..]) == Enabled(items)
    {
      assert items[i..][1..] == items[i + 1..];
      if items[i] {
        devWorkspaceEnabledNum := devWorkspaceEnabledNum + 1;
      }
    }
    OneEnabled(items);
    return devWorkspaceEnabledNum == 1, None;
  }

  method SyncObject(ctx: Deploy.DeployContext, obj2sync: Object2Sync, clusters: Option<seq<bool>>)
    returns (done: bool, error: Option<Error>)
    modifies ctx`w, obj2sync.obj
    ensures Sync.Outcome(ctx.w, obj2sync.obj.obj, done, error)
            == SyncingObject(old(ctx.w), ctx.cr.deleting, obj2sync.obj.key, old(obj2sync.obj.obj),
                             obj2sync.hash256, OnlyOneOf(clusters))
  {
    var blueprint := obj2sync.obj;
    var actual := ctx.ClientGet(blueprint.key, Sync.ReadsFromCache(ctx.w.rely.cr, blueprint.key));
    if actual.Failed? && actual.error != NotFound {
      return false, Some(actual.error);
    }
    var onlyOne;
    onlyOne, error := IsOnlyOneOperatorManagesDWResources(clusters);
    if error.Some? {
      return false, error;
    }
    if actual.Failed? ||
       (Get(actual.obj.annotations, HASH) != obj2sync.hash256
        && (Get(actual.obj.annotations, NAMESPACE) == ctx.w.rely.cr.namespace || onlyOne))
    {
      blueprint.obj := blueprint.obj.(annotations := blueprint.obj.annotations[NAMESPACE := ctx.w.rely.cr.namespace]);
      blueprint.obj := blueprint.obj.(annotations := blueprint.obj.annotations[HASH := obj2sync.hash256]);
      done, error := ctx.Sync(blueprint, Sync.Everything);
      return;
    }
    return true, None;
  }

  /** If the object cannot be read or the clusters cannot be listed, nothing is written and an error reported. */
  lemma UnknownIsError(w: World, crDeleting: bool, k: Key, bp: Obj, hash: string, onlyOne: Option<bool>)
    requires onlyOne.None? || NextFault(w.script).OnRead?
    ensures var o := SyncingObject(w, crDeleting, k, bp, hash, onlyOne);
            !o.done && o.error.Some? && o.w.writes == w.writes && o.blueprint == bp
  {
    SettleFollowsScript(w);
  }

  /** An object that was made from this very template, or that belongs to another of several operators, is done
      with: nothing is written, and the template stays as it is. */
  lemma OthersAreDone(w: World, crDeleting: bool, k: Key, bp: Obj, hash: string, onlyOne: bool)
    requires w.script == [] && k in w.store.objects
    requires var annotations := w.store.objects[k].annotations;
             || Get(annotations, HASH) == hash
             || (Get(annotations, NAMESPACE) != w.rely.cr.namespace && !onlyOne)
    ensures var o := SyncingObject(w, crDeleting, k, bp, hash, Some(onlyOne));
            o.done && o.error.None? && o.w.writes == w.writes && o.blueprint == bp
  {
  }

  // ---------- several operators on one cluster ----------

  /** One operator process: whether its CheCluster enables dev workspaces, whether that is being deleted, the
      hash of its template and the template as the process has it now. */
  datatype Operator = Operator(enabled: bool, crDeleting: bool, hash: string, blueprint: Obj)

  /** The shared server, and the operators by the namespace of their CheCluster. */
  datatype Fleet = Fleet(store: Store, operators: map<string, Operator>)
  {
    function EnabledOnes(): set<string> {
      set n | n in operators && operators[n].enabled
    }

    predicate OnlyOne() {
      |EnabledOnes()| == 1
    }
  }

  /** One call seen as a single step: nobody writes while it runs. */
  function Atomic(s: Store, namespace: string): World {
    World(Rely(Key(CheCluster, namespace, "eclipse-che"), {}, {}, false), s, [], [s.objects], [], {})
  }

  datatype Event =
    | SyncBy(namespace: string)
    | Toggle(namespace: string, enabled: bool)
    | Restart(namespace: string, hash: string, blueprint: Obj)
    | Disappear

  function Synced(f: Fleet, n: string, k: Key): Fleet
    requires n in f.operators
  {
    var op := f.operators[n];
    if !op.enabled then f
    else
      var o := SyncingObject(Atomic(f.store, n), op.crDeleting, k, op.blueprint, op.hash, Some(f.OnlyOne()));
      f.(store := o.w.store, operators := f.operators[n := op.(blueprint := o.blueprint)])
  }

  function Step(f: Fleet, e: Event, k: Key): Fleet {
    match e
    case SyncBy(n) => if n in f.operators then Synced(f, n, k) else f
    case Toggle(n, on) =>
      if n in f.operators then f.(operators := f.operators[n := f.operators[n].(enabled := on)]) else f
    case Restart(n, hash, bp) =>
      if n in f.operators then f.(operators := f.operators[n := f.operators[n].(hash := hash, blueprint := bp)]) else f
    case Disappear => f.(store := Vanish(f.store, k))
  }

  /** An object in a namespace no CheCluster lives in, which nobody tears down; one that is deleted and created
      anew is held by no finalizer. */
  ghost predicate Usual(f: Fleet, k: Key) {
    && Coherent(f.store)
    && k.namespace !in f.operators
    && (k in f.store.objects ==> Undoomed(f.store.objects[k], k.kind))
    && (forall n | n in f.operators :: f.operators[n].blueprint.finalizers == [])
  }

  predicate Undoomed(o: Obj, kind: Kind) {
    !o.deleting && (Sync.IsUpdateUsingDeleteCreate(kind) ==> o.finalizers == [])
  }

  predicate Writes(f: Fleet, e: Event, k: Key) {
    e.SyncBy? && Lookup(Step(f, e, k).store.objects, k) != Lookup(f.store.objects, k)
  }

  predicate MarkedBy(f: Fleet, k: Key, n: string) {
    && n in f.operators
    && k in f.store.objects
    && Get(f.store.objects[k].annotations, NAMESPACE) == n
    && Get(f.store.objects[k].annotations, HASH) == f.operators[n].hash
  }

  /** A quiet sync of such an object leaves it alone, or with every annotation of the template; or it deletes
      an object of a kind that is created anew, and cannot create from a template that was used before. */
  ghost predicate CalmResult(w: World, o: Sync.Outcome, k: Key, bp: Obj) {
    && Coherent(o.w.store)
    && o.blueprint.finalizers == []
    && (k in w.store.objects && k !in o.w.store.objects ==> Sync.IsUpdateUsingDeleteCreate(k.kind) && bp.version != 0)
    && (k in o.w.store.objects ==> Undoomed(o.w.store.objects[k], k.kind))
    && (bp.version != 0 ==> o.blueprint.version != 0)
    && (k !in w.store.objects && bp.version != 0 ==> k !in o.w.store.objects)
    && (Lookup(o.w.store.objects, k) != Lookup(w.store.objects, k) ==> o.blueprint.version != 0)
    && (Lookup(o.w.store.objects, k) != Lookup(w.store.objects, k) && k in o.w.store.objects ==>
          forall a | a in bp.annotations ::
            a in o.w.store.objects[k].annotations && o.w.store.objects[k].annotations[a] == bp.annotations[a])
  }

  ghost predicate Calm(w: World, k: Key, bp: Obj) {
    && w.script == []
    && Coherent(w.store)
    && k.namespace != w.rely.cr.namespace
    && bp.finalizers == []
    && (k in w.store.objects ==> Undoomed(w.store.objects[k], k.kind))
  }

  lemma CalmCreate(w: World, crDeleting: bool, k: Key, bp: Obj)
    requires Calm(w, k, bp) && k !in w.store.objects
    ensures CalmResult(w, Sync.Creating(w, crDeleting, k, bp, false), k, bp)
  {
    CreateStep(w, k, bp);
  }

  lemma CalmPatch(w: World, k: Key, bp: Obj)
    requires Calm(w, k, bp) && k in w.store.objects && !Sync.IsUpdateUsingDeleteCreate(k.kind)
    ensures var actual := w.store.objects[k];
            CalmResult(w, Sync.Patching(w, k, Sync.Overlay(actual, bp), actual.version), k, bp)
  {
    var actual := w.store.objects[k];
    var next := Sync.Overlay(actual, bp).(version := actual.version);
    UpdateStep(w, k, next);
    assert Updated(Settle(w).0.store, k, next).1.Ok?;
  }

  lemma CalmDelete(w: World, k: Key, bp: Obj)
    requires Calm(w, k, bp) && k in w.store.objects && Sync.IsUpdateUsingDeleteCreate(k.kind)
    ensures var (v, reply) := CallDelete(w, k); Calm(v, k, bp) && reply.Ok? && k !in v.store.objects
  {
    DeleteStep(w, k);
    assert Deleted(Settle(w).0.store, k).0 == Vanish(Settle(w).0.store, k);
  }

  lemma CalmReplace(w: World, k: Key, bp: Obj)
    requires Calm(w, k, bp) && k in w.store.objects && Sync.IsUpdateUsingDeleteCreate(k.kind)
    ensures CalmResult(w, Sync.Replacing(w, false, k, Sync.Overlay(w.store.objects[k], bp)), k, bp)
  {
    var merged := Sync.Overlay(w.store.objects[k], bp);
    var gone := CallDelete(w, k).0;
    CalmDelete(w, k, bp);
    assert Calm(gone, k, merged);
    CreateStep(gone, k, merged);
  }

  lemma CalmSync(w: World, crDeleting: bool, k: Key, bp: Obj)
    requires Calm(w, k, bp)
    ensures CalmResult(w, Sync.Syncing(w, crDeleting, k, bp, Sync.Everything), k, bp)
  {
    if !crDeleting {
      var (w1, found) := CallGet(w, k, false);
      SettleStep(w);
      if found.Failed? {
        CalmCreate(w1, crDeleting, k, bp);
      } else if Sync.IsUpdateUsingDeleteCreate(k.kind) {
        CalmReplace(w1, k, bp);
      } else {
        CalmPatch(w1, k, bp);
      }
    }
  }

  /** The object is missing; or it was made from another template, and either it is marked as this operator's or
      no other operator is enabled. */
  predicate IsUpTo(f: Fleet, n: string, k: Key)
    requires n in f.operators
  {
    || k !in f.store.objects
    || (&& Get(f.store.objects[k].annotations, HASH) != f.operators[n].hash
        && (|| Get(f.store.objects[k].annotations, NAMESPACE) == n
            || forall m | m in f.operators && m != n :: !f.operators[m].enabled))
  }

  /** An enabled operator, whose own resource is not being deleted, is to write the object. */
  predicate Entitled(f: Fleet, n: string, k: Key)
    requires n in f.operators
  {
    f.operators[n].enabled && !f.operators[n].crDeleting && IsUpTo(f, n, k)
  }

  lemma OnlyOneMeans(f: Fleet, n: string)
    requires n in f.operators && f.operators[n].enabled
    ensures f.OnlyOne() <==> forall m | m in f.operators && m != n :: !f.operators[m].enabled
  {
    if forall m | m in f.operators && m != n :: !f.operators[m].enabled {
      assert f.EnabledOnes() == {n};
    } else {
      var m :| m in f.operators && m != n && f.operators[m].enabled;
      TwoEnabled(f, n, m);
    }
  }

  lemma IsUpToMeans(f: Fleet, n: string, k: Key)
    requires n in f.operators && f.operators[n].enabled
    ensures MayWrite(Lookup(f.store.objects, k), n, f.operators[n].hash, f.OnlyOne()) <==> IsUpTo(f, n, k)
  {
    OnlyOneMeans(f, n);
  }

  /** The sync would delete the object and not be able to create it anew. */
  predicate UsedUp(f: Fleet, n: string, k: Key)
    requires n in f.operators
  {
    Sync.IsUpdateUsingDeleteCreate(k.kind) && Entitled(f, n, k) && f.operators[n].blueprint.version != 0
  }

  /** What one sync call does to the object: nothing, or it ends up marked by the caller, who was entitled, or
      it disappears because the caller has used its template up. */
  ghost predicate SyncedResult(f: Fleet, g: Fleet, n: string, k: Key)
    requires n in f.operators
  {
    && Usual(g, k)
    && g.EnabledOnes() == f.EnabledOnes()
    && SameHashes(f, g)
    && (k in f.store.objects && k !in g.store.objects ==> UsedUp(f, n, k))
    && (f.operators[n].blueprint.version != 0 ==>
          && g.operators[n].blueprint.version != 0
          && (k !in f.store.objects ==> k !in g.store.objects))
    && (Lookup(g.store.objects, k) != Lookup(f.store.objects, k) ==>
          && (k in g.store.objects ==> MarkedBy(g, k, n))
          && g.operators[n].blueprint.version != 0
          && Entitled(f, n, k))
  }

  ghost predicate SameHashes(f: Fleet, g: Fleet) {
    && g.operators.Keys == f.operators.Keys
    && forall m | m in f.operators ::
        g.operators[m].hash == f.operators[m].hash && g.operators[m].enabled == f.operators[m].enabled
  }

  lemma {:induction false} SyncedEffect(f: Fleet, n: string, k: Key)
    requires Usual(f, k) && n in f.operators
    ensures SyncedResult(f, Synced(f, n, k), n, k)
  {
    var op := f.operators[n];
    var w := Atomic(f.store, n);
    var g := Synced(f, n, k);
    if op.enabled {
      IsUpToMeans(f, n, k);
      var bp := Marked(op.blueprint, n, op.hash);
      var (w1, found) := CallGet(w, k, false);
      SettleStep(w);
      assert Calm(w1, k, bp);
      CalmSync(w1, op.crDeleting, k, bp);
      assert NAMESPACE in bp.annotations && HASH in bp.annotations;
    }
    assert SameHashes(f, g);
    assert g.EnabledOnes() == f.EnabledOnes();
  }

  /** The sync goes through: the object ends up with the template's spec and a new version. */
  ghost predicate WrittenFrom(w: World, o: Sync.Outcome, k: Key, bp: Obj) {
    && k in o.w.store.objects
    && o.w.store.objects[k].spec == bp.spec
    && Lookup(o.w.store.objects, k) != Lookup(w.store.objects, k)
  }

  lemma CreateWrites(w: World, k: Key, bp: Obj)
    requires Calm(w, k, bp) && k !in w.store.objects && bp.version == 0
    ensures WrittenFrom(w, Sync.Creating(w, false, k, bp, false), k, bp)
  {
    assert Created(Settle(w).0.store, k, bp).1.Ok?;
  }

  lemma PatchWrites(w: World, k: Key, bp: Obj)
    requires Calm(w, k, bp) && k in w.store.objects
    ensures var actual := w.store.objects[k];
            WrittenFrom(w, Sync.Patching(w, k, Sync.Overlay(actual, bp), actual.version), k, bp)
  {
    var actual := w.store.objects[k];
    var next := Sync.Overlay(actual, bp).(version := actual.version);
    assert Updated(Settle(w).0.store, k, next).1.Ok?;
  }

  lemma ReplaceWrites(w: World, k: Key, bp: Obj)
    requires Calm(w, k, bp) && k in w.store.objects && Sync.IsUpdateUsingDeleteCreate(k.kind)
    ensures var o := Sync.Replacing(w, false, k, Sync.Overlay(w.store.objects[k], bp));
            if bp.version == 0 then WrittenFrom(w, o, k, bp) else k !in o.w.store.objects
  {
    var merged := Sync.Overlay(w.store.objects[k], bp);
    var gone := CallDelete(w, k).0;
    CalmDelete(w, k, bp);
    assert gone.store.clock >= w.store.objects[k].version by {
      DeleteStep(w, k);
    }
    if bp.version == 0 {
      assert Created(Settle(gone).0.store, k, merged).1.Ok?;
    }
  }

  lemma SyncWrites(w: World, k: Key, bp: Obj)
    requires Calm(w, k, bp)
    requires if k in w.store.objects then w.store.objects[k] != bp else bp.version == 0
    ensures var o := Sync.Syncing(w, false, k, bp, Sync.Everything);
            if Sync.IsUpdateUsingDeleteCreate(k.kind) && k in w.store.objects && bp.version != 0
            then k !in o.w.store.objects
            else WrittenFrom(w, o, k, bp)
  {
    var (w1, found) := CallGet(w, k, false);
    SettleStep(w);
    if found.Failed? {
      CreateWrites(w1, k, bp);
    } else if Sync.IsUpdateUsingDeleteCreate(k.kind) {
      ReplaceWrites(w1, k, bp);
    } else {
      PatchWrites(w1, k, bp);
    }
  }

  /** An operator writes an object exactly when it is entitled to, except that it cannot create from a template
      it has written before. What it writes is its template; and an object disappears exactly if it is of a
      kind that is deleted and created anew and the template was used before. */
  lemma WritesIfEntitled(f: Fleet, n: string, k: Key)
    requires Usual(f, k) && n in f.operators
    ensures var g := Synced(f, n, k);
            && (Writes(f, SyncBy(n), k)
                <==> Entitled(f, n, k) && (k in f.store.objects || f.operators[n].blueprint.version == 0))
            && (Writes(f, SyncBy(n), k) && k in g.store.objects ==>
                g.store.objects[k].spec == f.operators[n].blueprint.spec)
            && (k in f.store.objects && k !in g.store.objects <==> k in f.store.objects && UsedUp(f, n, k))
  {
    var op := f.operators[n];
    var bp := Marked(op.blueprint, n, op.hash);
    SyncedEffect(f, n, k);
    if f.operators[n].enabled {
      IsUpToMeans(f, n, k);
    }
    if Entitled(f, n, k) && (k in f.store.objects || op.blueprint.version == 0) {
      var (w1, found) := CallGet(Atomic(f.store, n), k, false);
      SettleStep(Atomic(f.store, n));
      assert HASH in bp.annotations && bp.annotations[HASH] == op.hash;
      SyncWrites(w1, k, bp);
    }
  }

  // ---------- runs ----------

  /** As things are, the object is up to no operator. */
  ghost predicate Settled(f: Fleet, k: Key) {
    forall n | n in f.operators && f.operators[n].enabled :: !IsUpTo(f, n, k)
  }

  lemma TwoEnabled(f: Fleet, n: string, m: string)
    requires n in f.EnabledOnes() && m in f.EnabledOnes() && n != m
    ensures !f.OnlyOne()
  {
    var others := f.EnabledOnes() - {n};
    assert m in others && |f.EnabledOnes()| == |others| + 1;
  }

  lemma WriteSettles(f: Fleet, n: string, k: Key)
    requires Usual(f, k) && n in f.operators && Writes(f, SyncBy(n), k)
    ensures Settled(Synced(f, n, k), k) || k !in Synced(f, n, k).store.objects
  {
    var g := Synced(f, n, k);
    SyncedEffect(f, n, k);
    if k in g.store.objects {
      forall m | m in g.operators && g.operators[m].enabled ensures !IsUpTo(g, m, k) {
        if m != n {
          assert g.operators[n].enabled;
        }
      }
    }
  }

  lemma SettledStays(f: Fleet, n: string, k: Key)
    requires Usual(f, k) && n in f.operators && Settled(f, k)
    ensures !Writes(f, SyncBy(n), k) && Settled(Synced(f, n, k), k)
  {
    SyncedEffect(f, n, k);
  }

  ghost predicate Proper(e: Event) {
    e.Restart? ==> e.blueprint.finalizers == []
  }

  lemma {:induction false} StepKeepsUsual(f: Fleet, e: Event, k: Key)
    requires Usual(f, k) && Proper(e)
    ensures Usual(Step(f, e, k), k)
  {
    if e.SyncBy? && e.namespace in f.operators {
      SyncedEffect(f, e.namespace, k);
    }
    VanishStep(f.store, k);
  }

  function WriteCount(f: Fleet, events: seq<Event>, k: Key): nat
    decreases |events|
  {
    if events == [] then 0
    else (if Writes(f, events[0], k) then 1 else 0) + WriteCount(Step(f, events[0], k), events[1..], k)
  }

  /** Changes of configuration, new operator versions and deletions by hand. */
  function Disturbances(events: seq<Event>): nat {
    if events == [] then 0 else (if events[0].SyncBy? then 0 else 1) + Disturbances(events[1..])
  }

  /** How often an object can be written before things are settled again: once, and once more if it can
      disappear on the way. */
  function Cost(k: Key): nat {
    if Sync.IsUpdateUsingDeleteCreate(k.kind) then 2 else 1
  }

  ghost function Debt(f: Fleet, k: Key): nat {
    if Settled(f, k) then 0 else if k in f.store.objects then Cost(k) else 1
  }

  lemma SyncPaysDebt(f: Fleet, n: string, k: Key)
    requires Usual(f, k) && n in f.operators
    ensures Debt(Synced(f, n, k), k) + (if Writes(f, SyncBy(n), k) then 1 else 0) <= Debt(f, k)
  {
    SyncedEffect(f, n, k);
    if Settled(f, k) {
      SettledStays(f, n, k);
    } else if Writes(f, SyncBy(n), k) {
      WriteSettles(f, n, k);
    } else {
      var g := Synced(f, n, k);
      assert Settled(g, k) <==> Settled(f, k);
    }
  }

  /** No ping-pong: over every run of any number of operators, however many syncs there are, an object is written
      at most once for each disturbance from outside, and once at the start if it is not settled then. For an
      object that is deleted and created anew it is at most twice, because it can disappear in between. */
  lemma {:induction false} WritesAreBounded(f: Fleet, events: seq<Event>, k: Key)
    requires Usual(f, k) && forall e | e in events :: Proper(e)
    ensures WriteCount(f, events, k) <= Debt(f, k) + Cost(k) * Disturbances(events)
    decreases |events|
  {
    if events != [] {
      var e := events[0];
      var g := Step(f, e, k);
      assert Proper(e);
      StepKeepsUsual(f, e, k);
      WritesAreBounded(g, events[1..], k);
      if e.SyncBy? {
        if e.namespace in f.operators {
          SyncPaysDebt(f, e.namespace, k);
        }
      } else {
        assert Cost(k) * (1 + Disturbances(events[1..])) == Cost(k) + Cost(k) * Disturbances(events[1..]);
      }
    }
  }

  /** At every point of the run at least two operators are enabled, and nobody deletes the object, be it by hand
      or by replacing it from a template that is used up. */
  ghost predicate Contended(f: Fleet, events: seq<Event>, k: Key)
    decreases |events|
  {
    && |f.EnabledOnes()| >= 2
    && (events != [] ==>
          && Proper(events[0]) && !events[0].Disappear?
          && (events[0].SyncBy? && events[0].namespace in f.operators ==> !UsedUp(f, events[0].namespace, k))
          && Contended(Step(f, events[0], k), events[1..], k))
  }

  function After(f: Fleet, events: seq<Event>, k: Key): Fleet
    decreases |events|
  {
    if events == [] then f else After(Step(f, events[0], k), events[1..], k)
  }

  /** While two or more operators are enabled, an existing object never changes hands. */
  lemma {:induction false} OwnershipNeverMoves(f: Fleet, events: seq<Event>, k: Key)
    requires Usual(f, k) && k in f.store.objects && Contended(f, events, k)
    ensures var g := After(f, events, k);
            && k in g.store.objects
            && Get(g.store.objects[k].annotations, NAMESPACE) == Get(f.store.objects[k].annotations, NAMESPACE)
    decreases |events|
  {
    if events != [] {
      var e := events[0];
      StepKeepsUsual(f, e, k);
      if e.SyncBy? && e.namespace in f.operators {
        SyncedEffect(f, e.namespace, k);
      }
      OwnershipNeverMoves(Step(f, e, k), events[1..], k);
    }
  }

  /** A process never brings back an object it has written before: the template it keeps still carries the
      resourceVersion of that write, and the server refuses to create from it. */
  lemma {:induction false} NeverBroughtBack(f: Fleet, n: string, k: Key, times: nat)
    requires Usual(f, k) && n in f.operators && k !in f.store.objects
    requires f.operators[n].blueprint.version != 0
    ensures k !in After(f, seq(times, _ => SyncBy(n)), k).store.objects
    decreases times
  {
    if times > 0 {
      SyncedEffect(f, n, k);
      assert seq(times, _ => SyncBy(n))[1..] == seq(times - 1, _ => SyncBy(n));
      NeverBroughtBack(Synced(f, n, k), n, k, times - 1);
    }
  }

  /** So it stays away after the process wrote it and someone deleted it, for any number of syncs. */
  lemma {:induction false} WrittenThenDeletedStaysAway(f: Fleet, n: string, k: Key, times: nat)
    requires Usual(f, k) && n in f.operators && Writes(f, SyncBy(n), k)
    ensures k !in After(Step(Step(f, SyncBy(n), k), Disappear, k), seq(times, _ => SyncBy(n)), k).store.objects
  {
    var g := Step(f, SyncBy(n), k);
    SyncedEffect(f, n, k);
    StepKeepsUsual(g, Disappear, k);
    NeverBroughtBack(Step(g, Disappear, k), n, k, times);
  }
}
