/**
 The cluster-wide permissions of a Che installation: three pairs of a cluster role and its binding, each
 guarded by a finalizer on the custom resource, so that they are removed before the resource may go.
 */
module Permissions {
  import opened Cluster
  import Sync
  import Finalizers

  datatype Group = Workspaces | NamespaceEditor | DevWorkspace

  function FinalizerName(g: Group): string {
    match g
    case Workspaces => "cheWorkspaces.clusterpermissions.finalizers.che.eclipse.org"
    case NamespaceEditor => "namespaces-editor.permissions.finalizers.che.eclipse.org"
    case DevWorkspace => "devWorkspace.permissions.finalizers.che.eclipse.org"
  }

  function RoleName(g: Group, namespace: string): string {
    match g
    case Workspaces => namespace + "-cheworkspaces-clusterrole"
    case NamespaceEditor => namespace + "-cheworkspaces-namespaces-clusterrole"
    case DevWorkspace => namespace + "-cheworkspaces-devworkspace-clusterrole"
  }

  function RoleKey(g: Group, cr: Key): Key {
    Key(ClusterRole, "", RoleName(g, cr.namespace))
  }

  function BindingKey(g: Group, cr: Key): Key {
    Key(ClusterRoleBinding, "", RoleName(g, cr.namespace))
  }

  /** The labels and the rule tables, which are constants of the operator. */
  datatype Policies = Policies(labels: Fields, workspaces: Fields, namespaceEditor: Fields, devWorkspace: Fields)
  {
    function Rules(g: Group): Fields {
      match g
      case Workspaces => workspaces
      case NamespaceEditor => namespaceEditor
      case DevWorkspace => devWorkspace
    }
  }

  function RoleSpec(g: Group, cr: Key, p: Policies): Obj {
    Obj(p.Rules(g), p.labels, map["che.eclipse.org/namespace" := cr.namespace], None, [], false, 0)
  }

  function BindingSpec(g: Group, cr: Key, p: Policies): Obj {
    Obj(map["roleRef" := RoleName(g, cr.namespace), "subject" := cr.namespace + "/che"],
        p.labels, map["che.eclipse.org/namespace" := cr.namespace], None, [], false, 0)
  }

  /** The world and in-memory custom resource after a call, whether the caller goes on, and the error. */
  datatype Turn = Turn(w: World, cr: Obj, done: bool, error: Option<Error>)

  /** Syncs a role or a binding. */
  function Granting(w: World, cr: Obj, k: Key, bp: Obj): (o: Sync.Outcome)
    ensures o.w.rely == w.rely && o.w.misreads == w.misreads
  {
    Sync.Syncing(w, cr.deleting, k, bp, Sync.IgnoreMeta)
  }

  function Delegating(w: World, cr: Obj, g: Group, p: Policies): (t: Turn)
    ensures t.w.rely == w.rely
  {
    var role := Granting(w, cr, RoleKey(g, w.rely.cr), RoleSpec(g, w.rely.cr, p));
    if !role.done then Turn(role.w, cr, false, role.error)
    else
      var binding := Granting(role.w, cr, BindingKey(g, w.rely.cr), BindingSpec(g, w.rely.cr, p));
      if !binding.done then Turn(binding.w, cr, false, binding.error)
      else
        var o := Finalizers.Appending(binding.w, cr, FinalizerName(g));
        Turn(o.w, o.cr, o.error.None?, o.error)
  }

  function Removing(w: World, cr: Obj, g: Group): (t: Turn)
    ensures t.w.rely == w.rely
  {
    var (w1, roleDone, roleError) := Sync.Deleting(w, RoleKey(g, w.rely.cr), false);
    if !roleDone then Turn(w1, cr, false, roleError)
    else
      var (w2, bindingDone, bindingError) := Sync.Deleting(w1, BindingKey(g, w.rely.cr), false);
      if !bindingDone then Turn(w2, cr, false, bindingError)
      else
        var o := Finalizers.Dropping(w2, cr, FinalizerName(g));
        Turn(o.w, o.cr, o.error.None?, o.error)
  }

  function DelegatingAll(w: World, cr: Obj, p: Policies): (t: Turn)
    ensures t.w.rely == w.rely
  {
    var t1 := Delegating(w, cr, Workspaces, p);
    if !t1.done then t1
    else
      var t2 := Delegating(t1.w, t1.cr, NamespaceEditor, p);
      if !t2.done then t2 else Delegating(t2.w, t2.cr, DevWorkspace, p)
  }

  function ReconcilingFinalizers(w: World, cr: Obj): (t: Turn)
    ensures t.w.rely == w.rely
  {
    if !cr.deleting then Turn(w, cr, true, None)
    else
      var t1 := Removing(w, cr, NamespaceEditor);
      if !t1.done then t1
      else
        var t2 := Removing(t1.w, t1.cr, DevWorkspace);
        if !t2.done then t2 else Removing(t2.w, t2.cr, Workspaces)
  }

  // ---------- whole runs ----------

  /** Anything else a reconcile does to the custom resource: it stores a new spec or the status, edits a
      finalizer in a loop or in one attempt, or reads the resource anew. */
  datatype OwnEdit =
    | StoreSpec(spec: Fields)
    | StoreStatus
    | EditFinalizer(edit: Finalizers.Edit)
    | EditOnce(edit: Finalizers.Edit)
    | Reload

  /** One attempt to store the resource as it is in memory. */
  function Storing(w: World, cr: Obj): (t: Turn)
    ensures t.w.rely == w.rely && t.w.misreads == w.misreads
  {
    var (w1, reply) := CallUpdate(w, w.rely.cr, cr);
    if reply.Ok? then Turn(w1, reply.obj, true, None) else Turn(w1, cr, false, Some(reply.error))
  }

  function StoringStatus(w: World, cr: Obj): (t: Turn)
    ensures t.w.rely == w.rely && t.w.misreads == w.misreads
  {
    var (w1, reply) := CallUpdateStatus(w, w.rely.cr, cr);
    if reply.Ok? then Turn(w1, reply.obj, true, None) else Turn(w1, cr, false, Some(reply.error))
  }

  function Reloading(w: World, cr: Obj): (t: Turn)
    ensures t.w.rely == w.rely && t.w.misreads == w.misreads
  {
    var (w1, reply) := CallGet(w, w.rely.cr, true);
    if reply.Ok? then Turn(w1, reply.obj, true, None) else Turn(w1, cr, false, Some(reply.error))
  }

  function Apply(w: World, cr: Obj, e: OwnEdit): (t: Turn)
    ensures t.w.rely == w.rely && t.w.misreads == w.misreads
  {
    match e
    case StoreSpec(spec) => Storing(w, cr.(spec := spec))
    case StoreStatus => StoringStatus(w, cr)
    case EditFinalizer(Add(f)) =>
      var o := Finalizers.Appending(w, cr, f);
      Turn(o.w, o.cr, o.error.None?, o.error)
    case EditFinalizer(Drop(f)) =>
      var o := Finalizers.Dropping(w, cr, f);
      Turn(o.w, o.cr, o.error.None?, o.error)
    case EditOnce(edit) => Storing(w, Finalizers.Edited(cr, edit))
    case Reload => Reloading(w, cr)
  }

  function ApplyAll(w: World, cr: Obj, edits: seq<OwnEdit>): Turn
    decreases |edits|
  {
    if edits == [] then Turn(w, cr, true, None)
    else
      var t := Apply(w, cr, edits[0]);
      ApplyAll(t.w, t.cr, edits[1..])
  }

  /** One reconcile: what else it writes before and between the two permission steps, and whether it returns
      before reaching the second. */
  datatype Pass = Pass(before: seq<OwnEdit>, between: seq<OwnEdit>, returnsEarly: bool)

  function Reconciling(w: World, pass: Pass, p: Policies): World {
    var (w1, read) := CallGet(w, w.rely.cr, true);
    if read.Failed? then w1
    else
      var t1 := ApplyAll(w1, read.obj, pass.before);
      var t2 := ReconcilingFinalizers(t1.w, t1.cr);
      var t3 := ApplyAll(t2.w, t2.cr, pass.between);
      if pass.returnsEarly then t3.w else DelegatingAll(t3.w, t3.cr, p).w
  }

  function Run(w: World, passes: seq<Pass>, p: Policies): World
    decreases |passes|
  {
    if passes == [] then w else Run(Reconciling(w, passes[0], p), passes[1..], p)
  }

  // ---------- safety ----------

  predicate Holds(objects: map<Key, Obj>, cr: Key, g: Group) {
    cr in objects && FinalizerName(g) in objects[cr].finalizers
  }

  /** Whatever is left of the group was taken for absent, because the read before its own deletion had
      failed. */
  predicate Excused(objects: map<Key, Obj>, misreads: set<Key>, cr: Key, g: Group) {
    && (RoleKey(g, cr) in objects ==> RoleKey(g, cr) in misreads)
    && (BindingKey(g, cr) in objects ==> BindingKey(g, cr) in misreads)
  }

  /** Once the finalizer of a group was stored, any later state without it (or without the resource) has
      neither the role nor the binding, but for one whose own read had failed. */
  ghost predicate Safe(history: seq<map<Key, Obj>>, misreads: set<Key>, cr: Key, g: Group) {
    forall a, b | 0 <= a < b < |history| && Holds(history[a], cr, g) && !Holds(history[b], cr, g) ::
      Excused(history[b], misreads, cr, g)
  }

  ghost predicate Ever(history: seq<map<Key, Obj>>, cr: Key, g: Group) {
    exists a | 0 <= a < |history| :: Holds(history[a], cr, g)
  }

  ghost predicate Lost(w: World, g: Group) {
    Ever(w.history, w.rely.cr, g) && !Holds(w.store.objects, w.rely.cr, g)
  }

  /** Neither the server nor the cache can show the custom resource as live any more. */
  predicate Terminal(s: Store, cr: Key) {
    && (cr in s.objects ==> s.objects[cr].deleting)
    && (cr in s.cache ==> s.cache[cr].deleting)
  }

  /** Nobody else touches the roles, the bindings and the three finalizers, and nobody re-creates the custom
      resource. */
  ghost predicate LeftAlone(w: World) {
    && w.rely.pinned
    && w.rely.cr.namespace != ""
    && (forall g: Group :: RoleKey(g, w.rely.cr) in w.rely.owned && BindingKey(g, w.rely.cr) in w.rely.owned
                           && FinalizerName(g) in w.rely.finalizers)
  }

  predicate Plain(objects: map<Key, Obj>, k: Key) {
    k in objects ==> objects[k].finalizers == []
  }

  ghost predicate Fit(s: Store, cr: Key) {
    && Coherent(s)
    && (forall g: Group :: Plain(s.objects, RoleKey(g, cr)) && Plain(s.objects, BindingKey(g, cr)))
    && (cr in s.cache && s.cache[cr].deleting ==> Terminal(s, cr))
  }

  ghost predicate StoreInv(w: World) {
    && LeftAlone(w)
    && Fit(w.store, w.rely.cr)
    && w.history != [] && w.history[|w.history| - 1] == w.store.objects
    && (forall g: Group :: Safe(w.history, w.misreads, w.rely.cr, g))
    && (forall g: Group :: Lost(w, g) ==>
          Excused(w.store.objects, w.misreads, w.rely.cr, g) && Terminal(w.store, w.rely.cr))
  }

  /** How the in-memory resource relates to the cluster. It may lack a stored finalizer of ours although it
      carries the stored version (a failed removal leaves it so), but only when role and binding are gone or
      were misread. */
  ghost predicate MemInv(w: World, cr: Obj) {
    && cr.version <= w.store.clock
    && (cr.deleting ==> Terminal(w.store, w.rely.cr))
    && (forall g: Group :: Lost(w, g) ==> cr.deleting)
    && (w.rely.cr in w.store.objects && w.store.objects[w.rely.cr].version == cr.version ==>
          && w.store.objects[w.rely.cr].deleting == cr.deleting
          && forall g: Group ::
              Holds(w.store.objects, w.rely.cr, g) && FinalizerName(g) !in cr.finalizers ==>
                cr.deleting && Excused(w.store.objects, w.misreads, w.rely.cr, g))
  }

  ghost predicate Inv(w: World, cr: Obj) {
    StoreInv(w) && MemInv(w, cr)
  }

  lemma EverExtends(history: seq<map<Key, Obj>>, next: map<Key, Obj>, cr: Key, g: Group)
    ensures Ever(history + [next], cr, g) <==> Ever(history, cr, g) || Holds(next, cr, g)
  {
    var h := history + [next];
    if Ever(history, cr, g) {
      var a :| 0 <= a < |history| && Holds(history[a], cr, g);
      assert h[a] == history[a];
    }
    if Holds(next, cr, g) {
      assert h[|history|] == next;
    }
  }

  lemma SafeExtends(history: seq<map<Key, Obj>>, next: map<Key, Obj>, misreads: set<Key>, cr: Key, g: Group)
    requires Safe(history, misreads, cr, g)
    requires Ever(history, cr, g) && !Holds(next, cr, g) ==> Excused(next, misreads, cr, g)
    ensures Safe(history + [next], misreads, cr, g)
  {
    var h := history + [next];
    forall a, b | 0 <= a < b < |h| && Holds(h[a], cr, g) && !Holds(h[b], cr, g)
      ensures Excused(h[b], misreads, cr, g)
    {
      assert h[a] == history[a];
      if b < |history| {
        assert h[b] == history[b];
      }
    }
  }

  // ---------- one step ----------

  ghost predicate GoodStep(w: World, s: Store) {
    && Fit(s, w.rely.cr)
    && (forall g: Group :: Ever(w.history, w.rely.cr, g) && !Holds(s.objects, w.rely.cr, g) ==>
          Excused(s.objects, w.misreads, w.rely.cr, g) && Terminal(s, w.rely.cr))
  }

  lemma MovedKeeps(w: World, s: Store)
    requires StoreInv(w) && GoodStep(w, s)
    ensures StoreInv(Moved(w, s))
    ensures forall g: Group ::
              Lost(Moved(w, s), g) <==> Ever(w.history, w.rely.cr, g) && !Holds(s.objects, w.rely.cr, g)
  {
    if s.objects != w.store.objects {
      forall g: Group {
        EverExtends(w.history, s.objects, w.rely.cr, g);
      }
      forall g: Group ensures Safe(w.history + [s.objects], w.misreads, w.rely.cr, g) {
        SafeExtends(w.history, s.objects, w.misreads, w.rely.cr, g);
      }
    }
  }

  /** A step that adds no role or binding, keeps our finalizers as they are, and never makes a custom
      resource live again. */
  ghost predicate Harmless(cr: Key, s: Store, t: Store) {
    && (forall g: Group :: Holds(s.objects, cr, g) <==> Holds(t.objects, cr, g))
    && (forall g: Group, k | k == RoleKey(g, cr) || k == BindingKey(g, cr) ::
          k in t.objects ==> k in s.objects && (t.objects[k] == s.objects[k] || t.objects[k].finalizers == []))
    && (cr in t.objects ==>
          && cr in s.objects
          && (s.objects[cr].deleting ==> t.objects[cr].deleting)
          && (t.objects[cr] == s.objects[cr] || t.objects[cr].version > s.clock))
    && (cr in t.cache ==>
          || (cr in s.cache && t.cache[cr] == s.cache[cr])
          || (cr in t.objects && t.cache[cr] == t.objects[cr]))
  }

  lemma {:induction false} HarmlessFits(w: World, s: Store)
    requires StoreInv(w) && Advances(w.store, s) && Harmless(w.rely.cr, w.store, s)
    ensures GoodStep(w, s)
    ensures Terminal(w.store, w.rely.cr) ==> Terminal(s, w.rely.cr)
  {
    var cr := w.rely.cr;
    forall g: Group ensures Plain(s.objects, RoleKey(g, cr)) && Plain(s.objects, BindingKey(g, cr)) {
      assert Plain(w.store.objects, RoleKey(g, cr)) && Plain(w.store.objects, BindingKey(g, cr));
    }
    forall g: Group | Ever(w.history, cr, g) && !Holds(s.objects, cr, g)
      ensures Excused(s.objects, w.misreads, cr, g) && Terminal(s, cr)
    {
      assert Lost(w, g);
    }
  }

  lemma {:induction false} HarmlessKeeps(w: World, cr: Obj, s: Store)
    requires Inv(w, cr) && Advances(w.store, s) && Harmless(w.rely.cr, w.store, s)
    ensures Inv(Moved(w, s), cr)
  {
    HarmlessFits(w, s);
    MovedKeeps(w, s);
    var v := Moved(w, s);
    forall g: Group | Lost(v, g) ensures cr.deleting {
      assert Lost(w, g);
    }
  }

  lemma OwnedAreOurs(w: World)
    requires LeftAlone(w)
    ensures forall g: Group :: RoleKey(g, w.rely.cr) in w.rely.owned && BindingKey(g, w.rely.cr) in w.rely.owned
  {
  }

  lemma InstallIsHarmless(w: World, k: Key, o: Obj)
    requires LeftAlone(w) && k !in w.rely.owned
    requires k == w.rely.cr ==>
               && k in w.store.objects
               && (w.store.objects[k].deleting ==> o.deleting)
               && forall g: Group :: FinalizerName(g) in o.finalizers
                   <==> FinalizerName(g) in w.store.objects[k].finalizers
    ensures Harmless(w.rely.cr, w.store, Install(w.store, k, o))
  {
    OwnedAreOurs(w);
  }

  lemma VanishIsHarmless(w: World, k: Key)
    requires LeftAlone(w) && k !in w.rely.owned
    requires k == w.rely.cr ==> forall g: Group :: !Holds(w.store.objects, k, g)
    ensures Harmless(w.rely.cr, w.store, Vanish(w.store, k))
  {
    OwnedAreOurs(w);
  }

  lemma WriteIsHarmless(w: World, k: Key, o: Obj)
    requires LeftAlone(w) && Permitted(w.rely, w.store, Write(k, o))
    ensures Harmless(w.rely.cr, w.store, Interfered(w.rely, w.store, Write(k, o)))
  {
    if k in w.store.objects {
      var current := w.store.objects[k];
      var next := o.(deleting := current.deleting, version := current.version);
      if Updated(w.store, k, o.(version := current.version)).1.Ok? {
        if current.deleting && o.finalizers == [] {
          VanishIsHarmless(w, k);
        } else {
          InstallIsHarmless(w, k, next);
        }
      }
    } else {
      InstallIsHarmless(w, k, o.(deleting := false, version := 0));
    }
  }

  lemma RemoveIsHarmless(w: World, k: Key)
    requires LeftAlone(w) && Permitted(w.rely, w.store, Remove(k))
    ensures Harmless(w.rely.cr, w.store, Interfered(w.rely, w.store, Remove(k)))
  {
    if k in w.store.objects {
      if w.store.objects[k].finalizers == [] {
        VanishIsHarmless(w, k);
      } else {
        InstallIsHarmless(w, k, w.store.objects[k].(deleting := true));
      }
    }
  }

  lemma InterferenceIsHarmless(w: World, e: EnvStep)
    requires StoreInv(w)
    ensures Harmless(w.rely.cr, w.store, Interfered(w.rely, w.store, e))
  {
    if Permitted(w.rely, w.store, e) {
      match e
      case Write(k, o) => WriteIsHarmless(w, k, o);
      case Remove(k) => RemoveIsHarmless(w, k);
      case _ =>
    }
  }

  lemma ScriptKeeps(w: World, cr: Obj, script: seq<EnvStep>)
    requires Inv(w, cr)
    ensures Inv(w.(script := script), cr)
  {
    var v := w.(script := script);
    forall g: Group ensures Lost(v, g) <==> Lost(w, g) {
    }
  }

  /** Roles and bindings that are gone stay gone. */
  ghost predicate StillAbsent(s: Store, t: Store, cr: Key) {
    forall g: Group ::
      && (RoleKey(g, cr) !in s.objects ==> RoleKey(g, cr) !in t.objects)
      && (BindingKey(g, cr) !in s.objects ==> BindingKey(g, cr) !in t.objects)
  }

  lemma HarmlessAbsent(cr: Key, s: Store, t: Store)
    requires Harmless(cr, s, t)
    ensures StillAbsent(s, t, cr)
  {
  }

  lemma CatchUpKeeps(w: World, cr: Obj)
    requires Inv(w, cr)
    ensures Inv(w.(store := w.store.(cache := w.store.objects)), cr)
  {
    var s := w.store.(cache := w.store.objects);
    assert Harmless(w.rely.cr, w.store, s);
    assert Advances(w.store, s);
    HarmlessKeeps(w, cr, s);
    assert Moved(w, s) == w.(store := s);
  }

  lemma InterferenceKeeps(w: World, cr: Obj, e: EnvStep)
    requires Inv(w, cr)
    ensures Inv(Moved(w, Interfered(w.rely, w.store, e)), cr)
    ensures StillAbsent(w.store, Interfered(w.rely, w.store, e), w.rely.cr)
  {
    var s := Interfered(w.rely, w.store, e);
    InterferedStep(w.rely, w.store, e);
    InterferenceIsHarmless(w, e);
    HarmlessKeeps(w, cr, s);
    HarmlessAbsent(w.rely.cr, w.store, s);
  }

  lemma {:induction false} SettleKeeps(w: World, cr: Obj)
    requires Inv(w, cr)
    ensures Inv(Settle(w).0, cr) && StillAbsent(w.store, Settle(w).0.store, w.rely.cr)
    decreases |w.script|
  {
    if w.script == [] {
      CatchUpKeeps(w, cr);
    } else {
      var e := w.script[0];
      var rest := w.(script := w.script[1..]);
      ScriptKeeps(w, cr, w.script[1..]);
      if e.Write? || e.Remove? || e.Refresh? {
        InterferenceKeeps(rest, cr, e);
        SettleKeeps(Moved(rest, Interfered(w.rely, w.store, e)), cr);
      }
    }
  }

  lemma WrittenKeeps(w: World, v: World, cr: Obj)
    requires Inv(w, cr) && v == w.(writes := v.writes)
    ensures Inv(v, cr)
  {
    ScriptKeeps(w, cr, w.script);
    forall g: Group ensures Lost(v, g) <==> Lost(w, g) {
    }
  }

  /** What a write call does to the invariant is what its store step does. */
  lemma WroteKeeps(settled: (World, Fault), k: Key, result: (Store, Reply), cr: Obj)
    requires Inv(Moved(settled.0, result.0), cr) && (settled.1 == OnWrite(false) ==> Inv(settled.0, cr))
    ensures Inv(Wrote(settled, k, result).0, cr)
  {
    var v := Wrote(settled, k, result).0;
    if !(settled.1.OnWrite? && !settled.1.applied) {
      WrittenKeeps(Moved(settled.0, result.0), v, cr);
    }
  }

  lemma ReadKeeps(w: World, cr: Obj, k: Key, cached: bool)
    requires Inv(w, cr)
    ensures var (w1, reply) := CallGet(w, k, cached);
            && Inv(w1, cr)
            && StillAbsent(w.store, w1.store, w.rely.cr)
            && (!cached && reply == Failed(NotFound) ==> k !in w1.store.objects)
            && (reply.Ok? && cached && k == w.rely.cr ==> Inv(w1, reply.obj))
  {
    SettleKeeps(w, cr);
    var (w1, reply) := CallGet(w, k, cached);
    if reply.Ok? && cached && k == w.rely.cr {
      assert Known(w1.store, k, w1.store.cache[k]);
    }
  }

  ghost predicate IsOurs(k: Key, cr: Key) {
    exists g: Group :: k == RoleKey(g, cr) || k == BindingKey(g, cr)
  }

  /** Storing a role or a binding is safe while the in-memory resource is live: then no group is lost. */
  lemma GrantKeeps(w: World, cr: Obj, k: Key, s: Store)
    requires Inv(w, cr) && !cr.deleting && IsOurs(k, w.rely.cr)
    requires Advances(w.store, s) && s.cache == w.store.cache
    requires s.objects == w.store.objects
        || (k in s.objects && s.objects - {k} == w.store.objects - {k} && s.objects[k].finalizers == [])
    ensures Inv(Moved(w, s), cr)
  {
    var key := w.rely.cr;
    assert key != k;
    assert key in s.objects <==> key in s.objects - {k};
    assert key in w.store.objects <==> key in w.store.objects - {k};
    if key in s.objects {
      assert s.objects[key] == (s.objects - {k})[key] == w.store.objects[key];
    }
    forall g: Group, x | x == RoleKey(g, key) || x == BindingKey(g, key) ensures Plain(s.objects, x) {
      assert Plain(w.store.objects, x);
      if x != k && x in s.objects {
        assert x in s.objects - {k};
        assert s.objects[x] == (s.objects - {k})[x];
      }
    }
    forall g: Group ensures !(Ever(w.history, key, g) && !Holds(s.objects, key, g)) {
      assert !Lost(w, g);
    }
    MovedKeeps(w, s);
  }

  lemma CreatedKeeps(w: World, cr: Obj, k: Key, o: Obj)
    requires Inv(w, cr) && !cr.deleting && IsOurs(k, w.rely.cr) && o.finalizers == []
    ensures Inv(Moved(w, Created(w.store, k, o).0), cr)
  {
    if Created(w.store, k, o).1.Ok? {
      InstallStep(w.store, k, o.(deleting := false));
      GrantKeeps(w, cr, k, Install(w.store, k, o.(deleting := false)));
    }
  }

  lemma {:induction false} VanishKeeps(w: World, cr: Obj, k: Key)
    requires Inv(w, cr) && IsOurs(k, w.rely.cr)
    ensures Inv(Moved(w, Vanish(w.store, k)), cr) && StillAbsent(w.store, Vanish(w.store, k), w.rely.cr)
  {
    VanishStep(w.store, k);
    HarmlessKeeps(w, cr, Vanish(w.store, k));
  }

  lemma {:induction false} UpdatedKeeps(w: World, cr: Obj, k: Key, o: Obj)
    requires Inv(w, cr) && !cr.deleting && IsOurs(k, w.rely.cr) && o.finalizers == []
    ensures Inv(Moved(w, Updated(w.store, k, o).0), cr)
  {
    var (t, reply) := Updated(w.store, k, o);
    if reply.Ok? {
      if w.store.objects[k].deleting {
        VanishKeeps(w, cr, k);
      } else {
        InstallStep(w.store, k, o.(deleting := false));
        GrantKeeps(w, cr, k, t);
      }
    }
  }

  lemma {:induction false} DeletedKeeps(w: World, cr: Obj, k: Key)
    requires Inv(w, cr) && IsOurs(k, w.rely.cr)
    ensures var t := Deleted(w.store, k).0;
            Inv(Moved(w, t), cr) && StillAbsent(w.store, t, w.rely.cr) && k !in t.objects
  {
    assert Plain(w.store.objects, k);
    if k in w.store.objects {
      VanishKeeps(w, cr, k);
    }
  }

  lemma CreateKeeps(w: World, cr: Obj, k: Key, o: Obj)
    requires Inv(w, cr) && !cr.deleting && IsOurs(k, w.rely.cr) && o.finalizers == []
    ensures Inv(CallCreate(w, k, o).0, cr)
  {
    var settled := Settle(w);
    SettleKeeps(w, cr);
    CreatedKeeps(settled.0, cr, k, o);
    WroteKeeps(settled, k, Created(settled.0.store, k, o), cr);
  }

  lemma UpdateKeeps(w: World, cr: Obj, k: Key, o: Obj)
    requires Inv(w, cr) && !cr.deleting && IsOurs(k, w.rely.cr) && o.finalizers == []
    ensures Inv(CallUpdate(w, k, o).0, cr)
  {
    var settled := Settle(w);
    SettleKeeps(w, cr);
    UpdatedKeeps(settled.0, cr, k, o);
    WroteKeeps(settled, k, Updated(settled.0.store, k, o), cr);
  }

  lemma DeleteKeeps(w: World, cr: Obj, k: Key)
    requires Inv(w, cr) && IsOurs(k, w.rely.cr)
    ensures var (w1, reply) := CallDelete(w, k);
            && Inv(w1, cr)
            && StillAbsent(w.store, w1.store, w.rely.cr)
            && (reply.Ok? || reply.error == NotFound ==> k !in w1.store.objects)
  {
    var settled := Settle(w);
    SettleKeeps(w, cr);
    DeletedKeeps(settled.0, cr, k);
    WroteKeeps(settled, k, Deleted(settled.0.store, k), cr);
  }

  // ---------- updates of the custom resource ----------

  /** An update from memory may take one of our finalizers off the resource, but only where `MemInv` says that
      its role and binding are gone or were misread. */
  lemma {:induction false} StoreIsGood(w: World, cr: Obj, s: Store, reply: Reply)
    requires Inv(w, cr) && (s, reply) == Updated(w.store, w.rely.cr, cr) && reply.Ok?
    ensures GoodStep(w, s) && Advances(w.store, s)
    ensures forall g: Group ::
              Ever(w.history, w.rely.cr, g) && !Holds(s.objects, w.rely.cr, g) ==> cr.deleting
  {
    var key := w.rely.cr;
    ServerStep(w.store, key, cr);
    forall g: Group, x | x == RoleKey(g, key) || x == BindingKey(g, key)
      ensures x != key && (x in s.objects <==> x in w.store.objects) && Plain(s.objects, x)
    {
      assert Plain(w.store.objects, x);
    }
    forall g: Group | Ever(w.history, key, g) && !Holds(s.objects, key, g)
      ensures Excused(s.objects, w.misreads, key, g) && Terminal(s, key) && cr.deleting
    {
      if !Holds(w.store.objects, key, g) {
        assert Lost(w, g);
      }
    }
  }

  lemma {:induction false} StoreKeeps(w: World, cr: Obj, s: Store, reply: Reply)
    requires Inv(w, cr) && (s, reply) == Updated(w.store, w.rely.cr, cr) && reply.Ok?
    ensures Inv(Moved(w, s), cr) && Inv(Moved(w, s), reply.obj)
  {
    StoreIsGood(w, cr, s, reply);
    MovedKeeps(w, s);
  }

  /** What becomes of the invariant when a write of the resource got this far. */
  lemma AttemptKeeps(settled: (World, Fault), result: (Store, Reply), cr: Obj)
    requires Inv(settled.0, cr) && Inv(Moved(settled.0, result.0), cr)
    requires result.1.Ok? ==> Inv(Moved(settled.0, result.0), result.1.obj)
    ensures var (w1, reply) := Wrote(settled, settled.0.rely.cr, result);
            Inv(w1, cr) && (reply.Ok? ==> Inv(w1, reply.obj))
  {
    WroteKeeps(settled, settled.0.rely.cr, result, cr);
    if result.1.Ok? && !settled.1.OnWrite? {
      WroteKeeps(settled, settled.0.rely.cr, result, result.1.obj);
    }
  }

  lemma StoringKeeps(w: World, cr: Obj)
    requires Inv(w, cr)
    ensures var (w1, reply) := CallUpdate(w, w.rely.cr, cr);
            && Inv(w1, cr)
            && (reply.Ok? ==> Inv(w1, reply.obj) && reply.obj.deleting == cr.deleting)
  {
    var settled := Settle(w);
    SettleKeeps(w, cr);
    var (s, reply) := Updated(settled.0.store, w.rely.cr, cr);
    if reply.Ok? {
      StoreKeeps(settled.0, cr, s, reply);
    } else {
      assert Moved(settled.0, s) == settled.0;
    }
    AttemptKeeps(settled, (s, reply), cr);
  }

  lemma StoringAddsNothing(w: World, cr: Obj)
    requires Inv(w, cr)
    ensures StillAbsent(w.store, CallUpdate(w, w.rely.cr, cr).0.store, w.rely.cr)
  {
    var s := Settle(w).0.store;
    SettleKeeps(w, cr);
    assert forall k | k != w.rely.cr :: k !in s.objects ==> k !in Updated(s, w.rely.cr, cr).0.objects;
  }

  /** An edit that does not take one of our finalizers off before its role and binding are gone or were
      misread. */
  ghost predicate Allowed(w: World, cr: Obj, e: Finalizers.Edit) {
    forall g: Group | e == Finalizers.Drop(FinalizerName(g)) ::
      cr.deleting && Excused(w.store.objects, w.misreads, w.rely.cr, g)
  }

  lemma EditKeeps(w: World, cr: Obj, e: Finalizers.Edit)
    requires Inv(w, cr) && Allowed(w, cr, e)
    ensures Inv(w, Finalizers.Edited(cr, e))
  {
    if e.Drop? {
      forall g: Group
        ensures FinalizerName(g) in Finalizers.Without(cr.finalizers, e.finalizer)
                <==> FinalizerName(g) in cr.finalizers && FinalizerName(g) != e.finalizer
      {
        Finalizers.WithoutContains(cr.finalizers, e.finalizer, FinalizerName(g));
      }
    }
  }

  lemma {:induction false} RetryingKeeps(w: World, cr: Obj, e: Finalizers.Edit)
    requires Inv(w, cr) && Allowed(w, cr, e)
    ensures var o := Finalizers.Retrying(w, cr, e); Inv(o.w, o.cr) && (cr.deleting ==> o.cr.deleting)
    decreases |w.script|, Finalizers.Staleness(w, cr)
  {
    var edited := Finalizers.Edited(cr, e);
    var (w1, reply) := CallUpdate(w, w.rely.cr, edited);
    EditKeeps(w, cr, e);
    StoringKeeps(w, edited);
    StoringAddsNothing(w, edited);
    if reply == Failed(Conflict) {
      var (w2, reloaded) := CallGet(w1, w.rely.cr, true);
      ReadKeeps(w1, edited, w.rely.cr, true);
      if reloaded.Ok? {
        RetryingKeeps(w2, reloaded.obj, e);
      }
    }
  }

  // ---------- the calls of a reconcile ----------

  lemma CreatingKeeps(w: World, cr: Obj, k: Key, bp: Obj)
    requires Inv(w, cr) && IsOurs(k, w.rely.cr) && bp.finalizers == []
    ensures Inv(Sync.Creating(w, cr.deleting, k, bp, false).w, cr)
  {
    if !cr.deleting {
      assert k.namespace != w.rely.cr.namespace;
      CreateKeeps(w, cr, k, bp);
    }
  }

  lemma PatchingKeeps(w: World, cr: Obj, k: Key, merged: Obj, version: nat)
    requires Inv(w, cr) && !cr.deleting && IsOurs(k, w.rely.cr) && merged.finalizers == []
    ensures Inv(Sync.Patching(w, k, merged, version).w, cr)
  {
    assert k.namespace != w.rely.cr.namespace;
    UpdateKeeps(w, cr, k, merged.(version := version));
  }

  lemma UpdatingKeeps(w: World, cr: Obj, k: Key, actual: Obj, bp: Obj)
    requires Inv(w, cr) && IsOurs(k, w.rely.cr) && bp.finalizers == []
    ensures Inv(Sync.Updating(w, cr.deleting, k, actual, bp, Sync.IgnoreMeta).w, cr)
  {
    if !cr.deleting && Sync.Differs(actual, bp, Sync.IgnoreMeta) {
      PatchingKeeps(w, cr, k, Sync.Overlay(actual, bp), actual.version);
    }
  }

  lemma SyncingKeeps(w: World, cr: Obj, k: Key, bp: Obj)
    requires Inv(w, cr) && IsOurs(k, w.rely.cr) && bp.finalizers == []
    ensures Inv(Granting(w, cr, k, bp).w, cr)
  {
    var cached := Sync.ReadsFromCache(w.rely.cr, k);
    var (w1, found) := CallGet(w, k, cached);
    ReadKeeps(w, cr, k, cached);
    if found.Ok? {
      UpdatingKeeps(w1, cr, k, found.obj, bp);
    } else {
      CreatingKeeps(w1, cr, k, bp);
    }
  }

  /** Misreads are never forgotten, and one more only excuses more. */
  lemma MisreadKeeps(w: World, cr: Obj, k: Key)
    requires Inv(w, cr)
    ensures Inv(w.(misreads := w.misreads + {k}), cr)
  {
    var v := w.(misreads := w.misreads + {k});
    forall g: Group ensures Safe(v.history, v.misreads, v.rely.cr, g) && (Lost(v, g) <==> Lost(w, g)) {
      assert Safe(w.history, w.misreads, w.rely.cr, g);
    }
  }

  lemma DeletingKeeps(w: World, cr: Obj, k: Key)
    requires Inv(w, cr) && IsOurs(k, w.rely.cr)
    ensures var (w1, done, _) := Sync.Deleting(w, k, false);
            && Inv(w1, cr)
            && w.misreads <= w1.misreads
            && (done ==> k !in w1.store.objects || k in w1.misreads)
            && StillAbsent(w.store, w1.store, w.rely.cr)
  {
    ReadKeeps(w, cr, k, false);
    var (w1, found) := CallGet(w, k, false);
    if found.Ok? {
      DeleteKeeps(w1, cr, k);
    } else {
      MisreadKeeps(w1, cr, k);
    }
  }

  lemma AppendingKeeps(w: World, cr: Obj, f: string)
    requires Inv(w, cr)
    ensures var o := Finalizers.Appending(w, cr, f); Inv(o.w, o.cr)
  {
    RetryingKeeps(w, cr, Finalizers.Add(f));
  }

  lemma DroppingKeeps(w: World, cr: Obj, f: string)
    requires Inv(w, cr) && Allowed(w, cr, Finalizers.Drop(f))
    ensures var o := Finalizers.Dropping(w, cr, f); Inv(o.w, o.cr) && (cr.deleting ==> o.cr.deleting)
  {
    RetryingKeeps(w, cr, Finalizers.Drop(f));
  }

  lemma DelegatingIs(w: World, cr: Obj, g: Group, p: Policies)
    ensures var key := w.rely.cr;
            var role := Granting(w, cr, RoleKey(g, key), RoleSpec(g, key, p));
            var binding := Granting(role.w, cr, BindingKey(g, key), BindingSpec(g, key, p));
            var o := Finalizers.Appending(binding.w, cr, FinalizerName(g));
            Delegating(w, cr, g, p) == if !role.done then Turn(role.w, cr, false, role.error)
                                       else if !binding.done then Turn(binding.w, cr, false, binding.error)
                                       else Turn(o.w, o.cr, o.error.None?, o.error)
  {
  }

  lemma DelegatingKeeps(w: World, cr: Obj, g: Group, p: Policies)
    requires Inv(w, cr)
    ensures var t := Delegating(w, cr, g, p); Inv(t.w, t.cr)
  {
    var key := w.rely.cr;
    DelegatingIs(w, cr, g, p);
    SyncingKeeps(w, cr, RoleKey(g, key), RoleSpec(g, key, p));
    var w1 := Granting(w, cr, RoleKey(g, key), RoleSpec(g, key, p)).w;
    SyncingKeeps(w1, cr, BindingKey(g, key), BindingSpec(g, key, p));
    var w2 := Granting(w1, cr, BindingKey(g, key), BindingSpec(g, key, p)).w;
    AppendingKeeps(w2, cr, FinalizerName(g));
  }

  lemma FinalizersDiffer(g: Group, h: Group)
    ensures FinalizerName(g) == FinalizerName(h) ==> g == h
  {
    assert |FinalizerName(Workspaces)| == 59;
    assert |FinalizerName(NamespaceEditor)| == 56;
    assert |FinalizerName(DevWorkspace)| == 51;
  }

  lemma AllowedOnceGone(w: World, cr: Obj, g: Group)
    requires cr.deleting && Excused(w.store.objects, w.misreads, w.rely.cr, g)
    ensures Allowed(w, cr, Finalizers.Drop(FinalizerName(g)))
  {
    forall h: Group ensures FinalizerName(g) == FinalizerName(h) ==> g == h {
      FinalizersDiffer(g, h);
    }
  }

  lemma RemovingKeeps(w: World, cr: Obj, g: Group)
    requires Inv(w, cr) && cr.deleting
    ensures var t := Removing(w, cr, g); Inv(t.w, t.cr) && t.cr.deleting
  {
    var key := w.rely.cr;
    DeletingKeeps(w, cr, RoleKey(g, key));
    var (w1, roleDone, _) := Sync.Deleting(w, RoleKey(g, key), false);
    if roleDone {
      DeletingKeeps(w1, cr, BindingKey(g, key));
      var (w2, bindingDone, _) := Sync.Deleting(w1, BindingKey(g, key), false);
      if bindingDone {
        AllowedOnceGone(w2, cr, g);
        DroppingKeeps(w2, cr, FinalizerName(g));
      }
    }
  }

  lemma {:induction false} ApplyAllKeeps(w: World, cr: Obj, edits: seq<OwnEdit>)
    requires Inv(w, cr) && forall e | e in edits :: Others(e)
    ensures var t := ApplyAll(w, cr, edits); t.w.rely == w.rely && Inv(t.w, t.cr)
    decreases |edits|
  {
    if edits != [] {
      var t := Apply(w, cr, edits[0]);
      assert Others(edits[0]);
      ApplyKeeps(w, cr, edits[0]);
      ApplyAllKeeps(t.w, t.cr, edits[1..]);
    }
  }

  /** The reconcile's other writes take none of our finalizers off. */
  ghost predicate Others(e: OwnEdit) {
    forall g: Group ::
      e != EditFinalizer(Finalizers.Drop(FinalizerName(g))) && e != EditOnce(Finalizers.Drop(FinalizerName(g)))
  }

  ghost predicate OthersOnly(pass: Pass) {
    (forall e | e in pass.before :: Others(e)) && (forall e | e in pass.between :: Others(e))
  }

  /** An update of the status is harmless: it leaves the stored resource as it is and brings memory up to it. */
  lemma StoringStatusKeeps(w: World, cr: Obj)
    requires Inv(w, cr)
    ensures var t := StoringStatus(w, cr); Inv(t.w, t.cr)
  {
    var settled := Settle(w);
    SettleKeeps(w, cr);
    var (s, reply) := StatusUpdated(settled.0.store, w.rely.cr, cr);
    if reply.Ok? {
      StatusKeeps(settled.0, cr, s, reply);
    } else {
      assert Moved(settled.0, s) == settled.0;
    }
    AttemptKeeps(settled, (s, reply), cr);
  }

  lemma StatusKeeps(w: World, cr: Obj, s: Store, reply: Reply)
    requires Inv(w, cr) && (s, reply) == StatusUpdated(w.store, w.rely.cr, cr) && reply.Ok?
    ensures Inv(Moved(w, s), cr) && Inv(Moved(w, s), reply.obj)
  {
    StatusStep(w.store, w.rely.cr, cr);
    OwnedAreOurs(w);
    assert Harmless(w.rely.cr, w.store, s);
    HarmlessKeeps(w, cr, s);
  }

  lemma ApplyKeeps(w: World, cr: Obj, e: OwnEdit)
    requires Inv(w, cr) && Others(e)
    ensures var t := Apply(w, cr, e); Inv(t.w, t.cr)
  {
    match e
    case StoreSpec(spec) =>
      assert MemInv(w, cr.(spec := spec));
      StoringKeeps(w, cr.(spec := spec));
    case StoreStatus =>
      StoringStatusKeeps(w, cr);
    case EditOnce(edit) =>
      EditKeeps(w, cr, edit);
      StoringKeeps(w, Finalizers.Edited(cr, edit));
    case Reload =>
      ReadKeeps(w, cr, w.rely.cr, true);
    case EditFinalizer(Add(f)) =>
      AppendingKeeps(w, cr, f);
    case EditFinalizer(Drop(f)) =>
      DroppingKeeps(w, cr, f);
  }

  lemma ReconcilingFinalizersKeeps(w: World, cr: Obj)
    requires Inv(w, cr)
    ensures var t := ReconcilingFinalizers(w, cr); Inv(t.w, t.cr)
  {
    if cr.deleting {
      RemovingKeeps(w, cr, NamespaceEditor);
      var t1 := Removing(w, cr, NamespaceEditor);
      RemovingKeeps(t1.w, t1.cr, DevWorkspace);
      var t2 := Removing(t1.w, t1.cr, DevWorkspace);
      RemovingKeeps(t2.w, t2.cr, Workspaces);
    }
  }

  lemma DelegatingAllKeeps(w: World, cr: Obj, p: Policies)
    requires Inv(w, cr)
    ensures var t := DelegatingAll(w, cr, p); Inv(t.w, t.cr)
  {
    DelegatingKeeps(w, cr, Workspaces, p);
    var t1 := Delegating(w, cr, Workspaces, p);
    DelegatingKeeps(t1.w, t1.cr, NamespaceEditor, p);
    var t2 := Delegating(t1.w, t1.cr, NamespaceEditor, p);
    DelegatingKeeps(t2.w, t2.cr, DevWorkspace, p);
  }

  /** Between two reconciles there is no in-memory resource; this one stands for none. */
  function NoCopy(w: World): Obj {
    NOTHING.(deleting := Terminal(w.store, w.rely.cr))
  }

  lemma {:induction false} ReconcilingKeeps(w: World, pass: Pass, p: Policies)
    requires StoreInv(w) && OthersOnly(pass)
    ensures StoreInv(Reconciling(w, pass, p)) && Reconciling(w, pass, p).rely == w.rely
  {
    var cr := NoCopy(w);
    assert Inv(w, cr);
    ReadKeeps(w, cr, w.rely.cr, true);
    var (w1, read) := CallGet(w, w.rely.cr, true);
    if read.Ok? {
      ApplyAllKeeps(w1, read.obj, pass.before);
      var t1 := ApplyAll(w1, read.obj, pass.before);
      ReconcilingFinalizersKeeps(t1.w, t1.cr);
      var t2 := ReconcilingFinalizers(t1.w, t1.cr);
      ApplyAllKeeps(t2.w, t2.cr, pass.between);
      var t3 := ApplyAll(t2.w, t2.cr, pass.between);
      DelegatingAllKeeps(t3.w, t3.cr, p);
    }
  }

  lemma {:induction false} RunKeeps(w: World, passes: seq<Pass>, p: Policies)
    requires StoreInv(w) && forall pass | pass in passes :: OthersOnly(pass)
    ensures StoreInv(Run(w, passes, p)) && Run(w, passes, p).rely == w.rely
    decreases |passes|
  {
    if passes != [] {
      assert OthersOnly(passes[0]);
      ReconcilingKeeps(w, passes[0], p);
      RunKeeps(Reconciling(w, passes[0], p), passes[1..], p);
    }
  }

  /** Any cluster the operator may be started on: nothing is assumed about the custom resource, its
      finalizers, or the roles that are already there. */
  ghost predicate Start(w: World) {
    LeftAlone(w) && Fit(w.store, w.rely.cr) && w.history == [w.store.objects]
  }

  /** Safety over every run: for any script of conflicts, lost replies, stale and failing reads, other people's
      edits and deletions, and any number of reconciles that do whatever else they do to the resource, a role
      that is still there in a state of the server that has lost the finalizer of its group comes from a misread
      of that very role: the read before deleting it had failed. The same holds for a binding. */
  lemma {:induction false} PermissionFinalizersAreSafe(w: World, passes: seq<Pass>, p: Policies)
    requires Start(w) && forall pass | pass in passes :: OthersOnly(pass)
    ensures var v := Run(w, passes, p);
            forall g: Group :: Safe(v.history, v.misreads, w.rely.cr, g)
  {
    forall g: Group ensures !Lost(w, g) {
    }
    RunKeeps(w, passes, p);
  }
}
