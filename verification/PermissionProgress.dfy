/**
 What the permission steps achieve when nobody interferes, and where the safety of their finalizers ends.
 */
module PermissionProgress {
  import opened Cluster
  import opened Permissions
  import Sync
  import Finalizers

  ghost predicate SameExcept(a: map<Key, Obj>, b: map<Key, Obj>, ks: set<Key>) {
    forall k | k !in ks :: Lookup(a, k) == Lookup(b, k)
  }

  // ---------- removal ----------

  predicate Absent(objects: map<Key, Obj>, cr: Key, g: Group) {
    RoleKey(g, cr) !in objects && BindingKey(g, cr) !in objects
  }

  /** A custom resource that is being deleted, as read a moment ago; it is gone once it has no finalizer. Nobody
      interferes. */
  ghost predicate Tearing(w: World, cr: Obj) {
    && w.script == []
    && w.rely.cr.namespace != ""
    && cr.deleting && 0 < cr.version
    && (w.rely.cr in w.store.objects <==> cr.finalizers != [])
    && (w.rely.cr in w.store.objects ==> w.store.objects[w.rely.cr] == cr)
    && (forall g: Group ::
          Plain(w.store.objects, RoleKey(g, w.rely.cr)) && Plain(w.store.objects, BindingKey(g, w.rely.cr)))
  }

  /** The state of the resource, left by a call, on the server. */
  predicate InStore(w: World, cr: Obj) {
    && (w.rely.cr in w.store.objects <==> cr.finalizers != [])
    && (w.rely.cr in w.store.objects ==> w.store.objects[w.rely.cr] == cr)
  }

  predicate NothingNew(w: World, v: World) {
    v.store.objects.Keys <= w.store.objects.Keys
  }

  lemma DeletingCompletes(w: World, k: Key)
    requires w.script == [] && Plain(w.store.objects, k)
    ensures var (w1, done, _) := Sync.Deleting(w, k, false);
            && done && w1.script == [] && k !in w1.store.objects
            && NothingNew(w, w1)
            && SameExcept(w.store.objects, w1.store.objects, {k})
  {
  }

  /** Dropping a finalizer from the current, doomed resource. */
  ghost predicate Dropped(w: World, cr: Obj, f: string, o: Finalizers.Outcome) {
    && o.error.None?
    && o.w.script == []
    && o.cr.deleting && 0 < o.cr.version
    && o.cr.finalizers == Finalizers.Without(cr.finalizers, f)
    && InStore(o.w, o.cr)
    && NothingNew(w, o.w)
    && SameExcept(w.store.objects, o.w.store.objects, {w.rely.cr})
  }

  lemma DroppingCompletes(w: World, cr: Obj, f: string)
    requires w.script == [] && cr.deleting && 0 < cr.version && InStore(w, cr)
    ensures Dropped(w, cr, f, Finalizers.Dropping(w, cr, f))
  {
    if f in cr.finalizers {
      var edited := Finalizers.Edited(cr, Finalizers.Drop(f));
      forall x | x in edited.finalizers ensures x in cr.finalizers {
        Finalizers.WithoutContains(cr.finalizers, f, x);
      }
      assert CallUpdate(w, w.rely.cr, edited).1.Ok?;
    } else {
      Finalizers.WithoutIsGone(cr.finalizers, f);
    }
  }

  /** What a removal is once both deletions report success. */
  lemma RemovingIs(w: World, w1: World, w2: World, cr: Obj, g: Group)
    requires Sync.Deleting(w, RoleKey(g, w.rely.cr), false).0 == w1 && Sync.Deleting(w, RoleKey(g, w.rely.cr), false).1
    requires Sync.Deleting(w1, BindingKey(g, w.rely.cr), false).0 == w2
    requires Sync.Deleting(w1, BindingKey(g, w.rely.cr), false).1
    ensures var o := Finalizers.Dropping(w2, cr, FinalizerName(g));
            Removing(w, cr, g) == Turn(o.w, o.cr, o.error.None?, o.error)
  {
  }

  /** Both deletions. */
  lemma DeletionsComplete(w: World, cr: Obj, g: Group, w1: World, w2: World)
    requires Tearing(w, cr)
    requires w1 == Sync.Deleting(w, RoleKey(g, w.rely.cr), false).0
    requires w2 == Sync.Deleting(w1, BindingKey(g, w.rely.cr), false).0
    ensures Sync.Deleting(w, RoleKey(g, w.rely.cr), false).1 && Sync.Deleting(w1, BindingKey(g, w.rely.cr), false).1
    ensures w2.rely == w.rely && w2.script == [] && InStore(w2, cr)
    ensures Absent(w2.store.objects, w.rely.cr, g) && NothingNew(w, w2)
    ensures SameExcept(w.store.objects, w2.store.objects, {RoleKey(g, w.rely.cr), BindingKey(g, w.rely.cr)})
  {
    var key := w.rely.cr;
    var role, binding := RoleKey(g, key), BindingKey(g, key);
    DeletingCompletes(w, role);
    assert Lookup(w.store.objects, binding) == Lookup(w1.store.objects, binding);
    assert Lookup(w.store.objects, key) == Lookup(w1.store.objects, key);
    DeletingCompletes(w1, binding);
    assert Lookup(w1.store.objects, key) == Lookup(w2.store.objects, key);
  }

  function TouchedKeys(g: Group, cr: Key): set<Key> {
    {cr, RoleKey(g, cr), BindingKey(g, cr)}
  }

  /** A completed removal: role, binding and every copy of the finalizer are gone, the resource too if nothing
      else holds it, and nothing else has changed. */
  ghost predicate Removed(w: World, cr: Obj, g: Group, t: Turn) {
    && t.done
    && t.w.rely == w.rely
    && Absent(t.w.store.objects, w.rely.cr, g)
    && NothingNew(w, t.w)
    && t.cr.finalizers == Finalizers.Without(cr.finalizers, FinalizerName(g))
    && SameExcept(w.store.objects, t.w.store.objects, TouchedKeys(g, w.rely.cr))
    && Tearing(t.w, t.cr)
  }

  lemma StillPlain(w: World, v: World, ks: set<Key>, k: Key)
    requires Plain(w.store.objects, k) && SameExcept(w.store.objects, v.store.objects, ks)
    requires k in ks ==> k !in v.store.objects
    ensures Plain(v.store.objects, k)
  {
    assert k !in ks ==> Lookup(w.store.objects, k) == Lookup(v.store.objects, k);
  }

  lemma AllStillPlain(w: World, v: World, g: Group)
    requires w.rely.cr.namespace != "" && Absent(v.store.objects, w.rely.cr, g)
    requires SameExcept(w.store.objects, v.store.objects, TouchedKeys(g, w.rely.cr))
    requires forall h: Group ::
        Plain(w.store.objects, RoleKey(h, w.rely.cr)) && Plain(w.store.objects, BindingKey(h, w.rely.cr))
    ensures forall h: Group ::
        Plain(v.store.objects, RoleKey(h, w.rely.cr)) && Plain(v.store.objects, BindingKey(h, w.rely.cr))
  {
    forall h: Group
      ensures Plain(v.store.objects, RoleKey(h, w.rely.cr)) && Plain(v.store.objects, BindingKey(h, w.rely.cr))
    {
      StillPlain(w, v, TouchedKeys(g, w.rely.cr), RoleKey(h, w.rely.cr));
      StillPlain(w, v, TouchedKeys(g, w.rely.cr), BindingKey(h, w.rely.cr));
    }
  }

  /** Progress: one undisturbed removal is a complete one. */
  lemma {:induction false} RemovingCompletes(w: World, cr: Obj, g: Group)
    requires Tearing(w, cr)
    ensures Removed(w, cr, g, Removing(w, cr, g))
  {
    var key := w.rely.cr;
    var role, binding := RoleKey(g, key), BindingKey(g, key);
    var w1 := Sync.Deleting(w, role, false).0;
    var w2 := Sync.Deleting(w1, binding, false).0;
    DeletionsComplete(w, cr, g, w1, w2);
    DroppingCompletes(w2, cr, FinalizerName(g));
    var o := Finalizers.Dropping(w2, cr, FinalizerName(g));
    RemovingIs(w, w1, w2, cr, g);
    AllStillPlain(w, o.w, g);
  }

  predicate IsOurFinalizer(f: string) {
    f == FinalizerName(Workspaces) || f == FinalizerName(NamespaceEditor) || f == FinalizerName(DevWorkspace)
  }

  /** All finalizers but ours. */
  ghost predicate OthersKept(all: seq<string>, rest: seq<string>) {
    forall f :: f in rest <==> f in all && !IsOurFinalizer(f)
  }

  lemma WithoutOurs(a: seq<string>, b: seq<string>, c: seq<string>, d: seq<string>)
    requires b == Finalizers.Without(a, FinalizerName(NamespaceEditor))
    requires c == Finalizers.Without(b, FinalizerName(DevWorkspace))
    requires d == Finalizers.Without(c, FinalizerName(Workspaces))
    ensures OthersKept(a, d)
  {
    forall f ensures f in d <==> f in a && !IsOurFinalizer(f) {
      Finalizers.WithoutContains(a, FinalizerName(NamespaceEditor), f);
      Finalizers.WithoutContains(b, FinalizerName(DevWorkspace), f);
      Finalizers.WithoutContains(c, FinalizerName(Workspaces), f);
    }
  }

  lemma ReconcilingFinalizersIs(w: World, cr: Obj, t1: Turn, t2: Turn)
    requires cr.deleting
    requires t1 == Removing(w, cr, NamespaceEditor) && t1.done
    requires t2 == Removing(t1.w, t1.cr, DevWorkspace) && t2.done
    ensures ReconcilingFinalizers(w, cr) == Removing(t2.w, t2.cr, Workspaces)
  {
  }

  /** Nothing of the three groups is left; the resource is gone if and only if nothing else holds it. */
  ghost predicate AllRemoved(w: World, cr: Obj, t: Turn) {
    && t.done
    && (forall g: Group :: Absent(t.w.store.objects, w.rely.cr, g))
    && OthersKept(cr.finalizers, t.cr.finalizers)
    && (w.rely.cr in t.w.store.objects <==> t.cr.finalizers != [])
  }

  lemma AbsentStays(w: World, v: World, cr: Key, g: Group)
    requires Absent(w.store.objects, cr, g) && NothingNew(w, v)
    ensures Absent(v.store.objects, cr, g)
  {
  }

  lemma RemovedOneByOne(w: World, cr: Obj, t1: Turn, t2: Turn, t3: Turn)
    requires w.rely.cr.namespace != ""
    requires Removed(w, cr, NamespaceEditor, t1)
    requires Removed(t1.w, t1.cr, DevWorkspace, t2)
    requires Removed(t2.w, t2.cr, Workspaces, t3)
    ensures AllRemoved(w, cr, t3)
  {
    WithoutOurs(cr.finalizers, t1.cr.finalizers, t2.cr.finalizers, t3.cr.finalizers);
    AbsentStays(t1.w, t2.w, w.rely.cr, NamespaceEditor);
    AbsentStays(t2.w, t3.w, w.rely.cr, NamespaceEditor);
    AbsentStays(t2.w, t3.w, w.rely.cr, DevWorkspace);
    forall g: Group ensures Absent(t3.w.store.objects, w.rely.cr, g) {
      assert g == NamespaceEditor || g == DevWorkspace || g == Workspaces;
    }
  }

  /** One undisturbed pass over a resource that is being deleted removes all three groups and exactly their
      finalizers. */
  lemma {:induction false} AllGroupsRemoved(w: World, cr: Obj)
    requires Tearing(w, cr)
    ensures AllRemoved(w, cr, ReconcilingFinalizers(w, cr))
  {
    var t1 := Removing(w, cr, NamespaceEditor);
    RemovingCompletes(w, cr, NamespaceEditor);
    var t2 := Removing(t1.w, t1.cr, DevWorkspace);
    RemovingCompletes(t1.w, t1.cr, DevWorkspace);
    RemovingCompletes(t2.w, t2.cr, Workspaces);
    RemovedOneByOne(w, cr, t1, t2, Removing(t2.w, t2.cr, Workspaces));
    ReconcilingFinalizersIs(w, cr, t1, t2);
  }

  // ---------- granting ----------

  /** A live custom resource, as read a moment ago, and nobody tearing down the role or the binding. */
  ghost predicate Grantable(w: World, cr: Obj, g: Group, p: Policies) {
    && Finalizers.Current(w, cr) && !cr.deleting && w.rely.cr.namespace != ""
    && Sync.Ready(w, RoleKey(g, w.rely.cr), RoleSpec(g, w.rely.cr, p))
    && Sync.Ready(w, BindingKey(g, w.rely.cr), BindingSpec(g, w.rely.cr, p))
  }

  predicate HasSpec(objects: map<Key, Obj>, k: Key, spec: Fields) {
    k in objects && objects[k].spec == spec
  }

  /** The group is granted and guarded: its role holds its own rules, its binding gives that role to the service
      account of the installation, and its finalizer is stored. */
  predicate Granted(objects: map<Key, Obj>, cr: Key, g: Group, p: Policies) {
    var role, binding := RoleKey(g, cr), BindingKey(g, cr);
    && role in objects
    && objects[role].spec == (match g
                              case Workspaces => p.workspaces
                              case NamespaceEditor => p.namespaceEditor
                              case DevWorkspace => p.devWorkspace)
    && binding in objects
    && objects[binding].spec == map["roleRef" := role.name, "subject" := cr.namespace + "/che"]
    && cr in objects && FinalizerName(g) in objects[cr].finalizers
  }

  /** The object is missing or as it should be, so a sync does not have to replace it. */
  predicate Fine(objects: map<Key, Obj>, k: Key, bp: Obj) {
    k in objects ==> objects[k].spec == bp.spec
  }

  ghost predicate GrantResult(w: World, cr: Obj, o: Sync.Outcome, k: Key, bp: Obj) {
    && Sync.Ready(o.w, k, bp)
    && HasSpec(o.w.store.objects, k, bp.spec)
    && (o.done <==> Fine(w.store.objects, k, bp))
    && Finalizers.Current(o.w, cr)
    && SameExcept(w.store.objects, o.w.store.objects, {k})
  }

  lemma {:induction false} GrantingCompletes(w: World, cr: Obj, k: Key, bp: Obj)
    requires Finalizers.Current(w, cr) && !cr.deleting && Sync.Ready(w, k, bp) && k != w.rely.cr
    requires !Sync.IsUpdateUsingDeleteCreate(k.kind)
    ensures GrantResult(w, cr, Granting(w, cr, k, bp), k, bp)
  {
    var o := Granting(w, cr, k, bp);
    Sync.Round(w, k, bp, Sync.IgnoreMeta);
    forall x | x != k ensures Lookup(w.store.objects, x) == Lookup(o.w.store.objects, x) {
      Finalizers.SyncTouchesOne(w, k, bp, Sync.IgnoreMeta, x);
    }
    assert Lookup(w.store.objects, w.rely.cr) == Lookup(o.w.store.objects, w.rely.cr);
  }

  lemma StillReady(w: World, v: World, ks: set<Key>, k: Key, bp: Obj)
    requires Sync.Ready(w, k, bp) && v.rely == w.rely && v.script == []
    requires SameExcept(w.store.objects, v.store.objects, ks) && k !in ks
    ensures Sync.Ready(v, k, bp)
    ensures Lookup(w.store.objects, k) == Lookup(v.store.objects, k)
  {
    assert Lookup(w.store.objects, k) == Lookup(v.store.objects, k);
  }

  lemma StaysGrantable(w: World, cr: Obj, g: Group, p: Policies, v: World, next: Obj)
    requires Grantable(w, cr, g, p) && Finalizers.Current(v, next) && !next.deleting && v.rely == w.rely
    requires SameExcept(w.store.objects, v.store.objects, {w.rely.cr})
    ensures Grantable(v, next, g, p)
  {
    StillReady(w, v, {w.rely.cr}, RoleKey(g, w.rely.cr), RoleSpec(g, w.rely.cr, p));
    StillReady(w, v, {w.rely.cr}, BindingKey(g, w.rely.cr), BindingSpec(g, w.rely.cr, p));
  }

  lemma {:induction false} FinalizerIsStored(w: World, cr: Obj, f: string)
    requires Finalizers.Current(w, cr) && !cr.deleting
    ensures var o := Finalizers.Appending(w, cr, f);
            && o.error.None? && o.w.rely == w.rely
            && Finalizers.Current(o.w, o.cr) && !o.cr.deleting
            && f in o.w.store.objects[w.rely.cr].finalizers
            && (forall x | x in cr.finalizers :: x in o.cr.finalizers)
            && SameExcept(w.store.objects, o.w.store.objects, {w.rely.cr})
  {
    Finalizers.AppendingStores(w, cr, f);
    Finalizers.AppendingStaysCurrent(w, cr, f);
  }

  /** How many of the two objects of a group would have to be replaced. */
  function Misfits(objects: map<Key, Obj>, cr: Key, g: Group, p: Policies): nat {
    (if Fine(objects, RoleKey(g, cr), RoleSpec(g, cr, p)) then 0 else 1)
    + (if Fine(objects, BindingKey(g, cr), BindingSpec(g, cr, p)) then 0 else 1)
  }

  /** The outcome of one call: done exactly if neither role nor binding had to be replaced, and then the group
      is granted and guarded; otherwise one more of the two is as it should be. Nothing else changes, and no
      finalizer is lost. */
  ghost predicate Delegated(w: World, cr: Obj, g: Group, p: Policies, t: Turn) {
    var key := w.rely.cr;
    && t.w.rely == w.rely
    && Grantable(t.w, t.cr, g, p)
    && (t.done <==> Misfits(w.store.objects, key, g, p) == 0)
    && (t.done ==> Granted(t.w.store.objects, key, g, p))
    && Misfits(t.w.store.objects, key, g, p) == Misfits(w.store.objects, key, g, p) - (if t.done then 0 else 1)
    && (forall f | f in cr.finalizers :: f in t.cr.finalizers)
    && SameExcept(w.store.objects, t.w.store.objects, TouchedKeys(g, key))
  }

  lemma RoleFirst(w: World, cr: Obj, g: Group, p: Policies)
    requires Grantable(w, cr, g, p)
    ensures var o := Granting(w, cr, RoleKey(g, w.rely.cr), RoleSpec(g, w.rely.cr, p));
            && Grantable(o.w, cr, g, p)
            && GrantResult(w, cr, o, RoleKey(g, w.rely.cr), RoleSpec(g, w.rely.cr, p))
            && Lookup(w.store.objects, BindingKey(g, w.rely.cr)) == Lookup(o.w.store.objects, BindingKey(g, w.rely.cr))
  {
    var role, binding := RoleKey(g, w.rely.cr), BindingKey(g, w.rely.cr);
    GrantingCompletes(w, cr, role, RoleSpec(g, w.rely.cr, p));
    var w1 := Granting(w, cr, role, RoleSpec(g, w.rely.cr, p)).w;
    StillReady(w, w1, {role}, binding, BindingSpec(g, w.rely.cr, p));
  }

  lemma BindingNext(w: World, cr: Obj, g: Group, p: Policies)
    requires Grantable(w, cr, g, p)
    ensures var o := Granting(w, cr, BindingKey(g, w.rely.cr), BindingSpec(g, w.rely.cr, p));
            && Grantable(o.w, cr, g, p)
            && GrantResult(w, cr, o, BindingKey(g, w.rely.cr), BindingSpec(g, w.rely.cr, p))
            && Lookup(w.store.objects, RoleKey(g, w.rely.cr)) == Lookup(o.w.store.objects, RoleKey(g, w.rely.cr))
  {
    var role, binding := RoleKey(g, w.rely.cr), BindingKey(g, w.rely.cr);
    GrantingCompletes(w, cr, binding, BindingSpec(g, w.rely.cr, p));
    var w1 := Granting(w, cr, binding, BindingSpec(g, w.rely.cr, p)).w;
    StillReady(w, w1, {binding}, role, RoleSpec(g, w.rely.cr, p));
  }

  lemma {:induction false} FinalizerLast(w: World, cr: Obj, g: Group, p: Policies)
    requires Grantable(w, cr, g, p)
    requires HasSpec(w.store.objects, RoleKey(g, w.rely.cr), RoleSpec(g, w.rely.cr, p).spec)
    requires HasSpec(w.store.objects, BindingKey(g, w.rely.cr), BindingSpec(g, w.rely.cr, p).spec)
    ensures var o := Finalizers.Appending(w, cr, FinalizerName(g));
            && o.error.None? && o.w.rely == w.rely
            && Grantable(o.w, o.cr, g, p) && Granted(o.w.store.objects, w.rely.cr, g, p)
            && (forall f | f in cr.finalizers :: f in o.cr.finalizers)
            && SameExcept(w.store.objects, o.w.store.objects, {w.rely.cr})
  {
    FinalizerIsStored(w, cr, FinalizerName(g));
    var o := Finalizers.Appending(w, cr, FinalizerName(g));
    StaysGrantable(w, cr, g, p, o.w, o.cr);
    assert Lookup(w.store.objects, RoleKey(g, w.rely.cr)) == Lookup(o.w.store.objects, RoleKey(g, w.rely.cr));
    assert Lookup(w.store.objects, BindingKey(g, w.rely.cr)) == Lookup(o.w.store.objects, BindingKey(g, w.rely.cr));
  }

  lemma SameExceptMore(w: World, u: World, v: World, a: set<Key>, b: set<Key>, c: set<Key>)
    requires SameExcept(w.store.objects, u.store.objects, a) && SameExcept(u.store.objects, v.store.objects, b)
    requires a + b <= c
    ensures SameExcept(w.store.objects, v.store.objects, c)
  {
    forall k | k !in c ensures Lookup(w.store.objects, k) == Lookup(v.store.objects, k) {
      assert Lookup(w.store.objects, k) == Lookup(u.store.objects, k);
    }
  }

  lemma StoppedAtRole(w: World, cr: Obj, g: Group, p: Policies, role: Sync.Outcome)
    requires GrantResult(w, cr, role, RoleKey(g, w.rely.cr), RoleSpec(g, w.rely.cr, p))
    requires Grantable(role.w, cr, g, p) && role.w.rely == w.rely && !role.done
    ensures Delegated(w, cr, g, p, Turn(role.w, cr, false, role.error))
  {
    var key := w.rely.cr;
    assert Lookup(w.store.objects, BindingKey(g, key)) == Lookup(role.w.store.objects, BindingKey(g, key));
    SameExceptMore(w, role.w, role.w, {RoleKey(g, key)}, {}, TouchedKeys(g, key));
  }

  /** After a role that was as it should be. */
  lemma StoppedAtBinding(w: World, cr: Obj, g: Group, p: Policies, u: World, binding: Sync.Outcome)
    requires u.rely == w.rely && Fine(w.store.objects, RoleKey(g, w.rely.cr), RoleSpec(g, w.rely.cr, p))
    requires HasSpec(u.store.objects, RoleKey(g, w.rely.cr), RoleSpec(g, w.rely.cr, p).spec)
    requires SameExcept(w.store.objects, u.store.objects, {RoleKey(g, w.rely.cr)})
    requires GrantResult(u, cr, binding, BindingKey(g, w.rely.cr), BindingSpec(g, w.rely.cr, p))
    requires Grantable(binding.w, cr, g, p) && binding.w.rely == w.rely && !binding.done
    ensures Delegated(w, cr, g, p, Turn(binding.w, cr, false, binding.error))
  {
    var key := w.rely.cr;
    var rk, bk := RoleKey(g, key), BindingKey(g, key);
    assert Lookup(w.store.objects, bk) == Lookup(u.store.objects, bk);
    assert Lookup(binding.w.store.objects, rk) == Lookup(u.store.objects, rk);
    SameExceptMore(w, u, binding.w, {rk}, {bk}, TouchedKeys(g, key));
  }

  lemma GrantedBoth(w: World, cr: Obj, g: Group, p: Policies, v: World, t: Turn)
    requires Misfits(w.store.objects, w.rely.cr, g, p) == 0
    requires SameExcept(w.store.objects, v.store.objects, {RoleKey(g, w.rely.cr), BindingKey(g, w.rely.cr)})
    requires t.done && t.w.rely == w.rely
    requires Grantable(t.w, t.cr, g, p) && Granted(t.w.store.objects, w.rely.cr, g, p)
    requires (forall f | f in cr.finalizers :: f in t.cr.finalizers)
    requires SameExcept(v.store.objects, t.w.store.objects, {w.rely.cr})
    ensures Delegated(w, cr, g, p, t)
  {
    var key := w.rely.cr;
    SameExceptMore(w, v, t.w, {RoleKey(g, key), BindingKey(g, key)}, {key}, TouchedKeys(g, key));
  }

  /** One undisturbed call. */
  lemma {:induction false} DelegatingCompletes(w: World, cr: Obj, g: Group, p: Policies)
    requires Grantable(w, cr, g, p)
    ensures Delegated(w, cr, g, p, Delegating(w, cr, g, p))
  {
    var key := w.rely.cr;
    var rk, bk := RoleKey(g, key), BindingKey(g, key);
    DelegatingIs(w, cr, g, p);
    RoleFirst(w, cr, g, p);
    var role := Granting(w, cr, rk, RoleSpec(g, key, p));
    if !role.done {
      StoppedAtRole(w, cr, g, p, role);
    } else {
      BindingNext(role.w, cr, g, p);
      var binding := Granting(role.w, cr, bk, BindingSpec(g, key, p));
      if !binding.done {
        StoppedAtBinding(w, cr, g, p, role.w, binding);
      } else {
        BothFine(w, cr, g, p, role, binding);
        FinalizerLast(binding.w, cr, g, p);
        var o := Finalizers.Appending(binding.w, cr, FinalizerName(g));
        GrantedBoth(w, cr, g, p, binding.w, Turn(o.w, o.cr, true, None));
      }
    }
  }

  lemma BothFine(w: World, cr: Obj, g: Group, p: Policies, role: Sync.Outcome, binding: Sync.Outcome)
    requires GrantResult(w, cr, role, RoleKey(g, w.rely.cr), RoleSpec(g, w.rely.cr, p)) && role.done
    requires GrantResult(role.w, cr, binding, BindingKey(g, w.rely.cr), BindingSpec(g, w.rely.cr, p)) && binding.done
    ensures Misfits(w.store.objects, w.rely.cr, g, p) == 0
    ensures HasSpec(binding.w.store.objects, RoleKey(g, w.rely.cr), RoleSpec(g, w.rely.cr, p).spec)
    ensures HasSpec(binding.w.store.objects, BindingKey(g, w.rely.cr), BindingSpec(g, w.rely.cr, p).spec)
    ensures SameExcept(w.store.objects, binding.w.store.objects, {RoleKey(g, w.rely.cr), BindingKey(g, w.rely.cr)})
  {
    var rk, bk := RoleKey(g, w.rely.cr), BindingKey(g, w.rely.cr);
    assert Lookup(w.store.objects, bk) == Lookup(role.w.store.objects, bk);
    assert Lookup(binding.w.store.objects, rk) == Lookup(role.w.store.objects, rk);
    SameExceptMore(w, role.w, binding.w, {rk}, {bk}, {rk, bk});
  }

  /** So three undisturbed calls grant and guard a group, whatever role and binding were there before. */
  lemma {:induction false} GrantedAfterThree(w: World, cr: Obj, g: Group, p: Policies)
    requires Grantable(w, cr, g, p)
    ensures var t1 := Delegating(w, cr, g, p);
            var t2 := Delegating(t1.w, t1.cr, g, p);
            var t3 := Delegating(t2.w, t2.cr, g, p);
            t3.done && Granted(t3.w.store.objects, w.rely.cr, g, p)
  {
    var t1 := Delegating(w, cr, g, p);
    DelegatingCompletes(w, cr, g, p);
    var t2 := Delegating(t1.w, t1.cr, g, p);
    DelegatingCompletes(t1.w, t1.cr, g, p);
    DelegatingCompletes(t2.w, t2.cr, g, p);
  }

  // ---------- granting all groups ----------

  ghost predicate AllGrantable(w: World, cr: Obj, p: Policies) {
    forall g: Group :: Grantable(w, cr, g, p)
  }

  lemma RoleNamesDiffer(g: Group, h: Group, namespace: string)
    requires g != h
    ensures RoleName(g, namespace) != RoleName(h, namespace)
  {
    assert |"-cheworkspaces-clusterrole"| == 26 && |"-cheworkspaces-namespaces-clusterrole"| == 37;
    assert |"-cheworkspaces-devworkspace-clusterrole"| == 39;
  }

  /** Granting one group leaves the others as they are. */
  lemma {:induction false} OthersAreLeft(w: World, cr: Obj, g: Group, p: Policies, t: Turn, h: Group)
    requires Grantable(w, cr, h, p) && Delegated(w, cr, g, p, t) && h != g
    ensures Grantable(t.w, t.cr, h, p)
    ensures Misfits(t.w.store.objects, w.rely.cr, h, p) == Misfits(w.store.objects, w.rely.cr, h, p)
    ensures Granted(w.store.objects, w.rely.cr, h, p) ==> Granted(t.w.store.objects, w.rely.cr, h, p)
  {
    var key := w.rely.cr;
    RoleNamesDiffer(g, h, key.namespace);
    StillReady(w, t.w, TouchedKeys(g, key), RoleKey(h, key), RoleSpec(h, key, p));
    StillReady(w, t.w, TouchedKeys(g, key), BindingKey(h, key), BindingSpec(h, key, p));
  }

  /** How many of the six objects would have to be replaced. */
  function AllMisfits(objects: map<Key, Obj>, cr: Key, p: Policies): nat {
    Misfits(objects, cr, Workspaces, p) + Misfits(objects, cr, NamespaceEditor, p)
    + Misfits(objects, cr, DevWorkspace, p)
  }

  /** The groups in the order of a pass. */
  function GroupAt(i: nat): Group
    requires i < 3
  {
    if i == 0 then Workspaces else if i == 1 then NamespaceEditor else DevWorkspace
  }

  /** How far a pass has come: unless it stopped at an object it had to replace, the first `n` groups are granted
      and had nothing to replace. */
  ghost predicate PassGranted(w: World, p: Policies, t: Turn, n: nat)
    requires n <= 3
  {
    var a, b, cr := w.store.objects, t.w.store.objects, w.rely.cr;
    && t.w.rely == w.rely
    && AllMisfits(b, cr, p) == AllMisfits(a, cr, p) - (if t.done then 0 else 1)
    && (t.done ==> forall i | 0 <= i < n :: Granted(b, cr, GroupAt(i), p) && Misfits(b, cr, GroupAt(i), p) == 0)
  }

  lemma {:induction false} OthersStay(w: World, cr: Obj, g: Group, p: Policies, t: Turn)
    requires AllGrantable(w, cr, p) && Delegated(w, cr, g, p, t)
    ensures AllGrantable(t.w, t.cr, p)
    ensures forall h: Group | h != g ::
              && Misfits(t.w.store.objects, w.rely.cr, h, p) == Misfits(w.store.objects, w.rely.cr, h, p)
              && (Granted(w.store.objects, w.rely.cr, h, p) ==> Granted(t.w.store.objects, w.rely.cr, h, p))
  {
    forall h: Group | h != g
      ensures Grantable(t.w, t.cr, h, p)
      ensures Misfits(t.w.store.objects, w.rely.cr, h, p) == Misfits(w.store.objects, w.rely.cr, h, p)
      ensures Granted(w.store.objects, w.rely.cr, h, p) ==> Granted(t.w.store.objects, w.rely.cr, h, p)
    {
      assert Grantable(w, cr, h, p);
      OthersAreLeft(w, cr, g, p, t, h);
    }
  }

  /** One group of a pass. */
  ghost predicate OneStep(a: map<Key, Obj>, b: map<Key, Obj>, cr: Key, g: Group, p: Policies, done: bool) {
    && Misfits(b, cr, g, p) == Misfits(a, cr, g, p) - (if done then 0 else 1)
    && (done ==> Granted(b, cr, g, p) && Misfits(b, cr, g, p) == 0)
    && forall h: Group | h != g ::
        && Misfits(b, cr, h, p) == Misfits(a, cr, h, p)
        && (Granted(a, cr, h, p) ==> Granted(b, cr, h, p))
  }

  lemma {:induction false} DelegatingStep(w: World, cr: Obj, g: Group, p: Policies)
    requires AllGrantable(w, cr, p)
    ensures var t := Delegating(w, cr, g, p);
            && t.w.rely == w.rely && AllGrantable(t.w, t.cr, p)
            && OneStep(w.store.objects, t.w.store.objects, w.rely.cr, g, p, t.done)
  {
    assert Grantable(w, cr, g, p);
    DelegatingCompletes(w, cr, g, p);
    OthersStay(w, cr, g, p, Delegating(w, cr, g, p));
  }

  lemma StepCounts(a: map<Key, Obj>, b: map<Key, Obj>, cr: Key, g: Group, p: Policies, done: bool)
    requires OneStep(a, b, cr, g, p, done)
    ensures AllMisfits(b, cr, p) == AllMisfits(a, cr, p) - (if done then 0 else 1)
  {
    assert g == Workspaces || g == NamespaceEditor || g == DevWorkspace;
  }

  lemma StepKeeps(a: map<Key, Obj>, b: map<Key, Obj>, cr: Key, g: Group, p: Policies, h: Group)
    requires OneStep(a, b, cr, g, p, true) && h != g
    requires Granted(a, cr, h, p) && Misfits(a, cr, h, p) == 0
    ensures Granted(b, cr, h, p) && Misfits(b, cr, h, p) == 0
  {
  }

  lemma {:induction false} OneMoreGranted(w: World, p: Policies, before: Turn, n: nat, t: Turn)
    requires n < 3 && before.done && PassGranted(w, p, before, n) && t.w.rely == w.rely
    requires OneStep(before.w.store.objects, t.w.store.objects, w.rely.cr, GroupAt(n), p, t.done)
    ensures PassGranted(w, p, t, n + 1)
  {
    StepCounts(before.w.store.objects, t.w.store.objects, w.rely.cr, GroupAt(n), p, t.done);
    if t.done {
      forall i | 0 <= i < n + 1
        ensures Granted(t.w.store.objects, w.rely.cr, GroupAt(i), p)
        ensures Misfits(t.w.store.objects, w.rely.cr, GroupAt(i), p) == 0
      {
        if i < n {
          StepKeeps(before.w.store.objects, t.w.store.objects, w.rely.cr, GroupAt(n), p, GroupAt(i));
        }
      }
    }
  }

  lemma DelegatingAllIs(w: World, cr: Obj, p: Policies, t1: Turn, t2: Turn, t3: Turn)
    requires t1 == Delegating(w, cr, Workspaces, p)
    requires t2 == Delegating(t1.w, t1.cr, NamespaceEditor, p)
    requires t3 == Delegating(t2.w, t2.cr, DevWorkspace, p)
    ensures DelegatingAll(w, cr, p) == if !t1.done then t1 else if !t2.done then t2 else t3
  {
  }

  lemma {:induction false} AllGroupsLeft(w: World, cr: Obj, p: Policies, t: Turn)
    requires AllGrantable(w, cr, p) && t == DelegatingAll(w, cr, p)
    ensures AllGrantable(t.w, t.cr, p) && PassGranted(w, p, t, if t.done then 3 else 0)
  {
    var t1 := Delegating(w, cr, GroupAt(0), p);
    DelegatingStep(w, cr, GroupAt(0), p);
    OneMoreGranted(w, p, Turn(w, cr, true, None), 0, t1);
    var t2 := Delegating(t1.w, t1.cr, GroupAt(1), p);
    var t3 := Delegating(t2.w, t2.cr, GroupAt(2), p);
    DelegatingAllIs(w, cr, p, t1, t2, t3);
    if t1.done {
      DelegatingStep(t1.w, t1.cr, GroupAt(1), p);
      OneMoreGranted(w, p, t1, 1, t2);
      if t2.done {
        DelegatingStep(t2.w, t2.cr, GroupAt(2), p);
        OneMoreGranted(w, p, t2, 2, t3);
      }
    }
  }

  lemma {:induction false} PassMeans(w: World, p: Policies, t: Turn)
    requires PassGranted(w, p, t, if t.done then 3 else 0)
    ensures t.done <==> AllMisfits(w.store.objects, w.rely.cr, p) == 0
    ensures t.done ==> forall g: Group :: Granted(t.w.store.objects, w.rely.cr, g, p)
  {
    if t.done {
      forall g: Group ensures Granted(t.w.store.objects, w.rely.cr, g, p) {
        assert g == GroupAt(0) || g == GroupAt(1) || g == GroupAt(2);
      }
      assert Misfits(t.w.store.objects, w.rely.cr, GroupAt(0), p) == 0;
      assert Misfits(t.w.store.objects, w.rely.cr, GroupAt(1), p) == 0;
      assert Misfits(t.w.store.objects, w.rely.cr, GroupAt(2), p) == 0;
    }
  }

  /** Every one of the six objects is missing or right. */
  predicate AllFine(objects: map<Key, Obj>, cr: Key, p: Policies) {
    forall g: Group ::
      Fine(objects, RoleKey(g, cr), RoleSpec(g, cr, p)) && Fine(objects, BindingKey(g, cr), BindingSpec(g, cr, p))
  }

  lemma FineIfNoMisfit(objects: map<Key, Obj>, cr: Key, p: Policies)
    ensures AllFine(objects, cr, p) <==> AllMisfits(objects, cr, p) == 0
  {
    if AllMisfits(objects, cr, p) == 0 {
      forall g: Group ensures Misfits(objects, cr, g, p) == 0 {
        assert g == Workspaces || g == NamespaceEditor || g == DevWorkspace;
      }
    }
  }

  lemma {:induction false} PassOverAll(w: World, cr: Obj, p: Policies)
    requires AllGrantable(w, cr, p)
    ensures var t := DelegatingAll(w, cr, p);
            && t.w.rely == w.rely && AllGrantable(t.w, t.cr, p)
            && (t.done <==> AllMisfits(w.store.objects, w.rely.cr, p) == 0)
            && (t.done ==> forall g: Group :: Granted(t.w.store.objects, w.rely.cr, g, p))
            && AllMisfits(t.w.store.objects, w.rely.cr, p)
               == AllMisfits(w.store.objects, w.rely.cr, p) - (if t.done then 0 else 1)
  {
    var t := DelegatingAll(w, cr, p);
    AllGroupsLeft(w, cr, p, t);
    PassMeans(w, p, t);
  }

  /** One undisturbed pass over all groups: it is done if and only if every one of the six objects was missing or
      right, and then every group is granted and guarded. */
  lemma {:induction false} AllGroupsGranted(w: World, cr: Obj, p: Policies)
    requires AllGrantable(w, cr, p)
    ensures var t := DelegatingAll(w, cr, p);
            && (t.done <==> AllFine(w.store.objects, w.rely.cr, p))
            && (t.done ==> forall g: Group :: Granted(t.w.store.objects, w.rely.cr, g, p))
  {
    PassOverAll(w, cr, p);
    FineIfNoMisfit(w.store.objects, w.rely.cr, p);
  }

  /** The last of `n + 1` passes. */
  function DelegatingOften(w: World, cr: Obj, p: Policies, n: nat): Turn
    decreases n
  {
    var t := DelegatingAll(w, cr, p);
    if n == 0 then t else DelegatingOften(t.w, t.cr, p, n - 1)
  }

  lemma MisfitsAreSix(objects: map<Key, Obj>, cr: Key, p: Policies)
    ensures AllMisfits(objects, cr, p) <= 6
  {
  }

  /** A pass that is done, with every group granted. */
  ghost predicate PassDone(cr: Key, p: Policies, t: Turn) {
    t.done && forall g: Group :: Granted(t.w.store.objects, cr, g, p)
  }

  lemma {:induction false} LastPass(w: World, cr: Obj, p: Policies)
    requires AllGrantable(w, cr, p) && AllMisfits(w.store.objects, w.rely.cr, p) == 0
    ensures PassDone(w.rely.cr, p, DelegatingOften(w, cr, p, 0))
  {
    PassOverAll(w, cr, p);
  }

  lemma {:induction false} NextPass(w: World, cr: Obj, p: Policies, n: nat) returns (t: Turn)
    requires AllGrantable(w, cr, p) && AllMisfits(w.store.objects, w.rely.cr, p) <= n && n > 0
    ensures AllGrantable(t.w, t.cr, p) && AllMisfits(t.w.store.objects, w.rely.cr, p) <= n - 1
    ensures t.w.rely == w.rely && DelegatingOften(w, cr, p, n) == DelegatingOften(t.w, t.cr, p, n - 1)
  {
    t := DelegatingAll(w, cr, p);
    PassOverAll(w, cr, p);
  }

  lemma {:induction false} GrantedOften(w: World, cr: Obj, p: Policies, n: nat)
    requires AllGrantable(w, cr, p) && AllMisfits(w.store.objects, w.rely.cr, p) <= n
    ensures PassDone(w.rely.cr, p, DelegatingOften(w, cr, p, n))
    decreases n
  {
    if n == 0 {
      LastPass(w, cr, p);
    } else {
      var t := NextPass(w, cr, p, n);
      GrantedOften(t.w, t.cr, p, n - 1);
    }
  }

  /** Whatever roles and bindings were there before: from the seventh undisturbed pass on all groups are granted
      and guarded. */
  lemma {:induction false} AllGrantedAfterSeven(w: World, cr: Obj, p: Policies, n: nat)
    requires AllGrantable(w, cr, p) && n >= 6
    ensures PassDone(w.rely.cr, p, DelegatingOften(w, cr, p, n))
  {
    MisfitsAreSix(w.store.objects, w.rely.cr, p);
    GrantedOften(w, cr, p, n);
  }

  // ---------- the limit of safety ----------

  /** Neither the role nor the binding of the group was ever taken for absent because a read had failed. */
  predicate Trusted(w: World, g: Group) {
    RoleKey(g, w.rely.cr) !in w.misreads && BindingKey(g, w.rely.cr) !in w.misreads
  }

  /** The role and the binding of a group are there, nobody else touches them, and no finalizer holds them. */
  predicate Standing(w: World, g: Group) {
    && w.rely.cr.namespace != ""
    && RoleKey(g, w.rely.cr) in w.rely.owned && BindingKey(g, w.rely.cr) in w.rely.owned
    && RoleKey(g, w.rely.cr) in w.store.objects && Plain(w.store.objects, RoleKey(g, w.rely.cr))
    && BindingKey(g, w.rely.cr) in w.store.objects && Plain(w.store.objects, BindingKey(g, w.rely.cr))
  }

  /** Both deletions, whatever others do: each leaves its object if and only if the read before it failed,
      provided it is reported as done. */
  lemma DeletionsLeave(w: World, g: Group, w1: World, w2: World)
    requires Standing(w, g) && Trusted(w, g)
    requires w1 == Sync.Deleting(w, RoleKey(g, w.rely.cr), false).0
    requires w2 == Sync.Deleting(w1, BindingKey(g, w.rely.cr), false).0
    requires Sync.Deleting(w, RoleKey(g, w.rely.cr), false).1 && Sync.Deleting(w1, BindingKey(g, w.rely.cr), false).1
    ensures var role, binding := RoleKey(g, w.rely.cr), BindingKey(g, w.rely.cr);
            && w2.rely == w.rely
            && (role in w2.store.objects <==> NextFault(w.script).OnRead?)
            && (binding in w2.store.objects <==> NextFault(w1.script).OnRead?)
            && (role in w2.misreads <==> NextFault(w.script).OnRead?)
            && (binding in w2.misreads <==> NextFault(w1.script).OnRead?)
  {
    var role, binding := RoleKey(g, w.rely.cr), BindingKey(g, w.rely.cr);
    Sync.DeletionLeaves(w, role, false);
    Sync.DeletionKeepsOthers(w, role, false, binding);
    assert Lookup(w1.store.objects, binding) == Some(w.store.objects[binding]);
    Sync.DeletionLeaves(w1, binding, false);
    Sync.DeletionKeepsOthers(w1, binding, false, role);
    assert Lookup(w2.store.objects, role) == Lookup(w1.store.objects, role);
  }

  /** Exactly what a removal that reports success leaves behind, for every script of other writers: the role if
      and only if the read before its deletion failed, and the same for the binding. */
  lemma LeftIfMisread(w: World, cr: Obj, g: Group)
    requires Standing(w, g) && Trusted(w, g)
    ensures var role, binding := RoleKey(g, w.rely.cr), BindingKey(g, w.rely.cr);
            var t := Removing(w, cr, g);
            t.done ==>
              && (role in t.w.store.objects <==> role in t.w.misreads)
              && (binding in t.w.store.objects <==> binding in t.w.misreads)
              && (role in t.w.misreads <==> NextFault(w.script).OnRead?)
              && (binding in t.w.misreads <==> NextFault(Sync.Deleting(w, role, false).0.script).OnRead?)
  {
    var role, binding := RoleKey(g, w.rely.cr), BindingKey(g, w.rely.cr);
    var (w1, roleDone, _) := Sync.Deleting(w, role, false);
    var (w2, bindingDone, _) := Sync.Deleting(w1, binding, false);
    if roleDone && bindingDone {
      DeletionsLeave(w, g, w1, w2);
      RemovingIs(w, w1, w2, cr, g);
      DroppingKeepsOwned(w2, cr, FinalizerName(g), role);
      DroppingKeepsOwned(w2, cr, FinalizerName(g), binding);
      var o := Finalizers.Dropping(w2, cr, FinalizerName(g));
      assert Lookup(o.w.store.objects, role) == Lookup(w2.store.objects, role);
      assert Lookup(o.w.store.objects, binding) == Lookup(w2.store.objects, binding);
    }
  }

  lemma DroppingKeepsOwned(w: World, cr: Obj, f: string, k: Key)
    requires k in w.rely.owned && k != w.rely.cr
    ensures Lookup(Finalizers.Dropping(w, cr, f).w.store.objects, k) == Lookup(w.store.objects, k)
  {
    Finalizers.RetryingKeepsOwned(w, cr, Finalizers.Drop(f), k);
  }

  lemma FailedReadPasses(w: World, k: Key)
    requires w.script != [] && w.script[0] == ReadFault
    ensures Sync.Deleting(w, k, false) == (w.(script := w.script[1..], misreads := w.misreads + {k}), true, None)
  {
  }

  lemma TwoFailedReads(w: World, g: Group, w1: World, w2: World)
    requires w.script == [ReadFault, ReadFault]
    requires w1 == Sync.Deleting(w, RoleKey(g, w.rely.cr), false).0
    requires w2 == Sync.Deleting(w1, BindingKey(g, w.rely.cr), false).0
    ensures Sync.Deleting(w, RoleKey(g, w.rely.cr), false).1 && Sync.Deleting(w1, BindingKey(g, w.rely.cr), false).1
    ensures w2.script == [] && w2.store == w.store && w2.rely == w.rely
  {
    FailedReadPasses(w, RoleKey(g, w.rely.cr));
    FailedReadPasses(w1, BindingKey(g, w.rely.cr));
  }

  lemma LastFinalizerGoes(w: World, cr: Obj, f: string)
    requires w.script == [] && cr.deleting && 0 < cr.version && InStore(w, cr) && cr.finalizers == [f]
    ensures var o := Finalizers.Dropping(w, cr, f);
            && o.error.None? && w.rely.cr !in o.w.store.objects
            && SameExcept(w.store.objects, o.w.store.objects, {w.rely.cr})
  {
    DroppingCompletes(w, cr, f);
    assert cr.finalizers[1..] == [];
    assert Finalizers.Without(cr.finalizers, f) == [];
  }

  /** Why safety needs reads that answer: two failed reads pass for "not found", so the removal reports
      success, the finalizer goes and the resource with it, and role and binding are left behind. This is so
      for every group and every cluster in this state. */
  lemma FailedReadsLeakPermissions(w: World, cr: Obj, g: Group)
    requires w.script == [ReadFault, ReadFault] && w.rely.cr.namespace != ""
    requires w.rely.cr in w.store.objects && w.store.objects[w.rely.cr] == cr && 0 < cr.version
    requires cr.deleting && cr.finalizers == [FinalizerName(g)]
    requires RoleKey(g, w.rely.cr) in w.store.objects && BindingKey(g, w.rely.cr) in w.store.objects
    ensures var t := Removing(w, cr, g);
            && t.done
            && w.rely.cr !in t.w.store.objects
            && RoleKey(g, w.rely.cr) in t.w.store.objects && BindingKey(g, w.rely.cr) in t.w.store.objects
  {
    var key := w.rely.cr;
    var w1 := Sync.Deleting(w, RoleKey(g, key), false).0;
    var w2 := Sync.Deleting(w1, BindingKey(g, key), false).0;
    TwoFailedReads(w, g, w1, w2);
    RemovingIs(w, w1, w2, cr, g);
    LastFinalizerGoes(w2, cr, FinalizerName(g));
    var o := Finalizers.Dropping(w2, cr, FinalizerName(g));
    assert Lookup(w2.store.objects, RoleKey(g, key)) == Lookup(o.w.store.objects, RoleKey(g, key));
    assert Lookup(w2.store.objects, BindingKey(g, key)) == Lookup(o.w.store.objects, BindingKey(g, key));
  }
}
