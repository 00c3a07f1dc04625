/**
 The two loops that add a finalizer to the custom resource, or take one off it, retrying for as long as the
 update conflicts with somebody else's.
 */
module Finalizers {
  import opened Cluster
  import Sync

  function Without(s: seq<string>, x: string): seq<string> {
    if s == [] then [] else (if s[0] == x then [] else [s[0]]) + Without(s[1..], x)
  }

  /** Every copy of one goes, and the others keep their number. */
  lemma {:induction false} WithoutCounts(s: seq<string>, f: string)
    ensures multiset(Without(s, f)) == multiset(s)[f := 0]
  {
    if s != [] {
      WithoutCounts(s[1..], f);
      assert s == [s[0]] + s[1..];
    }
  }

  lemma {:induction false} WithoutIsGone(s: seq<string>, f: string)
    ensures f !in Without(s, f)
    ensures f !in s ==> Without(s, f) == s
  {
    if s != [] {
      WithoutIsGone(s[1..], f);
      assert s == [s[0]] + s[1..];
    }
  }

  lemma {:induction false} WithoutContains(s: seq<string>, f: string, x: string)
    ensures x in Without(s, f) <==> x in s && x != f
  {
    if s != [] {
      WithoutContains(s[1..], f, x);
      assert s == [s[0]] + s[1..];
    }
  }

  /** The others stay in order: a list can be cut anywhere and both parts dealt with on their own. */
  lemma {:induction false} WithoutConcat(a: seq<string>, b: seq<string>, f: string)
    ensures Without(a + b, f) == Without(a, f) + Without(b, f)
    ensures Without([f], f) == [] && forall x | x != f :: Without([x], f) == [x]
  {
    assert forall x: string :: [x][1..] == [];
    if a == [] {
      assert a + b == b;
    } else {
      WithoutConcat(a[1..], b, f);
      assert (a + b)[1..] == a[1..] + b;
    }
  }

  /** The world, the in-memory custom resource and the error a call leaves behind. */
  datatype Outcome = Outcome(w: World, cr: Obj, error: Option<Error>)

  /** 0 if an update of `cr` cannot conflict once nobody interferes any more. */
  function Staleness(w: World, cr: Obj): nat {
    if w.rely.cr in w.store.objects && w.store.objects[w.rely.cr].version == cr.version then 0 else 1
  }

  datatype Edit = Add(finalizer: string) | Drop(finalizer: string)

  function Edited(cr: Obj, e: Edit): Obj {
    match e
    case Add(f) => cr.(finalizers := cr.finalizers + [f])
    case Drop(f) => cr.(finalizers := Without(cr.finalizers, f))
  }

  /** The retry loop both functions share: edit, update, and on a conflict reload and start over. The edit is
      applied again without looking whether the reloaded resource still needs it. */
  function Retrying(w: World, cr: Obj, e: Edit): (o: Outcome)
    ensures o.w.rely == w.rely && o.w.misreads == w.misreads
    decreases |w.script|, Staleness(w, cr)
  {
    var edited := Edited(cr, e);
    var (w1, reply) := CallUpdate(w, w.rely.cr, edited);
    if reply.Ok? then Outcome(w1, reply.obj, None)
    else if reply.error != Conflict then Outcome(w1, edited, Some(reply.error))
    else
      var (w2, reloaded) := CallGet(w1, w.rely.cr, true);
      if reloaded.Failed? then Outcome(w2, edited, Some(reloaded.error))
      else Retrying(w2, reloaded.obj, e)
  }

  function Appending(w: World, cr: Obj, f: string): (o: Outcome)
    ensures o.w.rely == w.rely && o.w.misreads == w.misreads
  {
    if f in cr.finalizers then Outcome(w, cr, None) else Retrying(w, cr, Add(f))
  }

  function Dropping(w: World, cr: Obj, f: string): (o: Outcome)
    ensures o.w.rely == w.rely && o.w.misreads == w.misreads
  {
    if f in cr.finalizers then Retrying(w, cr, Drop(f)) else Outcome(w, cr, None)
  }

  // ---------- what a successful loop stores ----------

  /** The list after the edit, as others may check it: the finalizer at the end, or no copy of it and all others
      as often as before. */
  ghost predicate EditedList(before: seq<string>, after: seq<string>, edit: Edit) {
    match edit
    case Add(f) => after == before + [f]
    case Drop(f) => multiset(after) == multiset(before)[f := 0]
  }

  /** The one effect of a loop: the stored resource right before it, with its list of finalizers edited and
      nothing else changed; it goes if it was being deleted and has no finalizer left. */
  ghost predicate IsEditOf(e: Effect, k: Key, edit: Edit) {
    && e.key == k
    && e.before.Some?
    && if e.after.None? then e.before.value.deleting && EditedList(e.before.value.finalizers, [], edit)
       else
         && EditedList(e.before.value.finalizers, e.after.value.finalizers, edit)
         && e.after.value == e.before.value.(finalizers := e.after.value.finalizers, version := e.after.value.version)
         && e.after.value.version > e.before.value.version
         && !(e.before.value.deleting && e.after.value.finalizers == [])
  }

  ghost predicate OneEdit(from: World, to: World, edit: Edit) {
    exists e :: to.writes == from.writes + [e] && IsEditOf(e, from.rely.cr, edit)
  }

  lemma AttemptEffect(w: World, cr: Obj, edit: Edit)
    requires Coherent(w.store) && Known(w.store, w.rely.cr, cr)
    ensures var (w1, reply) := CallUpdate(w, w.rely.cr, Edited(cr, edit));
            && (w1.writes == w.writes || OneEdit(w, w1, edit))
            && (reply.Ok? ==> OneEdit(w, w1, edit) && reply.obj.deleting == cr.deleting
                              && EditedList(cr.finalizers, reply.obj.finalizers, edit))
            && (reply.Failed? && reply.error != Unavailable ==> w1.writes == w.writes)
  {
    var edited := Edited(cr, edit);
    if edit.Drop? {
      WithoutCounts(cr.finalizers, edit.finalizer);
    }
    UpdateHitsBase(w, w.rely.cr, cr, edited);
    var w1 := CallUpdate(w, w.rely.cr, edited).0;
    var hit := Effect(w.rely.cr, Some(cr), Replacement(cr, edited, w1.store.clock));
    if w1.writes == w.writes + [hit] {
      assert IsEditOf(hit, w.rely.cr, edit);
    }
  }

  /** Whatever others write in between: the loop ends, it has at most one effect, that effect is the edit
      applied to the resource stored right before it, and a loop that reports success has had it. */
  lemma {:induction false} RetryingStoresOneEdit(w: World, cr: Obj, edit: Edit)
    requires Coherent(w.store) && Known(w.store, w.rely.cr, cr)
    ensures var o := Retrying(w, cr, edit);
            && (o.error.None? ==> OneEdit(w, o.w, edit))
            && (o.w.writes == w.writes || OneEdit(w, o.w, edit))
            && (o.error.Some? && o.error.value != Unavailable ==> o.w.writes == w.writes)
    decreases |w.script|, Staleness(w, cr)
  {
    AttemptEffect(w, cr, edit);
    UpdateStep(w, w.rely.cr, Edited(cr, edit));
    var (w1, reply) := CallUpdate(w, w.rely.cr, Edited(cr, edit));
    if reply == Failed(Conflict) {
      ReadStep(w1, w.rely.cr, true);
      var (w2, reloaded) := CallGet(w1, w.rely.cr, true);
      if reloaded.Ok? {
        RetryingStoresOneEdit(w2, reloaded.obj, edit);
      }
    }
  }

  /** Adding a finalizer that the resource has, or taking off one that it has not, does nothing at all; otherwise
      success means that the list was edited once. */
  lemma {:induction false} EditsIfNeeded(w: World, cr: Obj, f: string)
    requires Coherent(w.store) && Known(w.store, w.rely.cr, cr)
    ensures var o := Appending(w, cr, f);
            if f in cr.finalizers then o.w == w && o.cr == cr && o.error.None?
            else o.error.None? ==> OneEdit(w, o.w, Add(f))
    ensures var o := Dropping(w, cr, f);
            if f !in cr.finalizers then o.w == w && o.cr == cr && o.error.None?
            else o.error.None? ==> OneEdit(w, o.w, Drop(f))
  {
    RetryingStoresOneEdit(w, cr, Add(f));
    RetryingStoresOneEdit(w, cr, Drop(f));
  }

  // ---------- objects guarded by a finalizer ----------

  /** Syncs an object and then adds the finalizer that guards it. */
  function SyncingAndAdding(w: World, cr: Obj, k: Key, bp: Obj, c: Sync.Comparer, f: string): (r: (Outcome, bool))
    ensures r.0.w.rely == w.rely
  {
    if cr.deleting then (Outcome(w, cr, None), true)
    else
      var synced := Sync.Syncing(w, cr.deleting, k, bp, c);
      if !synced.done then (Outcome(synced.w, cr, synced.error), false)
      else
        var o := Appending(synced.w, cr, f);
        (o, o.error.None?)
  }

  /** Deletes an object and then takes off its finalizer, even if the deletion failed. */
  function DeletingAndDropping(w: World, cr: Obj, k: Key, cached: bool, f: string): (o: Outcome)
    ensures o.w.rely == w.rely
  {
    Dropping(Sync.Deleting(w, k, cached).0, cr, f)
  }

  /** The resource in memory is the stored one, and nobody interferes. */
  ghost predicate Current(w: World, cr: Obj) {
    && w.script == []
    && w.rely.cr in w.store.objects && w.store.objects[w.rely.cr] == cr
    && 0 < cr.version
  }

  lemma AppendingStores(w: World, cr: Obj, f: string)
    requires Current(w, cr) && !cr.deleting
    ensures var o := Appending(w, cr, f);
            && o.error.None?
            && w.rely.cr in o.w.store.objects && f in o.w.store.objects[w.rely.cr].finalizers
            && forall x | x != w.rely.cr :: Lookup(o.w.store.objects, x) == Lookup(w.store.objects, x)
  {
    if f !in cr.finalizers {
      var edited := Edited(cr, Add(f));
      assert edited.finalizers[|cr.finalizers|] == f;
      assert CallUpdate(w, w.rely.cr, edited).1.Ok?;
    }
  }

  lemma AppendingStaysCurrent(w: World, cr: Obj, f: string)
    requires Current(w, cr) && !cr.deleting
    ensures var o := Appending(w, cr, f);
            && o.w.rely == w.rely && Current(o.w, o.cr) && !o.cr.deleting
            && o.cr.finalizers == cr.finalizers + if f in cr.finalizers then [] else [f]
  {
    if f !in cr.finalizers {
      assert CallUpdate(w, w.rely.cr, Edited(cr, Add(f))).1.Ok?;
    }
  }

  ghost predicate SameAt(w: World, v: World, x: Key) {
    v.script == [] && Lookup(v.store.objects, x) == Lookup(w.store.objects, x)
  }

  lemma CreateTouchesOne(w: World, k: Key, bp: Obj, x: Key)
    requires w.script == [] && x != k
    ensures SameAt(w, Sync.Creating(w, false, k, bp, false).w, x)
  {
  }

  lemma PatchTouchesOne(w: World, k: Key, merged: Obj, version: nat, x: Key)
    requires w.script == [] && x != k
    ensures SameAt(w, Sync.Patching(w, k, merged, version).w, x)
  {
  }

  lemma DeleteTouchesOne(w: World, k: Key, x: Key)
    requires w.script == [] && x != k
    ensures SameAt(w, CallDelete(w, k).0, x)
  {
  }

  lemma {:induction false} UpdateTouchesOne(w: World, k: Key, actual: Obj, bp: Obj, c: Sync.Comparer, x: Key)
    requires w.script == [] && x != k
    ensures SameAt(w, Sync.Updating(w, false, k, actual, bp, c).w, x)
  {
    var merged := Sync.Overlay(actual, bp);
    DeleteTouchesOne(w, k, x);
    CreateTouchesOne(CallDelete(w, k).0, k, merged, x);
    PatchTouchesOne(w, k, merged, actual.version, x);
  }

  lemma {:induction false} SyncTouchesOne(w: World, k: Key, bp: Obj, c: Sync.Comparer, x: Key)
    requires w.script == [] && x != k
    ensures SameAt(w, Sync.Syncing(w, false, k, bp, c).w, x)
  {
    var (w1, found) := CallGet(w, k, Sync.ReadsFromCache(w.rely.cr, k));
    assert w1 == Sync.Caught(w);
    if found.Ok? {
      UpdateTouchesOne(w1, k, found.obj, bp, c, x);
    } else {
      CreateTouchesOne(w1, k, bp, x);
    }
  }

  /** Undisturbed, done means guarded: the object is stored, and so is its finalizer. */
  lemma {:induction false} DoneMeansGuarded(w: World, cr: Obj, k: Key, bp: Obj, c: Sync.Comparer, f: string)
    requires Current(w, cr) && !cr.deleting && Sync.Ready(w, k, bp) && k != w.rely.cr
    ensures var (o, done) := SyncingAndAdding(w, cr, k, bp, c, f);
            done ==>
              && k in o.w.store.objects && o.w.store.objects[k].spec == bp.spec
              && w.rely.cr in o.w.store.objects && f in o.w.store.objects[w.rely.cr].finalizers
  {
    var synced := Sync.Syncing(w, false, k, bp, c);
    Sync.Round(w, k, bp, c);
    SyncTouchesOne(w, k, bp, c, w.rely.cr);
    assert Lookup(synced.w.store.objects, w.rely.cr) == Some(cr);
    if synced.done {
      AppendingStores(synced.w, cr, f);
      var o := Appending(synced.w, cr, f);
      assert Lookup(o.w.store.objects, k) == Lookup(synced.w.store.objects, k);
    }
  }

  lemma {:induction false} RetryingKeepsOwned(w: World, cr: Obj, e: Edit, k: Key)
    requires k in w.rely.owned && k != w.rely.cr
    ensures Lookup(Retrying(w, cr, e).w.store.objects, k) == Lookup(w.store.objects, k)
    decreases |w.script|, Staleness(w, cr)
  {
    var edited := Edited(cr, e);
    var (w1, reply) := CallUpdate(w, w.rely.cr, edited);
    OwnedStays(w, k);
    assert Lookup(w1.store.objects, k) == Lookup(w.store.objects, k);
    if reply == Failed(Conflict) {
      var (w2, reloaded) := CallGet(w1, w.rely.cr, true);
      OwnedStays(w1, k);
      if reloaded.Ok? {
        RetryingKeepsOwned(w2, reloaded.obj, e, k);
      }
    }
  }

  /** Exactly when a guarded object is left unguarded, for every script: success always means that the finalizer
      was taken off, but the object is gone if and only if its deletion did not fail. */
  lemma UnguardedIfDeletionFails(w: World, cr: Obj, k: Key, cached: bool, f: string)
    requires Coherent(w.store) && Known(w.store, w.rely.cr, cr) && f in cr.finalizers
    requires k in w.rely.owned && k != w.rely.cr && k in w.store.objects && w.store.objects[k].finalizers == []
    ensures var deleted := Sync.Deleting(w, k, cached).0;
            var o := DeletingAndDropping(w, cr, k, cached, f);
            && (o.error.None? ==> OneEdit(deleted, o.w, Drop(f)))
            && (k in o.w.store.objects <==> Sync.DeletionFails(w, k, cached))
  {
    var deleted := Sync.Deleting(w, k, cached).0;
    Sync.DeletionLeaves(w, k, cached);
    DeletionAdvances(w, k, cached);
    KnownLater(w.store, deleted.store, w.rely.cr, cr);
    RetryingStoresOneEdit(deleted, cr, Drop(f));
    RetryingKeepsOwned(deleted, cr, Drop(f), k);
    var o := Retrying(deleted, cr, Drop(f));
    assert Lookup(o.w.store.objects, k) == Lookup(deleted.store.objects, k);
  }

  lemma DeletionAdvances(w: World, k: Key, cached: bool)
    requires Coherent(w.store)
    ensures Advances(w.store, Sync.Deleting(w, k, cached).0.store)
  {
    var (w1, found) := CallGet(w, k, cached);
    ReadStep(w, k, cached);
    if found.Ok? {
      DeleteStep(w1, k);
      AdvancesTransitive(w.store, w1.store, CallDelete(w1, k).0.store);
    }
  }

  /** If the deletion fails, the finalizer still goes, and the object is left behind unguarded. */
  lemma FailedDeletionUnguards(w: World, cr: Obj, k: Key, cached: bool, f: string)
    requires w.script == [Pause, WriteFault(false)] && k != w.rely.cr
    requires w.rely.cr in w.store.objects && w.store.objects[w.rely.cr] == cr && 0 < cr.version && !cr.deleting
    requires f in cr.finalizers && k in w.store.objects && (cached ==> k in w.store.cache)
    ensures var o := DeletingAndDropping(w, cr, k, cached, f);
            && o.error.None?
            && k in o.w.store.objects
            && w.rely.cr in o.w.store.objects && f !in o.w.store.objects[w.rely.cr].finalizers
  {
    var w1, w2 := w.(script := [WriteFault(false)]), w.(script := []);
    assert w.script[1..] == [WriteFault(false)] && w1.script[1..] == [];
    assert Settle(w) == (w1, NoFault) && Settle(w1) == (w2, OnWrite(false));
    assert Sync.Deleting(w, k, cached).0 == w2;
    var edited := Edited(cr, Drop(f));
    WithoutContains(cr.finalizers, f, f);
    assert CallUpdate(w2, w.rely.cr, edited).1.Ok?;
  }
}
