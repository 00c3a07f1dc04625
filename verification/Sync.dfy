/**
 The generic reconcile step: bring one object of the cluster to the state of its blueprint.

 The functions give the outcome of each call as a value; class `DeployContext` in Deploy.dfy performs the
 same calls step by step and is proved to agree with them.
 */
module Sync {
  import opened Cluster

  const DIGEST := "che.eclipse.org/managed-annotations-digest"

  /** Which metadata a kind's comparison looks at, besides the spec. `Everything` is a comparison without
      options, which also sees the resourceVersion. */
  datatype Comparer = IgnoreMeta | LabelsEqual | LabelsAndDigest | Everything

  function Digest(annotations: Fields): string {
    if DIGEST in annotations then annotations[DIGEST] else ""
  }

  predicate Differs(actual: Obj, blueprint: Obj, c: Comparer) {
    match c
    case IgnoreMeta => actual.spec != blueprint.spec
    case LabelsEqual => actual.spec != blueprint.spec || actual.labels != blueprint.labels
    case LabelsAndDigest =>
      || actual.spec != blueprint.spec
      || actual.labels != blueprint.labels
      || Digest(actual.annotations) != Digest(blueprint.annotations)
    case Everything => actual != blueprint
  }

  /** Kinds that are updated by deleting and creating them anew. */
  predicate IsUpdateUsingDeleteCreate(kind: Kind) {
    kind.Service? || kind.Ingress? || kind.Route? || kind.Job? || kind.Secret?
  }

  /** The blueprint with the labels and annotations of the actual object beneath its own. */
  function Overlay(actual: Obj, blueprint: Obj): Obj {
    blueprint.(labels := actual.labels + blueprint.labels, annotations := actual.annotations + blueprint.annotations)
  }

  /** Objects in the custom resource's own namespace get it as their owner. */
  function WithOwner(cr: Key, k: Key, o: Obj): Reply {
    if k.namespace != cr.namespace then Ok(o)
    else if o.owner.Some? && o.owner.value != cr then Failed(Invalid)
    else Ok(o.(owner := Some(cr)))
  }

  predicate ReadsFromCache(cr: Key, k: Key) {
    k.namespace == cr.namespace
  }

  /** What a call leaves behind: the world, the blueprint it may have edited, and its two results. */
  datatype Outcome = Outcome(w: World, blueprint: Obj, done: bool, error: Option<Error>)

  function Creating(w: World, crDeleting: bool, k: Key, bp: Obj, existsIsFine: bool): (o: Outcome)
    ensures o.w.rely == w.rely && o.w.misreads == w.misreads
  {
    if crDeleting then Outcome(w, bp, true, None)
    else
      var owned := WithOwner(w.rely.cr, k, bp);
      if owned.Failed? then Outcome(w, bp, false, Some(owned.error))
      else
        var (w1, reply) := CallCreate(w, k, owned.obj);
        if reply.Ok? then Outcome(w1, reply.obj, true, None)
        else if reply.error == AlreadyExists then Outcome(w1, owned.obj, existsIsFine, None)
        else Outcome(w1, owned.obj, false, Some(reply.error))
  }

  function CreatingIfNotExists(w: World, crDeleting: bool, k: Key, bp: Obj): (o: Outcome)
    ensures o.w.rely == w.rely && o.w.misreads == w.misreads
  {
    if crDeleting then Outcome(w, bp, true, None)
    else
      var (w1, found) := CallGet(w, k, ReadsFromCache(w.rely.cr, k));
      if found.Ok? then Outcome(w1, bp, true, None)
      else if found.error != NotFound then Outcome(w1, bp, false, Some(found.error))
      else Creating(w1, crDeleting, k, bp, true)
  }

  function Replacing(w: World, crDeleting: bool, k: Key, merged: Obj): (o: Outcome)
    ensures o.w.rely == w.rely && o.w.misreads == w.misreads
  {
    var (w1, gone) := CallDelete(w, k);
    if gone.Failed? && gone.error != NotFound then Outcome(w1, merged, false, Some(gone.error))
    else Creating(w1, crDeleting, k, merged, false)
  }

  function Patching(w: World, k: Key, merged: Obj, version: nat): (o: Outcome)
    ensures o.w.rely == w.rely && o.w.misreads == w.misreads
  {
    var owned := WithOwner(w.rely.cr, k, merged);
    if owned.Failed? then Outcome(w, merged, false, Some(owned.error))
    else
      var next := owned.obj.(version := version);
      var (w1, reply) := CallUpdate(w, k, next);
      if reply.Ok? then Outcome(w1, reply.obj, false, None) else Outcome(w1, next, false, Some(reply.error))
  }

  function Updating(w: World, crDeleting: bool, k: Key, actual: Obj, bp: Obj, c: Comparer): (o: Outcome)
    ensures o.w.rely == w.rely && o.w.misreads == w.misreads
  {
    if crDeleting || !Differs(actual, bp, c) then Outcome(w, bp, true, None)
    else if IsUpdateUsingDeleteCreate(k.kind) then Replacing(w, crDeleting, k, Overlay(actual, bp))
    else Patching(w, k, Overlay(actual, bp), actual.version)
  }

  function Syncing(w: World, crDeleting: bool, k: Key, bp: Obj, c: Comparer): (o: Outcome)
    ensures o.w.rely == w.rely && o.w.misreads == w.misreads
  {
    if crDeleting then Outcome(w, bp, true, None)
    else
      var (w1, found) := CallGet(w, k, ReadsFromCache(w.rely.cr, k));
      if found.Ok? then Updating(w1, crDeleting, k, found.obj, bp, c)
      else if found.error == NotFound then Creating(w1, crDeleting, k, bp, false)
      else Outcome(w1, bp, false, Some(found.error))
  }

  /** Deletion answers "done" whenever the read before it does not find the object, even if that read failed. */
  function Deleting(w: World, k: Key, cached: bool): (r: (World, bool, Option<Error>))
    ensures r.0.rely == w.rely && w.misreads <= r.0.misreads
  {
    var (w1, found) := CallGet(w, k, cached);
    if found == Failed(NotFound) then (w1, true, None)
    else if found.Failed? then (w1.(misreads := w1.misreads + {k}), true, None)
    else
      var (w2, gone) := CallDelete(w1, k);
      if gone.Ok? || gone.error == NotFound then (w2, true, None) else (w2, false, Some(gone.error))
  }

  // ---------- what a comparison sees ----------

  /** The stored object is as the blueprint has it, as far as this comparison looks. */
  predicate LooksLike(stored: Obj, bp: Obj, c: Comparer) {
    && stored.spec == bp.spec
    && (c != IgnoreMeta ==> stored.labels == bp.labels)
    && (c == LabelsAndDigest ==>
          (if DIGEST in stored.annotations then stored.annotations[DIGEST] else "")
          == (if DIGEST in bp.annotations then bp.annotations[DIGEST] else ""))
    && (c == Everything ==> stored == bp)
  }

  /** The blueprint's spec, labels and annotations are stored. */
  predicate IsStored(w: World, k: Key, bp: Obj) {
    && k in w.store.objects
    && w.store.objects[k].spec == bp.spec
    && (forall l | l in bp.labels ::
          l in w.store.objects[k].labels && w.store.objects[k].labels[l] == bp.labels[l])
    && forall a | a in bp.annotations ::
         a in w.store.objects[k].annotations && w.store.objects[k].annotations[a] == bp.annotations[a]
  }

  lemma CreatedIsStored(w: World, k: Key, bp: Obj)
    ensures var o := Creating(w, false, k, bp, false); o.done ==> o.error.None? && IsStored(o.w, k, bp)
  {
  }

  lemma UpdatingIsAsAsked(w: World, k: Key, actual: Obj, bp: Obj, c: Comparer)
    ensures var o := Updating(w, false, k, actual, bp, c);
            if LooksLike(actual, bp, c) then o.done && o.error.None? && o.w == w
            else o.done ==> o.error.None? && IsStored(o.w, k, bp)
  {
    if !LooksLike(actual, bp, c) && IsUpdateUsingDeleteCreate(k.kind) {
      CreatedIsStored(CallDelete(w, k).0, k, Overlay(actual, bp));
    }
  }

  /** Whatever others do meanwhile: a sync that reports done has found an object that looks like the blueprint
      (in the cache, if it is in the custom resource's namespace, and on the server otherwise) or has just stored
      one with the blueprint's spec, labels and annotations. */
  lemma {:induction false} DoneIsAsAsked(w: World, k: Key, bp: Obj, c: Comparer)
    ensures var o := Syncing(w, false, k, bp, c);
            var s := Settle(w).0.store;
            var seen := if k.namespace == w.rely.cr.namespace then s.cache else s.objects;
            o.done ==>
              && o.error.None?
              && if k in seen && LooksLike(seen[k], bp, c) then o.w == Settle(w).0 else IsStored(o.w, k, bp)
  {
    var (w1, found) := CallGet(w, k, ReadsFromCache(w.rely.cr, k));
    CreatedIsStored(w1, k, bp);
    if found.Ok? {
      UpdatingIsAsAsked(w1, k, found.obj, bp, c);
    }
  }

  /** Undisturbed, creating what does not exist creates it, and leaves alone what does. */
  lemma CreatesIfMissing(w: World, k: Key, bp: Obj)
    requires Ready(w, k, bp)
    ensures var o := CreatingIfNotExists(w, false, k, bp);
            && o.done && o.error.None?
            && if k in w.store.objects then o.w.writes == w.writes && o.w.store.objects == w.store.objects
               else IsStored(o.w, k, bp)
  {
    if k !in w.store.objects {
      assert CallGet(w, k, ReadsFromCache(w.rely.cr, k)) == (Caught(w), Failed(NotFound));
      assert CallCreate(Caught(w), k, WithOwner(w.rely.cr, k, bp).obj).1.Ok?;
    }
  }

  /** A deletion, or the mark of one on an object that finalizers hold. */
  predicate IsRemoval(e: Effect) {
    && e.before.Some?
    && (e.after.Some? ==> e.after.value == e.before.value
                          || e.after.value == e.before.value.(deleting := true, version := e.after.value.version))
  }

  lemma DeletionEffect(w: World, k: Key)
    ensures var v := CallDelete(w, k).0;
            v.writes == w.writes || exists e :: v.writes == w.writes + [e] && e.key == k && IsRemoval(e)
  {
    var settled := Settle(w);
    var s := settled.0.store;
    var v := CallDelete(w, k).0;
    if v.writes != w.writes {
      var e := Effect(k, Lookup(s.objects, k), Lookup(Deleted(s, k).0.objects, k));
      assert v.writes == w.writes + [e] && IsRemoval(e);
    }
  }

  /** A blueprint for the custom resource's namespace that belongs to something else is never written: the sync is
      not done unless nothing was to be done, and all it may do is delete an object that has to be created anew. */
  lemma {:induction false} ForeignIsRefused(w: World, k: Key, bp: Obj, c: Comparer)
    requires k.namespace == w.rely.cr.namespace && bp.owner.Some? && bp.owner.value != w.rely.cr
    ensures var o := Syncing(w, false, k, bp, c);
            var s := Settle(w).0.store;
            && (o.done ==> k in s.cache && LooksLike(s.cache[k], bp, c) && o.w == Settle(w).0)
            && (o.w.writes == w.writes || exists e :: o.w.writes == w.writes + [e] && e.key == k && IsRemoval(e))
            && (o.w.writes != w.writes ==> k.kind in {Service, Ingress, Route, Job, Secret})
  {
    var (w1, found) := CallGet(w, k, true);
    if found.Ok? && !LooksLike(found.obj, bp, c) {
      DeletionEffect(w1, k);
      assert WithOwner(w.rely.cr, k, Overlay(found.obj, bp)).Failed?;
    }
  }

  // ---------- no lost update ----------

  /** The owner an object is written with. */
  function OwnerGiven(cr: Key, k: Key, bp: Obj): Option<Key> {
    if k.namespace == cr.namespace then Some(cr) else bp.owner
  }

  /** The one effect an in-place sync may have: a creation from the blueprint, or a replacement of exactly
      the object that was compared. A replacement keeps every label and annotation that the blueprint does not
      set, but finalizers and owner are those of the blueprint. */
  ghost predicate CreationOrOverlay(cr: Key, e: Effect, k: Key, bp: Obj, c: Comparer) {
    && e.key == k
    && (e.after.Some? ==>
          && e.after.value.spec == bp.spec
          && e.after.value.finalizers == bp.finalizers
          && e.after.value.owner == OwnerGiven(cr, k, bp))
    && match e.before
       case None =>
         && e.after.Some?
         && e.after.value.labels == bp.labels
         && e.after.value.annotations == bp.annotations
       case Some(old_) =>
         && !LooksLike(old_, bp, c)
         && (e.after.None? ==> old_.deleting && bp.finalizers == [])
         && (e.after.Some? ==>
               && e.after.value.labels == old_.labels + bp.labels
               && e.after.value.annotations == old_.annotations + bp.annotations
               && e.after.value.version > old_.version)
  }

  ghost predicate AtMostOneEffect(from: World, to: World, k: Key, bp: Obj, c: Comparer) {
    || to.writes == from.writes
    || exists e :: to.writes == from.writes + [e] && CreationOrOverlay(from.rely.cr, e, k, bp, c)
  }

  lemma CreateEffect(w: World, crDeleting: bool, k: Key, bp: Obj, c: Comparer, existsIsFine: bool)
    ensures AtMostOneEffect(w, Creating(w, crDeleting, k, bp, existsIsFine).w, k, bp, c)
  {
    var o := Creating(w, crDeleting, k, bp, existsIsFine);
    if o.w.writes != w.writes {
      var e := Effect(k, None, Lookup(Created(Settle(w).0.store, k, WithOwner(w.rely.cr, k, bp).obj).0.objects, k));
      assert o.w.writes == w.writes + [e];
    }
  }

  lemma HitIsOverlay(cr: Key, k: Key, actual: Obj, bp: Obj, c: Comparer, version: nat)
    requires Differs(actual, bp, c) && WithOwner(cr, k, Overlay(actual, bp)).Ok? && version > actual.version
    ensures var next := WithOwner(cr, k, Overlay(actual, bp)).obj.(version := actual.version);
            CreationOrOverlay(cr, Effect(k, Some(actual), Replacement(actual, next, version)), k, bp, c)
  {
  }

  lemma PatchEffect(w: World, k: Key, actual: Obj, bp: Obj, c: Comparer)
    requires Coherent(w.store) && Known(w.store, k, actual) && Differs(actual, bp, c)
    ensures AtMostOneEffect(w, Patching(w, k, Overlay(actual, bp), actual.version).w, k, bp, c)
  {
    var owned := WithOwner(w.rely.cr, k, Overlay(actual, bp));
    if owned.Ok? {
      var next := owned.obj.(version := actual.version);
      var w1 := CallUpdate(w, k, next).0;
      UpdateHitsBase(w, k, actual, next);
      if w1.writes != w.writes {
        HitIsOverlay(w.rely.cr, k, actual, bp, c, w1.store.clock);
      }
    }
  }

  lemma UpdateEffect(w: World, crDeleting: bool, k: Key, actual: Obj, bp: Obj, c: Comparer)
    requires Coherent(w.store) && Known(w.store, k, actual) && !IsUpdateUsingDeleteCreate(k.kind)
    ensures AtMostOneEffect(w, Updating(w, crDeleting, k, actual, bp, c).w, k, bp, c)
  {
    if !crDeleting && Differs(actual, bp, c) {
      PatchEffect(w, k, actual, bp, c);
    }
  }

  /** However stale the cached read was and whoever wrote in between: a sync of an in-place kind has at most
      one effect, and a replacement hits the very version that was compared. */
  lemma NoLostUpdate(w: World, crDeleting: bool, k: Key, bp: Obj, c: Comparer)
    requires Coherent(w.store) && !IsUpdateUsingDeleteCreate(k.kind)
    ensures AtMostOneEffect(w, Syncing(w, crDeleting, k, bp, c).w, k, bp, c)
  {
    if !crDeleting {
      var (w1, found) := CallGet(w, k, ReadsFromCache(w.rely.cr, k));
      ReadStep(w, k, ReadsFromCache(w.rely.cr, k));
      if found.Ok? {
        UpdateEffect(w1, crDeleting, k, found.obj, bp, c);
      } else if found.error == NotFound {
        CreateEffect(w1, crDeleting, k, bp, c, false);
      }
    }
  }

  /** Everything others have put on the replaced object is still there. */
  predicate KeepsOthers(before: Obj, after: Obj) {
    && (forall f | f in before.finalizers :: f in after.finalizers)
    && after.owner == before.owner
    && (forall l | l in before.labels :: l in after.labels)
    && (forall a | a in before.annotations :: a in after.annotations)
  }

  /** The blueprint carries every finalizer of the object, and the object has the owner it would be given. */
  predicate Carries(cr: Key, k: Key, bp: Obj, before: Obj) {
    (forall f | f in before.finalizers :: f in bp.finalizers) && before.owner == OwnerGiven(cr, k, bp)
  }

  /** What an in-place replacement loses, exactly: labels and annotations never, a finalizer if and only if the
      blueprint does not carry it, the owner if and only if the blueprint is given another one. So nothing of
      others is lost if and only if the compared version has nothing the blueprint does not carry. */
  lemma KeptIfCarried(w: World, crDeleting: bool, k: Key, bp: Obj, c: Comparer, e: Effect)
    requires Coherent(w.store) && !IsUpdateUsingDeleteCreate(k.kind)
    requires Syncing(w, crDeleting, k, bp, c).w.writes == w.writes + [e] && e.before.Some? && e.after.Some?
    ensures forall f | f in e.before.value.finalizers :: f in e.after.value.finalizers <==> f in bp.finalizers
    ensures e.after.value.owner == e.before.value.owner <==> e.before.value.owner == OwnerGiven(w.rely.cr, k, bp)
    ensures KeepsOthers(e.before.value, e.after.value) <==> Carries(w.rely.cr, k, bp, e.before.value)
  {
    NoLostUpdate(w, crDeleting, k, bp, c);
    var v := Syncing(w, crDeleting, k, bp, c).w;
    assert v.writes[|w.writes|] == e;
    var d :| v.writes == w.writes + [d] && CreationOrOverlay(w.rely.cr, d, k, bp, c);
    assert v.writes[|w.writes|] == d;
  }

  /** Creating what does not exist never replaces anything: its one effect, if any, is at a free key. */
  lemma NeverReplaces(w: World, crDeleting: bool, k: Key, bp: Obj)
    ensures var o := CreatingIfNotExists(w, crDeleting, k, bp);
            || o.w.writes == w.writes
            || exists e ::
                 && o.w.writes == w.writes + [e] && e.key == k
                 && e.before.None? && e.after.Some? && e.after.value.spec == bp.spec
  {
    if !crDeleting {
      var (w1, found) := CallGet(w, k, ReadsFromCache(w.rely.cr, k));
      if found == Failed(NotFound) {
        CreateEffect(w1, crDeleting, k, bp, Everything, true);
        var o := Creating(w1, crDeleting, k, bp, true);
        if o.w.writes != w.writes {
          var e :| o.w.writes == w.writes + [e] && CreationOrOverlay(w.rely.cr, e, k, bp, Everything);
          CreationHasNoBefore(w1, k, bp, e);
        }
      }
    }
  }

  lemma CreationHasNoBefore(w: World, k: Key, bp: Obj, e: Effect)
    requires Creating(w, false, k, bp, true).w.writes == w.writes + [e]
    ensures e.before.None?
  {
    var v := Creating(w, false, k, bp, true).w;
    assert e == v.writes[|w.writes|];
  }

  // ---------- deletion ----------

  /** The read before a deletion does not show the object, or the deletion is not carried out. */
  predicate DeletionFails(w: World, k: Key, cached: bool) {
    || NextFault(w.script).OnRead?
    || (cached && k !in Settle(w).0.store.cache)
    || NextFault(AfterBurst(w.script)) == OnWrite(false)
  }

  lemma OwnedIsDeleted(w: World, k: Key)
    requires k in w.rely.owned && k in w.store.objects && w.store.objects[k].finalizers == []
    ensures var (w1, reply) := CallDelete(w, k);
            && (k in w1.store.objects <==> NextFault(w.script) == OnWrite(false))
            && (reply.Failed? <==> NextFault(w.script).OnWrite?)
            && (reply.Failed? ==> reply.error == Unavailable)
  {
    var s := Settle(w).0.store;
    SettleFollowsScript(w);
    OwnedStays(w, k);
    assert Lookup(s.objects, k) == Some(w.store.objects[k]);
    assert Deleted(s, k).0 == Vanish(s, k);
  }

  /** Exactly when a deletion leaves the object behind, for every script of other writers: an object that
      nobody else touches and no finalizer holds is gone if and only if the deletion does not fail. The caller
      is told that it is gone whenever the read fails or finds nothing. */
  lemma DeletionLeaves(w: World, k: Key, cached: bool)
    requires k in w.rely.owned && k in w.store.objects && w.store.objects[k].finalizers == []
    ensures var (w1, done, _) := Deleting(w, k, cached);
            && (k in w1.store.objects <==> DeletionFails(w, k, cached))
            && (done <==> NextFault(w.script).OnRead? || (cached && k !in Settle(w).0.store.cache)
                          || !NextFault(AfterBurst(w.script)).OnWrite?)
            && w1.misreads == w.misreads + if NextFault(w.script).OnRead? then {k} else {}
  {
    var (w1, found) := CallGet(w, k, cached);
    SettleFollowsScript(w);
    OwnedStays(w, k);
    assert Lookup(w1.store.objects, k) == Some(w.store.objects[k]);
    if found.Ok? {
      OwnedIsDeleted(w1, k);
    }
  }

  lemma DeletionKeepsOthers(w: World, k: Key, cached: bool, x: Key)
    requires x in w.rely.owned && x != k
    ensures Lookup(Deleting(w, k, cached).0.store.objects, x) == Lookup(w.store.objects, x)
  {
    var (w1, found) := CallGet(w, k, cached);
    OwnedStays(w, x);
    if found.Ok? {
      OwnedStays(w1, x);
    }
  }

  // ---------- objects nobody else writes ----------

  lemma CreatingKeepsOwned(w: World, k: Key, bp: Obj, x: Key)
    requires x in w.rely.owned && x != k
    ensures Lookup(Creating(w, false, k, bp, false).w.store.objects, x) == Lookup(w.store.objects, x)
  {
    OwnedStays(w, x);
    var owned := WithOwner(w.rely.cr, k, bp);
    if owned.Ok? {
      WroteElsewhere(Settle(w), k, Created(Settle(w).0.store, k, owned.obj), x);
    }
  }

  lemma UpdatingKeepsOwned(w: World, k: Key, actual: Obj, bp: Obj, c: Comparer, x: Key)
    requires x in w.rely.owned && x != k
    ensures Lookup(Updating(w, false, k, actual, bp, c).w.store.objects, x) == Lookup(w.store.objects, x)
  {
    OwnedStays(w, x);
    var merged := Overlay(actual, bp);
    if IsUpdateUsingDeleteCreate(k.kind) {
      var v := CallDelete(w, k).0;
      WroteElsewhere(Settle(w), k, Deleted(Settle(w).0.store, k), x);
      CreatingKeepsOwned(v, k, merged, x);
    } else {
      var owned := WithOwner(w.rely.cr, k, merged);
      if owned.Ok? {
        WroteElsewhere(Settle(w), k, Updated(Settle(w).0.store, k, owned.obj.(version := actual.version)), x);
      }
    }
  }

  lemma {:induction false} SyncKeepsOwned(w: World, k: Key, bp: Obj, c: Comparer, x: Key)
    requires x in w.rely.owned && x != k
    ensures Lookup(Syncing(w, false, k, bp, c).w.store.objects, x) == Lookup(w.store.objects, x)
  {
    var (w1, found) := CallGet(w, k, ReadsFromCache(w.rely.cr, k));
    OwnedStays(w, x);
    if found.Ok? {
      UpdatingKeepsOwned(w1, k, found.obj, bp, c, x);
    } else {
      CreatingKeepsOwned(w1, k, bp, x);
    }
  }

  // ---------- convergence ----------

  /** What the label and digest comparison can ever settle on: merging never drops a label, and it never
      drops a digest that the blueprint does not carry. */
  predicate Reachable(stored: Obj, bp: Obj, c: Comparer) {
    match c
    case IgnoreMeta => true
    case LabelsEqual => stored.labels.Keys <= bp.labels.Keys
    case LabelsAndDigest =>
      && stored.labels.Keys <= bp.labels.Keys
      && (DIGEST in bp.annotations || Digest(stored.annotations) == "")
    case Everything => false
  }

  /** A blueprint as callers build it, for an object nobody is tearing down. */
  ghost predicate Ready(w: World, k: Key, bp: Obj) {
    && w.script == []
    && bp.version == 0 && bp.finalizers == [] && !bp.deleting
    && WithOwner(w.rely.cr, k, bp).Ok?
    && (k in w.store.objects ==>
          && 0 < w.store.objects[k].version
          && !w.store.objects[k].deleting
          && (IsUpdateUsingDeleteCreate(k.kind) ==> w.store.objects[k].finalizers == []))
  }

  /** The world after `n` syncs, each from a blueprint built anew. */
  function Rounds(w: World, k: Key, bp: Obj, c: Comparer, n: nat): World
    decreases n
  {
    if n == 0 then w else Rounds(Syncing(w, false, k, bp, c).w, k, bp, c, n - 1)
  }

  /** The next sync reports that the object is up to date, and writes nothing. */
  ghost predicate UpToDate(w: World, k: Key, bp: Obj, c: Comparer) {
    var o := Syncing(w, false, k, bp, c);
    o.done && o.error.None? && o.w.writes == w.writes
  }

  /** What one sync without interference does: nothing if there is no difference, otherwise it leaves the
      blueprint merged over the stored object. Only a replacement in place asks to be called again. */
  ghost predicate RoundResult(w: World, o: Outcome, k: Key, bp: Obj, c: Comparer) {
    && Ready(o.w, k, bp)
    && k in o.w.store.objects
    && if k in w.store.objects && LooksLike(w.store.objects[k], bp, c) then
         o.done && o.error.None? && o.w.writes == w.writes && o.w.store.objects == w.store.objects
       else
         var merged := if k in w.store.objects then Overlay(w.store.objects[k], bp) else bp;
         && |o.w.writes| > |w.writes|
         && o.error.None?
         && (o.done <==> k !in w.store.objects || k.kind.Service? || k.kind.Ingress? || k.kind.Route? || k.kind.Job?
                         || k.kind.Secret?)
         && o.w.store.objects[k].spec == bp.spec
         && o.w.store.objects[k].labels == merged.labels
         && o.w.store.objects[k].annotations == merged.annotations
         && o.w.store.objects[k].finalizers == bp.finalizers
         && o.w.store.objects[k].owner == OwnerGiven(w.rely.cr, k, bp)
  }

  function Caught(w: World): World {
    w.(store := w.store.(cache := w.store.objects))
  }

  lemma RoundCreates(w: World, k: Key, bp: Obj, c: Comparer)
    requires Ready(w, k, bp) && k !in w.store.objects
    ensures RoundResult(w, Syncing(w, false, k, bp, c), k, bp, c)
  {
    assert CallGet(w, k, ReadsFromCache(w.rely.cr, k)) == (Caught(w), Failed(NotFound));
    var owned := WithOwner(w.rely.cr, k, bp).obj;
    assert CallCreate(Caught(w), k, owned).1.Ok?;
  }

  lemma PatchApplies(w: World, k: Key, merged: Obj)
    requires w.script == [] && k in w.store.objects && 0 < w.store.objects[k].version && !w.store.objects[k].deleting
    requires WithOwner(w.rely.cr, k, merged).Ok? && !merged.deleting
    ensures var o := Patching(w, k, merged, w.store.objects[k].version);
            var stored := WithOwner(w.rely.cr, k, merged).obj.(version := w.store.clock + 1);
            && o.w.script == [] && o.w.store.objects == w.store.objects[k := stored]
            && |o.w.writes| == |w.writes| + 1
            && !o.done && o.error.None?
  {
  }

  lemma RoundUpdates(w: World, k: Key, bp: Obj, c: Comparer)
    requires Ready(w, k, bp) && k in w.store.objects && !IsUpdateUsingDeleteCreate(k.kind)
    ensures RoundResult(w, Syncing(w, false, k, bp, c), k, bp, c)
  {
    var actual := w.store.objects[k];
    SyncingIsUpdating(w, k, bp, c);
    if Differs(actual, bp, c) {
      PatchApplies(Caught(w), k, Overlay(actual, bp));
    }
  }

  lemma SyncingIsUpdating(w: World, k: Key, bp: Obj, c: Comparer)
    requires w.script == [] && k in w.store.objects
    ensures Syncing(w, false, k, bp, c) == Updating(Caught(w), false, k, w.store.objects[k], bp, c)
  {
    assert CallGet(w, k, ReadsFromCache(w.rely.cr, k)) == (Caught(w), Ok(w.store.objects[k]));
  }

  lemma ReplacementApplies(w: World, k: Key, merged: Obj)
    requires w.script == [] && k in w.store.objects && w.store.objects[k].finalizers == []
    requires WithOwner(w.rely.cr, k, merged).Ok? && merged.version == 0 && !merged.deleting
    ensures var o := Replacing(w, false, k, merged);
            && o.w.script == [] && k in o.w.store.objects
            && o.w.store.objects[k] == WithOwner(w.rely.cr, k, merged).obj.(version := o.w.store.clock)
            && 0 < o.w.store.clock && o.w.rely == w.rely
            && |o.w.writes| > |w.writes|
            && o.done && o.error.None?
  {
    var (w1, gone) := CallDelete(w, k);
    assert gone.Ok? && k !in w1.store.objects && w1.script == [];
    assert CallCreate(w1, k, WithOwner(w.rely.cr, k, merged).obj).1.Ok?;
  }

  lemma RoundReplaces(w: World, k: Key, bp: Obj, c: Comparer)
    requires Ready(w, k, bp) && k in w.store.objects && IsUpdateUsingDeleteCreate(k.kind)
    ensures RoundResult(w, Syncing(w, false, k, bp, c), k, bp, c)
  {
    var actual := w.store.objects[k];
    SyncingIsUpdating(w, k, bp, c);
    if Differs(actual, bp, c) {
      ReplacementApplies(Caught(w), k, Overlay(actual, bp));
    }
  }

  lemma {:induction false} Round(w: World, k: Key, bp: Obj, c: Comparer)
    requires Ready(w, k, bp)
    ensures RoundResult(w, Syncing(w, false, k, bp, c), k, bp, c)
  {
    if k !in w.store.objects {
      RoundCreates(w, k, bp, c);
    } else if IsUpdateUsingDeleteCreate(k.kind) {
      RoundReplaces(w, k, bp, c);
    } else {
      RoundUpdates(w, k, bp, c);
    }
  }

  /** Nothing can be read as up to date that the comparison can never settle on. */
  lemma NoDifferenceIsReachable(stored: Obj, bp: Obj, c: Comparer)
    requires LooksLike(stored, bp, c) && bp.version != stored.version
    ensures Reachable(stored, bp, c)
  {
  }

  lemma MergeSettles(stored: Obj, merged: Obj, bp: Obj, c: Comparer)
    requires merged.spec == bp.spec
    requires merged.labels == stored.labels + bp.labels && merged.annotations == stored.annotations + bp.annotations
    requires c != Everything
    ensures LooksLike(merged, bp, c) <==> Reachable(stored, bp, c)
    ensures Reachable(merged, bp, c) <==> Reachable(stored, bp, c)
  {
    assert stored.labels.Keys <= bp.labels.Keys <==> stored.labels + bp.labels == bp.labels by {
      assert (stored.labels + bp.labels).Keys == stored.labels.Keys + bp.labels.Keys;
    }
  }

  lemma {:induction false} StaysUnreachable(w: World, v: World, k: Key, bp: Obj, c: Comparer)
    requires Ready(w, k, bp) && k in w.store.objects && !Reachable(w.store.objects[k], bp, c)
    requires v == Syncing(w, false, k, bp, c).w
    ensures Ready(v, k, bp) && k in v.store.objects && !Reachable(v.store.objects[k], bp, c)
    ensures !UpToDate(w, k, bp, c)
  {
    var actual := w.store.objects[k];
    Round(w, k, bp, c);
    if LooksLike(actual, bp, c) {
      NoDifferenceIsReachable(actual, bp, c);
    } else if c != Everything {
      MergeSettles(actual, v.store.objects[k], bp, c);
    }
  }

  lemma {:induction false} NeverSettles(w: World, k: Key, bp: Obj, c: Comparer, n: nat)
    requires Ready(w, k, bp) && k in w.store.objects && !Reachable(w.store.objects[k], bp, c)
    ensures !UpToDate(Rounds(w, k, bp, c, n), k, bp, c)
    decreases n
  {
    var v := Syncing(w, false, k, bp, c).w;
    StaysUnreachable(w, v, k, bp, c);
    if n > 0 {
      NeverSettles(v, k, bp, c, n - 1);
    }
  }

  /** What repeated syncs can come to rest on. */
  ghost predicate CanSettle(w: World, k: Key, bp: Obj, c: Comparer) {
    c != Everything && (k in w.store.objects ==> Reachable(w.store.objects[k], bp, c))
  }

  lemma {:induction false} SettlesAfterOneRound(w: World, v: World, k: Key, bp: Obj, c: Comparer)
    requires Ready(w, k, bp) && CanSettle(w, k, bp, c) && v == Syncing(w, false, k, bp, c).w
    ensures UpToDate(v, k, bp, c)
  {
    Round(w, k, bp, c);
    if k in w.store.objects && !LooksLike(w.store.objects[k], bp, c) {
      MergeSettles(w.store.objects[k], v.store.objects[k], bp, c);
    }
    Round(v, k, bp, c);
  }

  lemma {:induction false} NeverSettlesOtherwise(w: World, k: Key, bp: Obj, c: Comparer, n: nat)
    requires Ready(w, k, bp) && !CanSettle(w, k, bp, c)
    ensures !UpToDate(Rounds(w, k, bp, c, n), k, bp, c)
  {
    if k in w.store.objects {
      NeverSettles(w, k, bp, c, n);
    } else {
      Round(w, k, bp, c);
      if n > 0 {
        NeverSettles(Syncing(w, false, k, bp, c).w, k, bp, c, n - 1);
      }
    }
  }

  /** Convergence, exactly: without interference, repeated syncs come to rest if and only if the object is
      absent or its stored labels and digest are ones the comparison can settle on; and then one round is
      enough. In particular a comparison that ignores the metadata always comes to rest, and a comparison
      without options never does. */
  lemma {:induction false} SyncConverges(w: World, k: Key, bp: Obj, c: Comparer)
    requires Ready(w, k, bp)
    ensures (exists n :: UpToDate(Rounds(w, k, bp, c, n), k, bp, c)) <==> CanSettle(w, k, bp, c)
    ensures CanSettle(w, k, bp, c) ==> UpToDate(Rounds(w, k, bp, c, 1), k, bp, c)
  {
    if CanSettle(w, k, bp, c) {
      var v := Syncing(w, false, k, bp, c).w;
      assert Rounds(w, k, bp, c, 1) == Rounds(v, k, bp, c, 0);
      SettlesAfterOneRound(w, v, k, bp, c);
    } else {
      forall n: nat ensures !UpToDate(Rounds(w, k, bp, c, n), k, bp, c) {
        NeverSettlesOtherwise(w, k, bp, c, n);
      }
    }
  }
}
