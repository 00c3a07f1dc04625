/**
 The deploy context of one reconcile: the cluster as this process sees it and the in-memory custom resource,
 with the operations that change both step by step. Each is proved to do what its value-level counterpart in
 Sync.dfy, Finalizers.dfy or Permissions.dfy says, for every behaviour of the other writers.
 */
module Deploy {
  import opened Cluster
  import S = Sync
  import Finalizers
  import Permissions

  method ContainsString(slice: seq<string>, s: string) returns (found: bool)
    ensures found <==> s in slice
  {
    for i := 0 to |slice|
      invariant s !in slice[..i]
    {
      if slice[i] == s {
        return true;
      }
    }
    return false;
  }

  method DoRemoveString(slice: seq<string>, s: string) returns (result: seq<string>)
    ensures result == Finalizers.Without(slice, s)
  {
    result := [];
    for i := 0 to |slice|
      invariant result + Finalizers.Without(slice[i..], s) == Finalizers.Without(slice, s)
    {
      assert slice[i..] == [slice[i]] + slice[i + 1..];
      if slice[i] == s {
        continue;
      }
      result := result + [slice[i]];
    }
  }

  /** Copies the second map over the first, key by key in any order. */
  method MergeMaps(first: Fields, second: Fields) returns (target: Fields)
    ensures target == first + second
  {
    target := first;
    var rest := second.Keys;
    while rest != {}
      invariant rest <= second.Keys
      invariant target.Keys == first.Keys + (second.Keys - rest)
      invariant forall k | k in target :: target[k] == if k in second && k !in rest then second[k] else first[k]
      decreases |rest|
    {
      var k :| k in rest;
      target := target[k := second[k]];
      rest := rest - {k};
    }
  }

  /** The object a caller hands to a sync, edited in place by it. */
  class Blueprint {
    const key: Key
    var obj: Obj

    constructor (key: Key, obj: Obj)
      ensures this.key == key && this.obj == obj
    {
      this.key, this.obj := key, obj;
    }
  }

  class DeployContext {
    var w: World
    var cr: Obj

    constructor (w: World, cr: Obj)
      ensures this.w == w && this.cr == cr
    {
      this.w, this.cr := w, cr;
    }

    // ---------- API calls ----------

    method ClientGet(k: Key, cached: bool) returns (reply: Reply)
      modifies this`w
      ensures (w, reply) == CallGet(old(w), k, cached)
    {
      var r := CallGet(w, k, cached);
      w, reply := r.0, r.1;
    }

    method ClientCreate(k: Key, o: Obj) returns (reply: Reply)
      modifies this`w
      ensures (w, reply) == CallCreate(old(w), k, o)
    {
      var r := CallCreate(w, k, o);
      w, reply := r.0, r.1;
    }

    method ClientUpdate(k: Key, o: Obj) returns (reply: Reply)
      modifies this`w
      ensures (w, reply) == CallUpdate(old(w), k, o)
    {
      var r := CallUpdate(w, k, o);
      w, reply := r.0, r.1;
    }

    method ClientDelete(k: Key) returns (reply: Reply)
      modifies this`w
      ensures (w, reply) == CallDelete(old(w), k)
    {
      var r := CallDelete(w, k);
      w, reply := r.0, r.1;
    }

    // ---------- one object ----------

    method SetOwnerReferenceIfNeeded(blueprint: Blueprint) returns (error: Option<Error>)
      modifies blueprint
      ensures var o := old(blueprint.obj);
              if blueprint.key.namespace != w.rely.cr.namespace then error.None? && blueprint.obj == o
              else if o.owner.Some? && o.owner.value != w.rely.cr then error == Some(Invalid) && blueprint.obj == o
              else error.None? && blueprint.obj == o.(owner := Some(w.rely.cr))
    {
      if blueprint.key.namespace == w.rely.cr.namespace {
        if blueprint.obj.owner.Some? && blueprint.obj.owner.value != w.rely.cr {
          return Some(Invalid);
        }
        blueprint.obj := blueprint.obj.(owner := Some(w.rely.cr));
      }
      return None;
    }

    method DoCreate(blueprint: Blueprint, returnTrueIfAlreadyExists: bool) returns (done: bool, error: Option<Error>)
      modifies this`w, blueprint
      ensures var (w1, reply) := CallCreate(old(w), blueprint.key, old(blueprint.obj));
              && w == w1
              && blueprint.obj == (if reply.Ok? then reply.obj else old(blueprint.obj))
              && done == (reply.Ok? || (reply.error == AlreadyExists && returnTrueIfAlreadyExists))
              && error == (if reply.Ok? || reply.error == AlreadyExists then None else Some(reply.error))
    {
      var reply := ClientCreate(blueprint.key, blueprint.obj);
      if reply.Ok? {
        blueprint.obj := reply.obj;
        return true, None;
      } else if reply.error == AlreadyExists {
        return returnTrueIfAlreadyExists, None;
      } else {
        return false, Some(reply.error);
      }
    }

    method Create(blueprint: Blueprint) returns (done: bool, error: Option<Error>)
      modifies this`w, blueprint
      ensures S.Outcome(w, blueprint.obj, done, error)
              == S.Creating(old(w), cr.deleting, blueprint.key, old(blueprint.obj), false)
    {
      if cr.deleting {
        return true, None;
      }
      error := SetOwnerReferenceIfNeeded(blueprint);
      if error.Some? {
        return false, error;
      }
      done, error := DoCreate(blueprint, false);
    }

    method CreateIfNotExists(blueprint: Blueprint) returns (done: bool, error: Option<Error>)
      modifies this`w, blueprint
      ensures S.Outcome(w, blueprint.obj, done, error)
              == S.CreatingIfNotExists(old(w), cr.deleting, blueprint.key, old(blueprint.obj))
    {
      if cr.deleting {
        return true, None;
      }
      var found := ClientGet(blueprint.key, S.ReadsFromCache(w.rely.cr, blueprint.key));
      if found.Ok? {
        return true, None;
      } else if found.error != NotFound {
        return false, Some(found.error);
      }
      error := SetOwnerReferenceIfNeeded(blueprint);
      if error.Some? {
        return false, error;
      }
      done, error := DoCreate(blueprint, true);
    }

    method Update(actual: Obj, blueprint: Blueprint, c: S.Comparer) returns (done: bool, error: Option<Error>)
      modifies this`w, blueprint
      ensures S.Outcome(w, blueprint.obj, done, error)
              == S.Updating(old(w), cr.deleting, blueprint.key, actual, old(blueprint.obj), c)
    {
      if cr.deleting {
        return true, None;
      }
      if !S.Differs(actual, blueprint.obj, c) {
        return true, None;
      }
      var targetAnnos := MergeMaps(actual.annotations, blueprint.obj.annotations);
      var targetLabels := MergeMaps(actual.labels, blueprint.obj.labels);
      blueprint.obj := blueprint.obj.(annotations := targetAnnos);
      blueprint.obj := blueprint.obj.(labels := targetLabels);
      if S.IsUpdateUsingDeleteCreate(blueprint.key.kind) {
        var reply := ClientDelete(blueprint.key);
        if reply.Failed? && reply.error != NotFound {
          return false, Some(reply.error);
        }
        error := SetOwnerReferenceIfNeeded(blueprint);
        if error.Some? {
          return false, error;
        }
        done, error := DoCreate(blueprint, false);
      } else {
        error := SetOwnerReferenceIfNeeded(blueprint);
        if error.Some? {
          return false, error;
        }
        blueprint.obj := blueprint.obj.(version := actual.version);
        var reply := ClientUpdate(blueprint.key, blueprint.obj);
        if reply.Ok? {
          blueprint.obj := reply.obj;
          return false, None;
        }
        return false, Some(reply.error);
      }
    }

    method Sync(blueprint: Blueprint, c: S.Comparer) returns (done: bool, error: Option<Error>)
      modifies this`w, blueprint
      ensures S.Outcome(w, blueprint.obj, done, error)
              == S.Syncing(old(w), cr.deleting, blueprint.key, old(blueprint.obj), c)
    {
      if cr.deleting {
        return true, None;
      }
      var found := ClientGet(blueprint.key, S.ReadsFromCache(w.rely.cr, blueprint.key));
      if found.Failed? && found.error != NotFound {
        return false, Some(found.error);
      }
      if found.Failed? {
        done, error := Create(blueprint);
      } else {
        done, error := Update(found.obj, blueprint, c);
      }
    }

    method Delete(k: Key, cached: bool) returns (done: bool, error: Option<Error>)
      modifies this`w
      ensures (w, done, error) == S.Deleting(old(w), k, cached)
    {
      var reply := ClientGet(k, cached);
      if reply.Failed? {
        if reply.error != NotFound {
          w := w.(misreads := w.misreads + {k});
        }
        return true, None;
      }
      reply := ClientDelete(k);
      if reply.Ok? || reply.error == NotFound {
        return true, None;
      }
      return false, Some(reply.error);
    }

    // ---------- finalizers of the custom resource ----------

    method AppendFinalizer(finalizer: string) returns (error: Option<Error>)
      modifies this
      ensures Finalizers.Outcome(w, cr, error) == Finalizers.Appending(old(w), old(cr), finalizer)
    {
      var contained := ContainsString(cr.finalizers, finalizer);
      if !contained {
        var e := Finalizers.Add(finalizer);
        while true
          invariant Finalizers.Retrying(w, cr, e) == Finalizers.Retrying(old(w), old(cr), e)
          decreases |w.script|, Finalizers.Staleness(w, cr)
        {
          var reply;
          cr := cr.(finalizers := cr.finalizers + [finalizer]);
          reply := ClientUpdate(w.rely.cr, cr);
          if reply.Ok? {
            cr := reply.obj;
            return None;
          } else if reply.error != Conflict {
            return Some(reply.error);
          }
          reply := ClientGet(w.rely.cr, true);
          if reply.Failed? {
            return Some(reply.error);
          }
          cr := reply.obj;
        }
      }
      return None;
    }

    method DeleteFinalizer(finalizer: string) returns (error: Option<Error>)
      modifies this
      ensures Finalizers.Outcome(w, cr, error) == Finalizers.Dropping(old(w), old(cr), finalizer)
    {
      var contained := ContainsString(cr.finalizers, finalizer);
      if contained {
        var e := Finalizers.Drop(finalizer);
        while true
          invariant Finalizers.Retrying(w, cr, e) == Finalizers.Retrying(old(w), old(cr), e)
          decreases |w.script|, Finalizers.Staleness(w, cr)
        {
          var reply;
          var rest := DoRemoveString(cr.finalizers, finalizer);
          cr := cr.(finalizers := rest);
          reply := ClientUpdate(w.rely.cr, cr);
          if reply.Ok? {
            cr := reply.obj;
            return None;
          } else if reply.error != Conflict {
            return Some(reply.error);
          }
          reply := ClientGet(w.rely.cr, true);
          if reply.Failed? {
            return Some(reply.error);
          }
          cr := reply.obj;
        }
      }
      return None;
    }

    method SyncAndAddFinalizer(blueprint: Blueprint, c: S.Comparer, finalizer: string)
      returns (done: bool, error: Option<Error>)
      modifies this, blueprint
      ensures (Finalizers.Outcome(w, cr, error), done)
              == Finalizers.SyncingAndAdding(old(w), old(cr), blueprint.key, old(blueprint.obj), c, finalizer)
    {
      if !cr.deleting {
        done, error := Sync(blueprint, c);
        if !done {
          return;
        }
        error := AppendFinalizer(finalizer);
        return error.None?, error;
      }
      return true, None;
    }

    method DeleteObjectWithFinalizer(k: Key, cached: bool, finalizer: string) returns (error: Option<Error>)
      modifies this
      ensures Finalizers.Outcome(w, cr, error) == Finalizers.DeletingAndDropping(old(w), old(cr), k, cached, finalizer)
    {
      var _, _ := Delete(k, cached);
      error := DeleteFinalizer(finalizer);
    }

    // ---------- the permission groups ----------

    method DelegatePermissions(g: Permissions.Group, p: Permissions.Policies) returns (done: bool, error: Option<Error>)
      modifies this
      ensures Permissions.Turn(w, cr, done, error) == Permissions.Delegating(old(w), old(cr), g, p)
    {
      var role := new Blueprint(Permissions.RoleKey(g, w.rely.cr), Permissions.RoleSpec(g, w.rely.cr, p));
      done, error := Sync(role, S.IgnoreMeta);
      if !done {
        return false, error;
      }
      var binding := new Blueprint(Permissions.BindingKey(g, w.rely.cr), Permissions.BindingSpec(g, w.rely.cr, p));
      done, error := Sync(binding, S.IgnoreMeta);
      if !done {
        return false, error;
      }
      error := AppendFinalizer(Permissions.FinalizerName(g));
      return error.None?, error;
    }

    method RemovePermissions(g: Permissions.Group) returns (done: bool, error: Option<Error>)
      modifies this
      ensures Permissions.Turn(w, cr, done, error) == Permissions.Removing(old(w), old(cr), g)
    {
      done, error := Delete(Permissions.RoleKey(g, w.rely.cr), false);
      if !done {
        return false, error;
      }
      done, error := Delete(Permissions.BindingKey(g, w.rely.cr), false);
      if !done {
        return false, error;
      }
      error := DeleteFinalizer(Permissions.FinalizerName(g));
      return error.None?, error;
    }

    method ReconcileWorkspacePermissions(p: Permissions.Policies) returns (done: bool, error: Option<Error>)
      modifies this
      ensures Permissions.Turn(w, cr, done, error) == Permissions.DelegatingAll(old(w), old(cr), p)
    {
      done, error := DelegatePermissions(Permissions.Workspaces, p);
      if !done {
        return;
      }
      done, error := DelegatePermissions(Permissions.NamespaceEditor, p);
      if !done {
        return;
      }
      done, error := DelegatePermissions(Permissions.DevWorkspace, p);
    }

    method ReconcileWorkspacePermissionsFinalizers() returns (done: bool, error: Option<Error>)
      modifies this
      ensures Permissions.Turn(w, cr, done, error) == Permissions.ReconcilingFinalizers(old(w), old(cr))
    {
      if cr.deleting {
        done, error := RemovePermissions(Permissions.NamespaceEditor);
        if !done {
          return;
        }
        done, error := RemovePermissions(Permissions.DevWorkspace);
        if !done {
          return;
        }
        done, error := RemovePermissions(Permissions.Workspaces);
        return;
      }
      return true, None;
    }
  }
}
