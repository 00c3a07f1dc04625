/**
 The API server that every reconcile function talks to, the lagging read cache in front of it, and the
 other writers that act between two calls. Everything here is a value, so a whole run can be replayed.

 Other writers are given by a script: a finite list of steps, cut into bursts by `Pause` and fault marks.
 Each API call first lets the next burst happen. When the script is used up nobody interferes any more and
 the cache has caught up, which is how "finitely much interference" is expressed.
 */
module Cluster {

  datatype Option<+T> = None | Some(value: T)
  {
    function GetOr(default_: T): T {
      if Some? then value else default_
    }
  }

  type Fields = map<string, string>

  datatype Kind =
    | CheCluster | ClusterRole | ClusterRoleBinding | ConfigMap
    | Service | Ingress | Route | Job | Secret
    | OtherKind(name: string)

  datatype Key = Key(kind: Kind, namespace: string, name: string)

  /** One stored object; `version` is its resourceVersion and 0 means that none is set. */
  datatype Obj = Obj(
    spec: Fields,
    labels: Fields,
    annotations: Fields,
    owner: Option<Key>,
    finalizers: seq<string>,
    deleting: bool,
    version: nat)

  const NOTHING := Obj(map[], map[], map[], None, [], false, 0)

  datatype Error = NotFound | AlreadyExists | Conflict | Invalid | Unavailable

  datatype Reply = Ok(obj: Obj) | Failed(error: Error)

  /** `clock` is the last resourceVersion handed out; no version is ever reused. */
  datatype Store = Store(objects: map<Key, Obj>, cache: map<Key, Obj>, clock: nat)

  // ---------- what the server does ----------

  function Install(s: Store, k: Key, o: Obj): Store {
    s.(objects := s.objects[k := o.(version := s.clock + 1)], clock := s.clock + 1)
  }

  function Vanish(s: Store, k: Key): Store {
    s.(objects := s.objects - {k}, clock := s.clock + 1)
  }

  /** Create refuses an object that already carries a resourceVersion. */
  function Created(s: Store, k: Key, o: Obj): (Store, Reply) {
    if k in s.objects then (s, Failed(AlreadyExists))
    else if o.version != 0 then (s, Failed(Invalid))
    else
      var made := o.(deleting := false);
      (Install(s, k, made), Ok(made.(version := s.clock + 1)))
  }

  predicate AddsFinalizer(from: Obj, to: Obj) {
    exists f | f in to.finalizers :: f !in from.finalizers
  }

  /** Update succeeds only against the current version, never adds a finalizer to an object that is being
      deleted, and lets such an object go with its last finalizer. */
  function Updated(s: Store, k: Key, o: Obj): (Store, Reply) {
    if k !in s.objects then (s, Failed(NotFound))
    else if o.version == 0 then (s, Failed(Invalid))
    else if o.version != s.objects[k].version then (s, Failed(Conflict))
    else if s.objects[k].deleting && AddsFinalizer(s.objects[k], o) then (s, Failed(Invalid))
    else
      var next := o.(deleting := s.objects[k].deleting);
      (if next.deleting && next.finalizers == [] then Vanish(s, k) else Install(s, k, next),
       Ok(next.(version := s.clock + 1)))
  }

  /** An update of the status subresource: everything the model keeps of an object stays as it is stored, but
      the version moves, and the reply is the whole stored object. */
  function StatusUpdated(s: Store, k: Key, o: Obj): (Store, Reply) {
    if k !in s.objects then (s, Failed(NotFound))
    else if o.version == 0 then (s, Failed(Invalid))
    else if o.version != s.objects[k].version then (s, Failed(Conflict))
    else (Install(s, k, s.objects[k]), Ok(s.objects[k].(version := s.clock + 1)))
  }

  function Deleted(s: Store, k: Key): (Store, Reply) {
    if k !in s.objects then (s, Failed(NotFound))
    else if s.objects[k].finalizers == [] then (Vanish(s, k), Ok(s.objects[k]))
    else if s.objects[k].deleting then (s, Ok(s.objects[k]))
    else
      var doomed := s.objects[k].(deleting := true);
      (Install(s, k, doomed), Ok(doomed.(version := s.clock + 1)))
  }

  /** A watch event: the cached copy of one key catches up with the server. */
  function Refreshed(s: Store, k: Key): Store {
    if k in s.objects then s.(cache := s.cache[k := s.objects[k]])
    else s.(cache := s.cache - {k})
  }

  /** Versions are bounded by the clock, and a version names one object: a cached copy that carries the
      stored version is the stored object. */
  ghost predicate Coherent(s: Store) {
    && (forall k | k in s.objects :: 0 < s.objects[k].version <= s.clock)
    && (forall k | k in s.cache :: Known(s, k, s.cache[k]))
  }

  /** `o` was read from the server or its cache at some time and has not been edited since. */
  ghost predicate Known(s: Store, k: Key, o: Obj) {
    && 0 < o.version <= s.clock
    && (k in s.objects && s.objects[k].version == o.version ==> s.objects[k] == o)
  }

  // ---------- other writers ----------

  datatype EnvStep =
    | Write(key: Key, obj: Obj)
    | Remove(key: Key)
    | Refresh(key: Key)
    | Pause
    | ReadFault
    | WriteFault(applied: bool)

  /** What the other writers leave alone: the keys in `owned`, the finalizers in `finalizers` on the object
      `cr`, and, if `pinned`, re-creating `cr` once it is gone. With empty sets they may do anything. */
  datatype Rely = Rely(cr: Key, owned: set<Key>, finalizers: set<string>, pinned: bool)

  predicate Permitted(r: Rely, s: Store, e: EnvStep) {
    match e
    case Write(k, o) =>
      && k !in r.owned
      && (k == r.cr ==>
            && (r.pinned ==> k in s.objects)
            && (forall f | f in r.finalizers :: f in o.finalizers <==> k in s.objects && f in s.objects[k].finalizers))
    case Remove(k) => k !in r.owned
    case _ => true
  }

  /** Others write against the current version, so their writes go through whenever the server allows them. */
  function Interfered(r: Rely, s: Store, e: EnvStep): Store {
    if !Permitted(r, s, e) then s
    else
      match e
      case Write(k, o) =>
        if k in s.objects then Updated(s, k, o.(version := s.objects[k].version)).0
        else Created(s, k, o.(version := 0)).0
      case Remove(k) => Deleted(s, k).0
      case Refresh(k) => Refreshed(s, k)
      case _ => s
  }

  // ---------- a run as one process sees it ----------

  /** One write of this process that took effect: the object right before and right after it. */
  datatype Effect = Effect(key: Key, before: Option<Obj>, after: Option<Obj>)

  /** `history` lists every state of the server so far, the current one last; `writes` lists the writes of
      this process, and `misreads` the keys it took for absent before a deletion although the read had failed.
      `rely.cr` is the custom resource the process works for. */
  datatype World = World(
    rely: Rely,
    store: Store,
    script: seq<EnvStep>,
    history: seq<map<Key, Obj>>,
    writes: seq<Effect>,
    misreads: set<Key>)

  datatype Fault = NoFault | OnRead | OnWrite(applied: bool)

  function Moved(w: World, s: Store): World {
    if s.objects == w.store.objects then w.(store := s)
    else w.(store := s, history := w.history + [s.objects])
  }

  /** Lets the next burst of other writers happen. */
  function Settle(w: World): (r: (World, Fault))
    ensures |r.0.script| <= |w.script| && (w.script != [] ==> |r.0.script| < |w.script|)
    ensures r.0.rely == w.rely && r.0.writes == w.writes && r.0.misreads == w.misreads
    decreases |w.script|
  {
    if w.script == [] then (w.(store := w.store.(cache := w.store.objects)), NoFault)
    else
      var rest := w.(script := w.script[1..]);
      match w.script[0]
      case Pause => (rest, NoFault)
      case ReadFault => (rest, OnRead)
      case WriteFault(applied) => (rest, OnWrite(applied))
      case e => Settle(Moved(rest, Interfered(w.rely, w.store, e)))
  }

  /** How the next API call fares, as the script has it, and what is left of the script then. */
  function NextFault(script: seq<EnvStep>): Fault {
    if script == [] then NoFault
    else
      match script[0]
      case Pause => NoFault
      case ReadFault => OnRead
      case WriteFault(applied) => OnWrite(applied)
      case _ => NextFault(script[1..])
  }

  function AfterBurst(script: seq<EnvStep>): seq<EnvStep> {
    if script == [] then []
    else if script[0].Write? || script[0].Remove? || script[0].Refresh? then AfterBurst(script[1..])
    else script[1..]
  }

  function Lookup(m: map<Key, Obj>, k: Key): Option<Obj> {
    if k in m then Some(m[k]) else None
  }

  /** A write call of this process, after the burst `settled`. A lost reply is a write that was carried out
      although the caller is told that it failed. */
  function Wrote(settled: (World, Fault), k: Key, result: (Store, Reply)): (r: (World, Reply))
    ensures r.0.rely == settled.0.rely && r.0.misreads == settled.0.misreads
  {
    var (w, fault) := settled;
    if fault.OnWrite? && !fault.applied then (w, Failed(Unavailable))
    else
      var w1 := Moved(w, result.0);
      var w2 := if result.1.Ok?
                then w1.(writes := w1.writes + [Effect(k, Lookup(w.store.objects, k), Lookup(result.0.objects, k))])
                else w1;
      (w2, if fault.OnWrite? then Failed(Unavailable) else result.1)
  }

  function CallCreate(w: World, k: Key, o: Obj): (r: (World, Reply))
    ensures r.0.rely == w.rely && r.0.misreads == w.misreads
  {
    var settled := Settle(w);
    Wrote(settled, k, Created(settled.0.store, k, o))
  }

  function CallUpdate(w: World, k: Key, o: Obj): (r: (World, Reply))
    ensures r.0.rely == w.rely && r.0.misreads == w.misreads
  {
    var settled := Settle(w);
    Wrote(settled, k, Updated(settled.0.store, k, o))
  }

  function CallUpdateStatus(w: World, k: Key, o: Obj): (r: (World, Reply))
    ensures r.0.rely == w.rely && r.0.misreads == w.misreads
  {
    var settled := Settle(w);
    Wrote(settled, k, StatusUpdated(settled.0.store, k, o))
  }

  function CallDelete(w: World, k: Key): (r: (World, Reply))
    ensures r.0.rely == w.rely && r.0.misreads == w.misreads
  {
    var settled := Settle(w);
    Wrote(settled, k, Deleted(settled.0.store, k))
  }

  /** A read, through the cache or straight from the server. */
  function CallGet(w: World, k: Key, cached: bool): (r: (World, Reply))
    ensures r.0.rely == w.rely && r.0.misreads == w.misreads
  {
    var (w1, fault) := Settle(w);
    var found := Lookup(if cached then w1.store.cache else w1.store.objects, k);
    (w1, if fault.OnRead? then Failed(Unavailable) else if found.Some? then Ok(found.value) else Failed(NotFound))
  }

  // ---------- what every call keeps ----------

  /** Two copies of a store that agree on nothing but time: what was known stays known. */
  ghost predicate Later(s: Store, t: Store) {
    && s.clock <= t.clock
    && (forall k | k in t.objects :: t.objects[k].version > s.clock || (k in s.objects && s.objects[k] == t.objects[k]))
  }

  lemma KnownLater(s: Store, t: Store, k: Key, o: Obj)
    requires Later(s, t) && Known(s, k, o)
    ensures Known(t, k, o)
  {
  }

  /** Later in time, and still coherent. */
  ghost predicate Advances(s: Store, t: Store) {
    Coherent(t) && Later(s, t)
  }

  lemma InstallStep(s: Store, k: Key, o: Obj)
    requires Coherent(s)
    ensures Advances(s, Install(s, k, o))
  {
  }

  lemma VanishStep(s: Store, k: Key)
    requires Coherent(s)
    ensures Advances(s, Vanish(s, k))
  {
  }

  lemma {:induction false} ServerStep(s: Store, k: Key, o: Obj)
    requires Coherent(s)
    ensures Advances(s, Created(s, k, o).0)
    ensures Advances(s, Updated(s, k, o).0)
    ensures Advances(s, Deleted(s, k).0)
  {
    InstallStep(s, k, o.(deleting := false));
    VanishStep(s, k);
    if k in s.objects {
      InstallStep(s, k, o.(deleting := s.objects[k].deleting));
      InstallStep(s, k, s.objects[k].(deleting := true));
    }
  }

  lemma StatusStep(s: Store, k: Key, o: Obj)
    requires Coherent(s)
    ensures Advances(s, StatusUpdated(s, k, o).0)
  {
    if k in s.objects {
      InstallStep(s, k, s.objects[k]);
    }
  }

  lemma RefreshStep(s: Store, k: Key)
    requires Coherent(s)
    ensures Advances(s, Refreshed(s, k))
  {
  }

  lemma InterferedStep(r: Rely, s: Store, e: EnvStep)
    requires Coherent(s)
    ensures Advances(s, Interfered(r, s, e))
  {
    match e
    case Write(k, o) =>
      ServerStep(s, k, o.(version := 0));
      if k in s.objects {
        ServerStep(s, k, o.(version := s.objects[k].version));
      }
    case Remove(k) => ServerStep(s, k, NOTHING);
    case Refresh(k) => RefreshStep(s, k);
    case _ =>
  }

  lemma AdvancesTransitive(s: Store, t: Store, u: Store)
    requires Advances(s, t) && Advances(t, u)
    ensures Advances(s, u)
  {
  }

  lemma {:induction false} SettleStep(w: World)
    requires Coherent(w.store)
    ensures Advances(w.store, Settle(w).0.store)
    decreases |w.script|
  {
    if w.script != [] && (w.script[0].Write? || w.script[0].Remove? || w.script[0].Refresh?) {
      var s := Interfered(w.rely, w.store, w.script[0]);
      var next := Moved(w.(script := w.script[1..]), s);
      InterferedStep(w.rely, w.store, w.script[0]);
      SettleStep(next);
      AdvancesTransitive(w.store, s, Settle(next).0.store);
    }
  }

  lemma {:induction false} WroteStep(w: World, k: Key, result: (Store, Reply))
    requires Coherent(w.store) && Advances(Settle(w).0.store, result.0)
    ensures Advances(w.store, Wrote(Settle(w), k, result).0.store)
  {
    SettleStep(w);
    AdvancesTransitive(w.store, Settle(w).0.store, result.0);
  }

  /** Every write call keeps the store coherent and only moves it forward. */
  lemma CreateStep(w: World, k: Key, o: Obj)
    requires Coherent(w.store)
    ensures Advances(w.store, CallCreate(w, k, o).0.store)
  {
    var s := Settle(w).0.store;
    SettleStep(w);
    ServerStep(s, k, o);
    WroteStep(w, k, Created(s, k, o));
  }

  lemma UpdateStep(w: World, k: Key, o: Obj)
    requires Coherent(w.store)
    ensures Advances(w.store, CallUpdate(w, k, o).0.store)
  {
    var s := Settle(w).0.store;
    SettleStep(w);
    ServerStep(s, k, o);
    WroteStep(w, k, Updated(s, k, o));
  }

  lemma DeleteStep(w: World, k: Key)
    requires Coherent(w.store)
    ensures Advances(w.store, CallDelete(w, k).0.store)
  {
    var s := Settle(w).0.store;
    SettleStep(w);
    ServerStep(s, k, NOTHING);
    WroteStep(w, k, Deleted(s, k));
  }

  /** A read returns an object that is current or once was. */
  lemma ReadStep(w: World, k: Key, cached: bool)
    requires Coherent(w.store)
    ensures var (w1, reply) := CallGet(w, k, cached);
            Advances(w.store, w1.store) && (reply.Ok? ==> Known(w1.store, k, reply.obj))
  {
    SettleStep(w);
  }

  /** What an update leaves at its key when it hits `base`. */
  function Replacement(base: Obj, o: Obj, version: nat): Option<Obj> {
    if base.deleting && o.finalizers == [] then None else Some(o.(deleting := base.deleting, version := version))
  }

  /** An update made from `base` takes effect, if at all, on `base` itself: whatever others wrote before it
      makes it fail. */
  lemma UpdateHitsBase(w: World, k: Key, base: Obj, o: Obj)
    requires Coherent(w.store) && Known(w.store, k, base) && o.version == base.version
    ensures var (w1, reply) := CallUpdate(w, k, o);
            var hit := Effect(k, Some(base), Replacement(base, o, w1.store.clock));
            && (w1.writes == w.writes || w1.writes == w.writes + [hit])
            && (reply.Ok? ==>
                  && w1.writes == w.writes + [hit]
                  && reply.obj == o.(deleting := base.deleting, version := w1.store.clock))
            && (reply.Failed? && reply.error != Unavailable ==> w1.writes == w.writes)
            && w1.store.clock >= w.store.clock
            && (w1.writes == w.writes + [hit] ==> w1.store.clock > w.store.clock)
  {
    var settled := Settle(w);
    var s := settled.0.store;
    SettleStep(w);
    KnownLater(w.store, s, k, base);
    var (t, reply) := Updated(s, k, o);
    if reply.Ok? {
      assert s.objects[k] == base;
      assert Lookup(t.objects, k) == Replacement(base, o, t.clock);
    }
  }

  lemma {:induction false} SettleFollowsScript(w: World)
    ensures Settle(w).0.script == AfterBurst(w.script) && Settle(w).1 == NextFault(w.script)
    decreases |w.script|
  {
    if w.script != [] && (w.script[0].Write? || w.script[0].Remove? || w.script[0].Refresh?) {
      SettleFollowsScript(Moved(w.(script := w.script[1..]), Interfered(w.rely, w.store, w.script[0])));
    }
  }

  // ---------- keys nobody else writes ----------

  ghost predicate AllCopies(s: Store, k: Key, p: Obj -> bool) {
    && (k in s.objects ==> p(s.objects[k]))
    && (k in s.cache ==> p(s.cache[k]))
  }

  /** While others act, an object they leave alone stays as it is, and its cached copy is one of its states. */
  lemma {:induction false} SettleKeepsOwned(w: World, k: Key, p: Obj -> bool)
    requires k in w.rely.owned && AllCopies(w.store, k, p)
    ensures AllCopies(Settle(w).0.store, k, p)
    ensures Lookup(Settle(w).0.store.objects, k) == Lookup(w.store.objects, k)
    decreases |w.script|
  {
    if w.script != [] && (w.script[0].Write? || w.script[0].Remove? || w.script[0].Refresh?) {
      var s := Interfered(w.rely, w.store, w.script[0]);
      assert Lookup(s.objects, k) == Lookup(w.store.objects, k);
      SettleKeepsOwned(Moved(w.(script := w.script[1..]), s), k, p);
    }
  }

  lemma WroteElsewhere(settled: (World, Fault), k: Key, result: (Store, Reply), x: Key)
    requires Lookup(result.0.objects, x) == Lookup(settled.0.store.objects, x)
    ensures Lookup(Wrote(settled, k, result).0.store.objects, x) == Lookup(settled.0.store.objects, x)
  {
  }

  lemma OwnedStays(w: World, k: Key)
    requires k in w.rely.owned
    ensures Lookup(Settle(w).0.store.objects, k) == Lookup(w.store.objects, k)
  {
    SettleKeepsOwned(w, k, _ => true);
  }
}
