/**
 Filling in the fields of the custom resource that the user left empty. Each field is stored as soon as it is
 set; any of these writes may fail, with or without having been carried out, and then the reconcile starts
 over from what its cache shows of the resource, which may be any earlier version.
 */
module Defaulting {
  import opened Cluster

  /** The fields the operator reads or sets. */
  datatype Field =
    | CheFlavor
    | PostgresSecret | PostgresUser | PostgresPassword
    | IdpPostgresSecret | IdpPostgresPassword
    | IdpSecret | IdpAdminUserName | IdpPassword
    | PostgresDb | PostgresHostName | PostgresPort | IdpRealm | IdpClientId
    | CheLogLevel | CheDebug | PvcStrategy | PvcClaimSize
    | PvcJobsImage | PostgresImage | IdpImage
    | PluginRegistryUrl | CheImage | CheImageTag
    | ServerExposureStrategy | IngressStrategy

  type Spec = map<Field, string>

  function Val(s: Spec, f: Field): string {
    if f in s then s[f] else ""
  }

  /** What does not change during a reconcile: the operator's defaults, the outdated values it clears, and the
      rest of the resource as far as it matters here. */
  datatype Config = Config(
    flavor: string,
    defaults: map<Field, string>,
    outdated: map<Field, string>,
    multiUser: bool,
    fromVersion12To20: bool,
    externalPluginRegistry: bool,
    devWorkspaceEnable: bool,
    openShift: bool)

  function Default(c: Config, f: Field): string {
    if f in c.defaults then c.defaults[f] else ""
  }

  /** The operator does not start without its defaults. */
  ghost predicate Configured(c: Config) {
    c.flavor != "" && forall f :: Default(c, f) != ""
  }

  /** The outdated value of a field, or something no field holds. */
  predicate IsOutdated(c: Config, s: Spec, f: Field) {
    f in c.outdated && c.outdated[f] != "" && Val(s, f) == c.outdated[f]
  }

  function FlavorOf(c: Config, s: Spec): string {
    if Val(s, CheFlavor) == "" then c.flavor else Val(s, CheFlavor)
  }

  predicate Migrating(c: Config, s: Spec) {
    FlavorOf(c, s) == "codeready" && c.fromVersion12To20
  }

  predicate IsSecretField(f: Field) {
    f.PostgresSecret? || f.IdpPostgresSecret? || f.IdpSecret?
  }

  /** Whether a field is still to be written. */
  predicate IsDue(c: Config, s: Spec, f: Field) {
    match f
    case CheFlavor => Val(s, f) == ""
    case PostgresSecret =>
      c.multiUser && Val(s, f) == "" && (Val(s, PostgresUser) == "" || Val(s, PostgresPassword) == "")
    case IdpPostgresSecret => c.multiUser && Val(s, f) == "" && Val(s, IdpPostgresPassword) == ""
    case IdpSecret => c.multiUser && Val(s, f) == "" && (Val(s, IdpAdminUserName) == "" || Val(s, IdpPassword) == "")
    case PostgresDb | PostgresHostName | PostgresPort | IdpRealm | IdpClientId => c.multiUser && Val(s, f) == ""
    case CheLogLevel | CheDebug | PvcStrategy | PvcClaimSize => Val(s, f) == ""
    case PvcJobsImage | PostgresImage | IdpImage => IsOutdated(c, s, f) || (Migrating(c, s) && Val(s, f) != "")
    case PluginRegistryUrl => Migrating(c, s) && !c.externalPluginRegistry && IsOutdated(c, s, f)
    case CheImage | CheImageTag => Migrating(c, s) && IsOutdated(c, s, f)
    case ServerExposureStrategy => Val(s, f) == "" && Val(s, IngressStrategy) == ""
    case _ => false
  }

  predicate IsCleared(f: Field) {
    f.PvcJobsImage? || f.PostgresImage? || f.IdpImage? || f.PluginRegistryUrl? || f.CheImage? || f.CheImageTag?
  }

  function NewValue(c: Config, s: Spec, f: Field): string {
    if IsCleared(f) then ""
    else
      match f
      case CheFlavor => c.flavor
      case IdpRealm => FlavorOf(c, s)
      case IdpClientId => FlavorOf(c, s) + "-public"
      case ServerExposureStrategy => if c.devWorkspaceEnable then "single-host" else "multi-host"
      case _ => Default(c, f)
  }

  const CREDENTIALS: seq<Field> := [PostgresSecret, IdpPostgresSecret, IdpSecret]
  const DATABASE: seq<Field> := [PostgresDb, PostgresHostName, PostgresPort, IdpRealm, IdpClientId]
  const SERVER: seq<Field> := [CheLogLevel, CheDebug, PvcStrategy, PvcClaimSize]
  const OUTDATED_IMAGES: seq<Field> := [PvcJobsImage, PostgresImage, IdpImage]
  const OUTDATED: seq<Field> := [PluginRegistryUrl, CheImage, CheImageTag]

  /** In the order of the source. */
  const ORDER: seq<Field> := [CheFlavor] + CREDENTIALS + DATABASE + SERVER + OUTDATED_IMAGES + OUTDATED
      + [ServerExposureStrategy]

  // ---------- one attempt ----------

  /** A write that fails, carried out or not. */
  datatype Outcome = Stored | Failed(applied: bool)

  /** The versions of the stored resource so far, the one the copy in memory was read from, that copy, the
      secrets, how the next writes turn out (well, once the list is used up), the data this attempt puts into
      secrets, and whether the copy shows the resource as being deleted. */
  datatype State = State(
    past: seq<Spec>,
    at: nat,
    mem: Spec,
    secrets: map<string, string>,
    outcomes: seq<Outcome>,
    generated: map<Field, string>,
    deleting: bool,
    failed: bool)

  function Latest(past: seq<Spec>): Spec {
    if past == [] then map[] else past[|past| - 1]
  }

  /** The stored resource. */
  function Now(r: State): Spec {
    Latest(r.past)
  }

  predicate Fresh(r: State) {
    r.at + 1 == |r.past|
  }

  function NextOutcome(r: State): Outcome {
    if r.outcomes == [] then Stored else r.outcomes[0]
  }

  function Consumed(r: State): State {
    if r.outcomes == [] then r else r.(outcomes := r.outcomes[1..])
  }

  /** An update conflicts unless the copy was read from the stored version. */
  function Updating(r: State): (t: State)
    ensures t.secrets == r.secrets && t.deleting == r.deleting && t.generated == r.generated
    ensures t.failed <==> !Fresh(r) || NextOutcome(r).Failed?
    ensures !Fresh(r) ==> t.past == r.past && t.at == r.at
  {
    var out := NextOutcome(r);
    var r1 := Consumed(r).(failed := out.Failed? || !Fresh(r));
    if !Fresh(r) || (out.Failed? && !out.applied) then r1
    else r1.(past := r.past + [r.mem], at := if out.Failed? then r.at else |r.past|)
  }

  function SavingField(r: State, f: Field, v: string): (t: State)
    ensures t.secrets == r.secrets && t.deleting == r.deleting && t.generated == r.generated
  {
    Updating(r.(mem := r.mem[f := v]))
  }

  function DeletingSecret(r: State, name: string): (t: State)
    ensures t.past == r.past && t.at == r.at && t.mem == r.mem && t.generated == r.generated
    ensures t.deleting == r.deleting
  {
    var out := NextOutcome(r);
    var r1 := Consumed(r).(failed := out.Failed?);
    if out.Failed? && !out.applied then r1 else r1.(secrets := r.secrets - {name})
  }

  function CreatingSecret(r: State, name: string, data: string): (t: State)
    ensures t.past == r.past && t.at == r.at && t.mem == r.mem && t.generated == r.generated
    ensures t.deleting == r.deleting
  {
    var out := NextOutcome(r);
    var r1 := Consumed(r).(failed := out.Failed?);
    if out.Failed? && !out.applied then r1 else r1.(secrets := r.secrets[name := data])
  }

  /** A secret whose data differ is replaced by deleting it and creating it anew. While the custom resource is
      being deleted nothing is synced, which passes for a success. */
  function SyncingSecret(r: State, name: string, data: string): (t: State)
    ensures t.past == r.past && t.at == r.at && t.mem == r.mem && t.generated == r.generated
    ensures t.deleting == r.deleting
  {
    if r.deleting then r
    else if name !in r.secrets then CreatingSecret(r, name, data)
    else if r.secrets[name] == data then r
    else
      var r1 := DeletingSecret(r, name);
      if r1.failed then r1 else CreatingSecret(r1, name, data)
  }

  function DataFor(r: State, f: Field): string {
    if f in r.generated then r.generated[f] else ""
  }

  /** Writes one field if it is due; a field that names a secret is written after the secret. */
  function Handling(r: State, c: Config, f: Field): (t: State)
    ensures t.deleting == r.deleting && t.generated == r.generated && (r.deleting ==> t.secrets == r.secrets)
  {
    if r.failed || !IsDue(c, r.mem, f) then r
    else
      var r1 := if IsSecretField(f) then SyncingSecret(r, Default(c, f), DataFor(r, f)) else r;
      if r1.failed then r1 else SavingField(r1, f, NewValue(c, r.mem, f))
  }

  function HandlingAll(r: State, c: Config, fields: seq<Field>): (t: State)
    ensures t.deleting == r.deleting && t.generated == r.generated && (r.deleting ==> t.secrets == r.secrets)
  {
    if fields == [] then r else Handling(HandlingAll(r, c, fields[..|fields| - 1]), c, fields[|fields| - 1])
  }

  function Generating(r: State, c: Config): State {
    HandlingAll(r, c, ORDER)
  }

  // ---------- one write ----------

  /** What a completed resource holds, seen from any state of it. */
  function Target(c: Config, s: Spec, f: Field): string {
    if IsDue(c, s, f) then NewValue(c, s, f) else Val(s, f)
  }

  lemma WrittenIsDone(c: Config, s: Spec, f: Field)
    requires Configured(c) && IsDue(c, s, f)
    ensures var t := s[f := NewValue(c, s, f)];
            && !IsDue(c, t, f)
            && Val(t, f) != Val(s, f)
            && FlavorOf(c, t) == FlavorOf(c, s)
  {
    assert Default(c, f) != "";
    if f == IdpClientId {
      assert |FlavorOf(c, s) + "-public"| > 0;
    }
  }

  /** Fields that are read but never written. */
  predicate IsInput(f: Field) {
    || f.PostgresUser? || f.PostgresPassword? || f.IdpPostgresPassword? || f.IdpAdminUserName? || f.IdpPassword?
    || f.IngressStrategy?
  }

  lemma SameInputsSameTarget(c: Config, s: Spec, t: Spec, g: Field)
    requires Val(t, g) == Val(s, g) && FlavorOf(c, t) == FlavorOf(c, s)
    requires forall f | IsInput(f) :: Val(t, f) == Val(s, f)
    ensures IsDue(c, t, g) <==> IsDue(c, s, g)
    ensures NewValue(c, t, g) == NewValue(c, s, g)
  {
    assert Val(t, PostgresUser) == Val(s, PostgresUser) && Val(t, PostgresPassword) == Val(s, PostgresPassword);
    assert Val(t, IdpPostgresPassword) == Val(s, IdpPostgresPassword) && Val(t, IdpPassword) == Val(s, IdpPassword);
    assert Val(t, IdpAdminUserName) == Val(s, IdpAdminUserName) && Val(t, IngressStrategy) == Val(s, IngressStrategy);
  }

  lemma InputsAreNotDue(c: Config, s: Spec, f: Field)
    requires IsInput(f)
    ensures !IsDue(c, s, f)
  {
  }

  lemma {:induction false} WriteKeepsOther(c: Config, s: Spec, f: Field, g: Field)
    requires Configured(c) && IsDue(c, s, f) && g != f
    ensures var t := s[f := NewValue(c, s, f)];
            Val(t, g) == Val(s, g) && (IsDue(c, t, g) <==> IsDue(c, s, g)) && NewValue(c, t, g) == NewValue(c, s, g)
  {
    var t := s[f := NewValue(c, s, f)];
    WrittenIsDone(c, s, f);
    forall h | IsInput(h) ensures Val(t, h) == Val(s, h) {
      InputsAreNotDue(c, s, h);
    }
    SameInputsSameTarget(c, s, t, g);
  }

  /** A write changes no field's target, and makes no other field due. */
  lemma {:induction false} WriteKeepsTargets(c: Config, s: Spec, f: Field, g: Field)
    requires Configured(c) && IsDue(c, s, f)
    ensures var t := s[f := NewValue(c, s, f)];
            Target(c, t, g) == Target(c, s, g) && (IsDue(c, t, g) <==> IsDue(c, s, g) && g != f)
  {
    if g == f {
      WrittenIsDone(c, s, f);
    } else {
      WriteKeepsOther(c, s, f, g);
    }
  }

  // ---------- one attempt and many ----------

  /** The fields still to be written. */
  function DueFields(c: Config, s: Spec): set<Field> {
    set f: Field | IsDue(c, s, f)
  }

  /** The versions differ by writes of the operator only: each has the final target of the last, and at least
      its due fields. */
  ghost predicate Lineage(c: Config, past: seq<Spec>) {
    forall i, g | 0 <= i < |past| :: Leads(c, past[i], Latest(past), g)
  }

  predicate Leads(c: Config, s: Spec, t: Spec, g: Field) {
    Target(c, s, g) == Target(c, t, g) && (IsDue(c, t, g) ==> IsDue(c, s, g))
  }

  /** How the resource moved: towards its target, every write paid for by a field that is due no more. */
  ghost predicate Progress(c: Config, r: State, t: State) {
    && t.past != []
    && (forall g :: Leads(c, Now(r), Now(t), g))
    && |t.past| + |DueFields(c, Now(t))| <= |r.past| + |DueFields(c, Now(r))|
    && (Lineage(c, r.past) ==> Lineage(c, t.past))
  }

  /** Before a write fails, the copy in memory is the version it was read from. */
  predicate InStep(r: State) {
    r.at < |r.past| && (!r.failed ==> r.mem == r.past[r.at])
  }

  lemma ProgressTransitive(c: Config, r: State, t: State, u: State)
    requires Progress(c, r, t) && Progress(c, t, u)
    ensures Progress(c, r, u)
  {
    forall g ensures Leads(c, Now(r), Now(u), g) {
      assert Leads(c, Now(r), Now(t), g) && Leads(c, Now(t), Now(u), g);
    }
  }

  lemma WriteLeads(c: Config, s: Spec, f: Field, g: Field)
    requires Configured(c) && IsDue(c, s, f)
    ensures Leads(c, s, s[f := NewValue(c, s, f)], g)
  {
    WriteKeepsTargets(c, s, f, g);
  }

  lemma WriteShrinksDue(c: Config, s: Spec, f: Field)
    requires Configured(c) && IsDue(c, s, f)
    ensures |DueFields(c, s[f := NewValue(c, s, f)])| == |DueFields(c, s)| - 1
  {
    var t := s[f := NewValue(c, s, f)];
    forall g ensures g in DueFields(c, t) <==> g in DueFields(c, s) - {f} {
      WriteKeepsTargets(c, s, f, g);
    }
    assert DueFields(c, t) == DueFields(c, s) - {f};
  }

  lemma LineageExtends(c: Config, past: seq<Spec>, next: Spec)
    requires past != [] && forall g :: Leads(c, Latest(past), next, g)
    ensures Lineage(c, past) ==> Lineage(c, past + [next])
  {
    var all := past + [next];
    if Lineage(c, past) {
      forall i, g | 0 <= i < |all| ensures Leads(c, all[i], Latest(all), g) {
        if i < |past| {
          assert Leads(c, past[i], Latest(past), g) && Leads(c, Latest(past), next, g);
        }
      }
    }
  }

  lemma StoredProgress(c: Config, r: State, t: State, f: Field)
    requires Configured(c) && r.past != [] && IsDue(c, Now(r), f)
    requires t.past == r.past + [Now(r)[f := NewValue(c, Now(r), f)]]
    ensures Progress(c, r, t)
  {
    var next := Now(r)[f := NewValue(c, Now(r), f)];
    forall g ensures Leads(c, Now(r), next, g) {
      WriteLeads(c, Now(r), f, g);
    }
    WriteShrinksDue(c, Now(r), f);
    LineageExtends(c, r.past, next);
  }

  lemma NoProgress(c: Config, r: State, t: State)
    requires r.past != [] && t.past == r.past
    ensures Progress(c, r, t)
  {
  }

  lemma SavingProgress(c: Config, r: State, f: Field)
    requires Configured(c) && InStep(r) && !r.failed && IsDue(c, r.mem, f)
    ensures var t := SavingField(r, f, NewValue(c, r.mem, f));
            && Progress(c, r, t) && InStep(t)
            && (!t.failed ==> Fresh(r) && Fresh(t) && t.mem == r.mem[f := NewValue(c, r.mem, f)])
  {
    var t := SavingField(r, f, NewValue(c, r.mem, f));
    if t.past == r.past {
      NoProgress(c, r, t);
    } else {
      StoredProgress(c, r, t, f);
    }
  }

  /** What handling some fields leaves: nothing of them due in memory unless it failed. */
  ghost predicate Handled(c: Config, r: State, t: State) {
    && Progress(c, r, t) && InStep(t)
    && (!t.failed ==> !r.failed && forall g | IsDue(c, t.mem, g) :: IsDue(c, r.mem, g))
    && (!t.failed && Fresh(r) ==> Fresh(t))
    && (!t.failed && !Fresh(r) ==> t.past == r.past && t.at == r.at)
  }

  lemma HandlingProgress(c: Config, r: State, f: Field)
    requires Configured(c) && InStep(r)
    ensures var t := Handling(r, c, f); Handled(c, r, t) && (!t.failed ==> !IsDue(c, t.mem, f))
  {
    var t := Handling(r, c, f);
    if r.failed || !IsDue(c, r.mem, f) {
      NoProgress(c, r, t);
    } else {
      var r1 := if IsSecretField(f) then SyncingSecret(r, Default(c, f), DataFor(r, f)) else r;
      if r1.failed {
        NoProgress(c, r, r1);
      } else {
        SavingProgress(c, r1, f);
        WrittenIsDone(c, r.mem, f);
        forall g | IsDue(c, r.mem[f := NewValue(c, r.mem, f)], g) ensures IsDue(c, r.mem, g) {
          WriteKeepsTargets(c, r.mem, f, g);
        }
      }
    }
  }

  lemma HandledTransitive(c: Config, r: State, t: State, u: State)
    requires Handled(c, r, t) && Handled(c, t, u)
    ensures Handled(c, r, u)
  {
    ProgressTransitive(c, r, t, u);
  }

  lemma {:induction false} HandlingAllProgress(c: Config, r: State, fields: seq<Field>)
    requires Configured(c) && InStep(r)
    ensures var t := HandlingAll(r, c, fields);
            Handled(c, r, t) && (!t.failed ==> forall f | f in fields :: !IsDue(c, t.mem, f))
    decreases |fields|
  {
    if fields == [] {
      NoProgress(c, r, r);
    } else {
      var front, last := fields[..|fields| - 1], fields[|fields| - 1];
      assert fields == front + [last];
      var m := HandlingAll(r, c, front);
      HandlingAllProgress(c, r, front);
      HandlingProgress(c, m, last);
      HandledTransitive(c, r, m, Handling(m, c, last));
    }
  }

  /** A reconcile: how many versions its cache lags behind, how its writes turn out, what it generates, and
      whether it sees the resource as being deleted. */
  datatype Attempt = Attempt(lag: nat, outcomes: seq<Outcome>, generated: map<Field, string>, crDeleting: bool)

  function ReadAt(r: State, a: Attempt): nat {
    if a.lag < |r.past| then |r.past| - 1 - a.lag else 0
  }

  /** What an attempt sees of the resource. */
  function Seen(r: State, a: Attempt): Spec
    requires r.past != []
  {
    r.past[ReadAt(r, a)]
  }

  predicate Stale(r: State, a: Attempt) {
    ReadAt(r, a) + 1 < |r.past|
  }

  function Begun(r: State, a: Attempt): State
    requires r.past != []
  {
    r.(at := ReadAt(r, a), mem := Seen(r, a), outcomes := a.outcomes, generated := a.generated,
       deleting := a.crDeleting, failed := false)
  }

  function Attempting(r: State, c: Config, a: Attempt): State
    requires r.past != []
  {
    Generating(Begun(r, a), c)
  }

  function AttemptingAll(r: State, c: Config, attempts: seq<Attempt>): (t: State)
    requires Configured(c) && r.past != []
    ensures t.past != []
  {
    if attempts == [] then r
    else
      var m := AttemptingAll(r, c, attempts[..|attempts| - 1]);
      AttemptProgress(c, m, attempts[|attempts| - 1]);
      Attempting(m, c, attempts[|attempts| - 1])
  }

  lemma OrderIsComplete(c: Config, s: Spec, f: Field)
    requires IsDue(c, s, f)
    ensures f in ORDER
  {
    assert CREDENTIALS[0] == PostgresSecret && CREDENTIALS[1] == IdpPostgresSecret && CREDENTIALS[2] == IdpSecret;
    assert DATABASE[0] == PostgresDb && DATABASE[1] == PostgresHostName && DATABASE[2] == PostgresPort;
    assert DATABASE[3] == IdpRealm && DATABASE[4] == IdpClientId;
    assert SERVER[0] == CheLogLevel && SERVER[1] == CheDebug && SERVER[2] == PvcStrategy && SERVER[3] == PvcClaimSize;
    assert OUTDATED_IMAGES[0] == PvcJobsImage && OUTDATED_IMAGES[1] == PostgresImage && OUTDATED_IMAGES[2] == IdpImage;
    assert OUTDATED[0] == PluginRegistryUrl && OUTDATED[1] == CheImage && OUTDATED[2] == CheImageTag;
  }

  lemma AttemptProgress(c: Config, r: State, a: Attempt)
    requires Configured(c) && r.past != []
    ensures var t := Attempting(r, c, a);
            && Progress(c, r, t)
            && (Stale(r, a) && !t.failed ==> t.past == r.past)
            && (!t.failed && (Stale(r, a) ==> Lineage(c, r.past)) ==> forall f :: !IsDue(c, Now(t), f))
  {
    var r1 := Begun(r, a);
    var t := Attempting(r, c, a);
    NoProgress(c, r, r1);
    HandlingAllProgress(c, r1, ORDER);
    ProgressTransitive(c, r, r1, t);
    if !t.failed && (Stale(r, a) ==> Lineage(c, r.past)) {
      forall f ensures !IsDue(c, Now(t), f) {
        SuccessLeavesNothing(c, r, a, t, f);
      }
    }
  }

  lemma SuccessLeavesNothing(c: Config, r: State, a: Attempt, t: State, f: Field)
    requires r.past != [] && (Stale(r, a) ==> Lineage(c, r.past))
    requires Handled(c, Begun(r, a), t) && !t.failed && forall g | g in ORDER :: !IsDue(c, t.mem, g)
    ensures !IsDue(c, Now(t), f)
  {
    if IsDue(c, t.mem, f) {
      OrderIsComplete(c, t.mem, f);
    }
    if Stale(r, a) {
      assert Leads(c, r.past[ReadAt(r, a)], Latest(r.past), f);
    }
  }

  lemma {:induction false} AttemptsProgress(c: Config, r: State, attempts: seq<Attempt>)
    requires Configured(c) && r.past != []
    ensures Progress(c, r, AttemptingAll(r, c, attempts))
    decreases |attempts|
  {
    if attempts == [] {
      NoProgress(c, r, r);
    } else {
      var m := AttemptingAll(r, c, attempts[..|attempts| - 1]);
      AttemptsProgress(c, r, attempts[..|attempts| - 1]);
      AttemptProgress(c, m, attempts[|attempts| - 1]);
      ProgressTransitive(c, r, m, AttemptingAll(r, c, attempts));
    }
  }

  /** Crash tolerance: after any number of attempts that failed anywhere and read any version the cache may show,
      an attempt that succeeds leaves the resource exactly as one undisturbed attempt would have: every due field
      at its target and every other field, in particular every value the user gave, as it was. All attempts
      together write the resource at most once for each field that was due. (An attempt that reads a version
      from before an edit of the user can succeed by finding nothing to do there.) */
  lemma {:induction false} CrashTolerant(c: Config, r: State, attempts: seq<Attempt>, last: Attempt)
    requires Configured(c) && r.past != []
    ensures var m := AttemptingAll(r, c, attempts);
            var t := Attempting(m, c, last);
            && (forall f :: Target(c, Now(t), f) == Target(c, Now(r), f))
            && (!t.failed && (Stale(m, last) ==> Lineage(c, r.past)) ==>
                  forall f :: Val(Now(t), f) == Target(c, Now(r), f) && !IsDue(c, Now(t), f))
            && |t.past| <= |r.past| + |DueFields(c, Now(r))|
  {
    var m := AttemptingAll(r, c, attempts);
    var t := Attempting(m, c, last);
    AttemptsProgress(c, r, attempts);
    AttemptProgress(c, m, last);
    ProgressTransitive(c, r, m, t);
    forall f ensures Target(c, Now(t), f) == Target(c, Now(r), f) {
      assert Leads(c, Now(r), Now(t), f);
    }
  }

  /** Fields that are filled exactly when they are empty. */
  predicate FillsWhenEmpty(c: Config, f: Field) {
    || f.CheFlavor? || f.CheLogLevel? || f.CheDebug? || f.PvcStrategy? || f.PvcClaimSize?
    || (c.multiUser && (f.PostgresDb? || f.PostgresHostName? || f.PostgresPort? || f.IdpRealm? || f.IdpClientId?))
  }

  predicate Filled(s: Spec, f: Field) {
    Val(s, f) != ""
  }

  /** Every required field has a value, and every credential is there, as a secret or as given values. */
  predicate Complete(c: Config, s: Spec) {
    && (forall f | FillsWhenEmpty(c, f) :: Filled(s, f))
    && (Filled(s, ServerExposureStrategy) || Filled(s, IngressStrategy))
    && (c.multiUser ==>
          && (Filled(s, PostgresSecret) || (Filled(s, PostgresUser) && Filled(s, PostgresPassword)))
          && (Filled(s, IdpPostgresSecret) || Filled(s, IdpPostgresPassword))
          && (Filled(s, IdpSecret) || (Filled(s, IdpAdminUserName) && Filled(s, IdpPassword))))
  }

  lemma NothingDueIsComplete(c: Config, s: Spec)
    requires forall f :: !IsDue(c, s, f)
    ensures Complete(c, s)
  {
    forall f | FillsWhenEmpty(c, f) ensures Filled(s, f) {
      assert !IsDue(c, s, f);
    }
    assert !IsDue(c, s, ServerExposureStrategy);
    assert !IsDue(c, s, PostgresSecret) && !IsDue(c, s, IdpPostgresSecret) && !IsDue(c, s, IdpSecret);
  }

  lemma GivenIsTarget(c: Config, s: Spec, f: Field)
    requires Filled(s, f) && !IsCleared(f)
    ensures Target(c, s, f) == Val(s, f)
  {
  }

  /** So the resource is complete after the first success, and outside the migration every value the user gave
      is still there. */
  lemma {:induction false} SuccessCompletes(c: Config, r: State, attempts: seq<Attempt>, last: Attempt)
    requires Configured(c) && r.past != []
    ensures var m := AttemptingAll(r, c, attempts);
            var t := Attempting(m, c, last);
            !t.failed && (Stale(m, last) ==> Lineage(c, r.past)) ==>
              && Complete(c, Now(t))
              && forall f | Filled(Now(r), f) && !IsCleared(f) :: Val(Now(t), f) == Val(Now(r), f)
  {
    CrashTolerant(c, r, attempts, last);
    var m := AttemptingAll(r, c, attempts);
    var t := Attempting(m, c, last);
    if !t.failed && (Stale(m, last) ==> Lineage(c, r.past)) {
      NothingDueIsComplete(c, Now(t));
      forall f | Filled(Now(r), f) && !IsCleared(f) ensures Val(Now(t), f) == Val(Now(r), f) {
        GivenIsTarget(c, Now(r), f);
      }
    }
  }

  // ---------- which values these are ----------

  function Or(given: string, default_: string): string {
    if given != "" then given else default_
  }

  /** Fields that go back to the operator's default: the three images if they hold the old default, or in the
      migration from CRW 1.2 to 2.0 whatever they hold; the image and tag of the server, and the URL of an
      internal plugin registry, if they hold the old default in that migration. */
  predicate ToBeCleared(c: Config, s: Spec, f: Field) {
    var outdated := f in c.outdated && c.outdated[f] != "" && Val(s, f) == c.outdated[f];
    var migrating := Or(Val(s, CheFlavor), c.flavor) == "codeready" && c.fromVersion12To20;
    match f
    case PvcJobsImage | PostgresImage | IdpImage => outdated || migrating
    case CheImage | CheImageTag => outdated && migrating
    case PluginRegistryUrl => outdated && migrating && !c.externalPluginRegistry
    case _ => false
  }

  /** The value a field has in the end, told from what the user gave: the user's own, unless it is to be cleared;
      the default, if none is given. The names of the identity provider follow the flavor; the exposure strategy
      follows the dev workspaces, unless an ingress strategy is given; and a secret is named exactly if the user
      named one or, with multi-user support, did not give all the values it stands for. */
  function Expected(c: Config, s: Spec, f: Field): string {
    var flavor := Or(Val(s, CheFlavor), c.flavor);
    match f
    case CheFlavor => flavor
    case PvcJobsImage | PostgresImage | IdpImage | CheImage | CheImageTag | PluginRegistryUrl =>
      if ToBeCleared(c, s, f) then "" else Val(s, f)
    case CheLogLevel | CheDebug | PvcStrategy | PvcClaimSize => Or(Val(s, f), Default(c, f))
    case PostgresDb | PostgresHostName | PostgresPort => Or(Val(s, f), if c.multiUser then Default(c, f) else "")
    case IdpRealm => Or(Val(s, f), if c.multiUser then flavor else "")
    case IdpClientId => Or(Val(s, f), if c.multiUser then flavor + "-public" else "")
    case ServerExposureStrategy =>
      if Val(s, f) != "" then Val(s, f)
      else if Val(s, IngressStrategy) != "" then ""
      else if c.devWorkspaceEnable then "single-host"
      else "multi-host"
    case PostgresSecret =>
      var given := Val(s, PostgresUser) != "" && Val(s, PostgresPassword) != "";
      Or(Val(s, f), if c.multiUser && !given then Default(c, f) else "")
    case IdpPostgresSecret =>
      Or(Val(s, f), if c.multiUser && Val(s, IdpPostgresPassword) == "" then Default(c, f) else "")
    case IdpSecret =>
      var given := Val(s, IdpAdminUserName) != "" && Val(s, IdpPassword) != "";
      Or(Val(s, f), if c.multiUser && !given then Default(c, f) else "")
    case PostgresUser | PostgresPassword | IdpPostgresPassword | IdpAdminUserName | IdpPassword | IngressStrategy =>
      Val(s, f)
  }

  lemma TargetIsExpected(c: Config, s: Spec, f: Field)
    ensures Target(c, s, f) == Expected(c, s, f)
  {
  }

  /** After any failed attempts, the first success leaves every field at its expected value. In particular an image
      the user has chosen is wiped only if it is the old default, or in the migration. */
  lemma {:induction false} SuccessMeans(c: Config, r: State, attempts: seq<Attempt>, last: Attempt)
    requires Configured(c) && r.past != []
    ensures var m := AttemptingAll(r, c, attempts);
            var t := Attempting(m, c, last);
            !t.failed && (Stale(m, last) ==> Lineage(c, r.past)) ==>
              forall f :: Val(Now(t), f) == Expected(c, Now(r), f)
  {
    CrashTolerant(c, r, attempts, last);
    var t := Attempting(AttemptingAll(r, c, attempts), c, last);
    forall f ensures Target(c, Now(r), f) == Expected(c, Now(r), f) {
      TargetIsExpected(c, Now(r), f);
    }
  }

  lemma {:induction false} NothingDueNothingWritten(c: Config, r: State, fields: seq<Field>)
    requires forall f :: !IsDue(c, r.mem, f)
    ensures HandlingAll(r, c, fields) == r
    decreases |fields|
  {
    if fields != [] {
      NothingDueNothingWritten(c, r, fields[..|fields| - 1]);
    }
  }

  lemma SavingSucceeds(r: State, f: Field, v: string)
    requires r.outcomes == [] && Fresh(r)
    ensures var t := SavingField(r, f, v); t.outcomes == [] && !t.failed && Fresh(t)
  {
  }

  lemma SyncingSucceeds(r: State, name: string, data: string)
    requires r.outcomes == [] && !r.failed
    ensures var t := SyncingSecret(r, name, data); t.outcomes == [] && !t.failed
  {
    SecretDeleted(r, name);
    SecretCreated(r, name, data);
  }

  lemma HandlingSucceeds(c: Config, r: State, f: Field)
    requires r.outcomes == [] && !r.failed && Fresh(r)
    ensures var t := Handling(r, c, f); t.outcomes == [] && !t.failed && Fresh(t)
  {
    var r1 := if IsSecretField(f) then SyncingSecret(r, Default(c, f), DataFor(r, f)) else r;
    SyncingSucceeds(r, Default(c, f), DataFor(r, f));
    SavingSucceeds(r1, f, NewValue(c, r.mem, f));
  }

  lemma {:induction false} UndisturbedSucceeds(c: Config, r: State, fields: seq<Field>)
    requires r.outcomes == [] && !r.failed && Fresh(r)
    ensures var t := HandlingAll(r, c, fields); t.outcomes == [] && !t.failed && Fresh(t)
    decreases |fields|
  {
    if fields != [] {
      UndisturbedSucceeds(c, r, fields[..|fields| - 1]);
      HandlingSucceeds(c, HandlingAll(r, c, fields[..|fields| - 1]), fields[|fields| - 1]);
    }
  }

  /** An attempt that reads the stored version and whose writes go through succeeds, whatever earlier attempts
      have left. */
  lemma {:induction false} EveryCrashIsRecoverable(c: Config, r: State, attempts: seq<Attempt>,
      generated: map<Field, string>, crDeleting: bool)
    requires Configured(c) && r.past != []
    ensures var t := Attempting(AttemptingAll(r, c, attempts), c, Attempt(0, [], generated, crDeleting));
            !t.failed && Complete(c, Now(t))
  {
    var m := AttemptingAll(r, c, attempts);
    var last := Attempt(0, [], generated, crDeleting);
    UndisturbedSucceeds(c, Begun(m, last), ORDER);
    SuccessCompletes(c, r, attempts, last);
  }

  /** After a success, a further run writes nothing, if it sees what that success has left. */
  lemma SecondRunIsSilent(c: Config, r: State, a: Attempt, b: Attempt)
    requires Configured(c) && r.past != []
    requires !Attempting(r, c, a).failed && (Stale(r, a) ==> Lineage(c, r.past))
    requires Attempting(r, c, a).past != [] && !Stale(Attempting(r, c, a), b)
    ensures var t := Attempting(r, c, a);
            var u := Attempting(t, c, b);
            !u.failed && u.past == t.past && u.secrets == t.secrets
  {
    AttemptProgress(c, r, a);
    NothingDueNothingWritten(c, Begun(Attempting(r, c, a), b), ORDER);
  }

  // ---------- an attempt from an earlier version ----------

  function FirstDueIn(c: Config, s: Spec, fields: seq<Field>): Option<Field> {
    if fields == [] then None
    else
      var before := FirstDueIn(c, s, fields[..|fields| - 1]);
      var last := fields[|fields| - 1];
      if before.Some? then before else if IsDue(c, s, last) then Some(last) else None
  }

  /** The first field an attempt would write, in the order of the source. */
  function FirstDue(c: Config, s: Spec): Option<Field> {
    FirstDueIn(c, s, ORDER)
  }

  lemma {:induction false} FirstDueConcat(c: Config, s: Spec, a: seq<Field>, b: seq<Field>)
    ensures FirstDueIn(c, s, a + b) == if FirstDueIn(c, s, a).Some? then FirstDueIn(c, s, a) else FirstDueIn(c, s, b)
    decreases |b|
  {
    if b == [] {
      assert a + b == a;
    } else {
      FirstDueConcat(c, s, a, b[..|b| - 1]);
      assert (a + b)[..|a + b| - 1] == a + b[..|b| - 1];
    }
  }

  lemma {:induction false} FirstDueIsIn(c: Config, s: Spec, fields: seq<Field>)
    ensures FirstDueIn(c, s, fields).Some? ==> FirstDueIn(c, s, fields).value in fields
    decreases |fields|
  {
    if fields != [] {
      FirstDueIsIn(c, s, fields[..|fields| - 1]);
    }
  }

  /** When a secret comes first: the flavor is given, this secret's field is due, and no credential before it is. */
  lemma {:induction false} SecretIsFirst(c: Config, s: Spec, f: Field)
    requires IsSecretField(f)
    ensures FirstDue(c, s) == Some(f) <==>
              && Val(s, CheFlavor) != ""
              && IsDue(c, s, f)
              && (f != PostgresSecret ==> !IsDue(c, s, PostgresSecret))
              && (f == IdpSecret ==> !IsDue(c, s, IdpPostgresSecret))
  {
    var head := [CheFlavor] + CREDENTIALS;
    var rest := DATABASE + SERVER + OUTDATED_IMAGES + OUTDATED + [ServerExposureStrategy];
    assert ORDER == head + rest;
    FirstDueConcat(c, s, head, rest);
    FirstDueIsIn(c, s, rest);
    assert head == [CheFlavor, PostgresSecret, IdpPostgresSecret, IdpSecret];
    FirstOfFour(c, s, CheFlavor, PostgresSecret, IdpPostgresSecret, IdpSecret);
    forall g | g in rest ensures !IsSecretField(g) {
    }
  }

  lemma FirstOfFour(c: Config, s: Spec, f: Field, g: Field, h: Field, i: Field)
    ensures FirstDueIn(c, s, [f, g, h, i])
         == if IsDue(c, s, f) then Some(f) else if IsDue(c, s, g) then Some(g)
            else if IsDue(c, s, h) then Some(h) else if IsDue(c, s, i) then Some(i) else None
  {
    assert [f, g, h, i][..3] == [f, g, h] && [f, g, h][..2] == [f, g] && [f, g][..1] == [f] && [f][..0] == [];
    assert FirstDueIn(c, s, [f]) == if IsDue(c, s, f) then Some(f) else None;
    assert FirstDueIn(c, s, [f, g]) == if IsDue(c, s, f) then Some(f) else if IsDue(c, s, g) then Some(g) else None;
  }

  lemma StaleStops(c: Config, r: State, f: Field)
    requires !r.failed && !Fresh(r) && IsDue(c, r.mem, f)
    ensures var t := Handling(r, c, f); t.failed && t.past == r.past
  {
  }

  lemma {:induction false} StaleStopsAtFirst(c: Config, r: State, fields: seq<Field>)
    requires InStep(r) && !r.failed && !Fresh(r)
    ensures var t := HandlingAll(r, c, fields);
            match FirstDueIn(c, r.mem, fields)
            case None => t == r
            case Some(f) => t == Handling(r, c, f) && t.failed && t.past == r.past
    decreases |fields|
  {
    if fields != [] {
      StaleStopsAtFirst(c, r, fields[..|fields| - 1]);
      if IsDue(c, r.mem, fields[|fields| - 1]) {
        StaleStops(c, r, fields[|fields| - 1]);
      }
    }
  }

  /** The secrets an attempt from an earlier version leaves: at most one is touched, that of the first field due
      in that version. */
  function SecretsAfter(c: Config, r: State, a: Attempt): map<string, string>
    requires r.past != []
  {
    var f := FirstDue(c, Seen(r, a));
    var r1 := Begun(r, a);
    if f.Some? && IsSecretField(f.value) then SyncingSecret(r1, Default(c, f.value), DataFor(r1, f.value)).secrets
    else r.secrets
  }

  /** Exactly what an attempt from an earlier version does: it never changes the resource, it fails if and only
      if something was due in that version, and it syncs one secret if the first such field names one. */
  lemma StaleAttempt(c: Config, r: State, a: Attempt)
    requires r.past != [] && Stale(r, a)
    ensures var t := Attempting(r, c, a);
            && t.past == r.past
            && (t.failed <==> FirstDue(c, Seen(r, a)).Some?)
            && t.secrets == SecretsAfter(c, r, a)
  {
    StaleStopsAtFirst(c, Begun(r, a), ORDER);
  }

  /** The attempt replaces the secret of this name: it reads an earlier version, in which the resource is not
      being deleted and the first due field is one that names this secret, and has generated other data for
      it. */
  predicate Replaces(c: Config, r: State, a: Attempt, name: string)
    requires r.past != []
  {
    var f := FirstDue(c, Seen(r, a));
    && Stale(r, a) && !a.crDeleting
    && f.Some? && IsSecretField(f.value) && Default(c, f.value) == name
    && name in r.secrets && r.secrets[name] != DataFor(Begun(r, a), f.value)
  }

  predicate FirstWriteLost(outcomes: seq<Outcome>) {
    outcomes != [] && outcomes[0].Failed? && !outcomes[0].applied
  }

  /** The deletion is carried out, but not the creation after it. */
  predicate LosesBetween(outcomes: seq<Outcome>) {
    && outcomes != []
    && !FirstWriteLost(outcomes)
    && (outcomes[0].Failed? || FirstWriteLost(outcomes[1..]))
  }

  /** Exactly when an attempt from an earlier version rewrites a secret, and exactly when it loses it. */
  lemma StaleRewrites(c: Config, r: State, a: Attempt, name: string)
    requires r.past != [] && Stale(r, a) && name in r.secrets
    ensures var t := Attempting(r, c, a);
            && (name in t.secrets && t.secrets[name] == r.secrets[name]
                <==> !Replaces(c, r, a, name) || FirstWriteLost(a.outcomes))
            && (name !in t.secrets <==> Replaces(c, r, a, name) && LosesBetween(a.outcomes))
  {
    StaleAttempt(c, r, a);
    var f := FirstDue(c, Seen(r, a));
    if f.Some? && IsSecretField(f.value) {
      OneSecretSynced(Begun(r, a), Default(c, f.value), DataFor(Begun(r, a), f.value), name);
    }
  }

  lemma OneSecretSynced(r: State, n: string, data: string, name: string)
    requires name in r.secrets
    ensures var t := SyncingSecret(r, n, data);
            var replaced := !r.deleting && n == name && r.secrets[name] != data;
            && (name in t.secrets && t.secrets[name] == r.secrets[name] <==> !replaced || FirstWriteLost(r.outcomes))
            && (name !in t.secrets <==> replaced && LosesBetween(r.outcomes))
  {
    if n != name {
      OtherSecretSynced(r, n, data, name);
    } else if !r.deleting && r.secrets[name] != data {
      SecretDeleted(r, name);
      SecretCreated(DeletingSecret(r, name), name, data);
    }
  }

  lemma SecretDeleted(r: State, name: string)
    ensures var t := DeletingSecret(r, name);
            && t.secrets == (if FirstWriteLost(r.outcomes) then r.secrets else r.secrets - {name})
            && (t.failed <==> r.outcomes != [] && r.outcomes[0].Failed?)
            && t.outcomes == if r.outcomes == [] then [] else r.outcomes[1..]
  {
  }

  lemma SecretCreated(r: State, name: string, data: string)
    ensures var t := CreatingSecret(r, name, data);
            && t.secrets == (if FirstWriteLost(r.outcomes) then r.secrets else r.secrets[name := data])
            && (t.failed <==> r.outcomes != [] && r.outcomes[0].Failed?)
  {
  }

  lemma OtherSecretSynced(r: State, n: string, data: string, name: string)
    requires n != name
    ensures SameSecret(r, SyncingSecret(r, n, data), name)
  {
    SecretDeleted(r, n);
    SecretCreated(r, n, data);
    SecretCreated(DeletingSecret(r, n), n, data);
  }

  predicate SameSecret(r: State, t: State, name: string) {
    (name in t.secrets <==> name in r.secrets) && (name in r.secrets ==> t.secrets[name] == r.secrets[name])
  }

  // ---------- secrets over every run ----------

  /** No due field is about this secret. */
  predicate Untargeted(c: Config, s: Spec, name: string) {
    forall f | IsSecretField(f) && IsDue(c, s, f) :: Default(c, f) != name
  }

  lemma HandlingKeepsSecret(c: Config, r: State, f: Field, name: string)
    requires IsSecretField(f) && IsDue(c, r.mem, f) ==> Default(c, f) != name
    ensures SameSecret(r, Handling(r, c, f), name)
  {
    if !r.failed && IsDue(c, r.mem, f) && IsSecretField(f) {
      OtherSecretSynced(r, Default(c, f), DataFor(r, f), name);
    }
  }

  lemma {:induction false} HandlingAllKeepsSecret(c: Config, r: State, fields: seq<Field>, name: string)
    requires Configured(c) && InStep(r) && Untargeted(c, r.mem, name)
    ensures SameSecret(r, HandlingAll(r, c, fields), name)
    decreases |fields|
  {
    if fields != [] {
      var front, last := fields[..|fields| - 1], fields[|fields| - 1];
      var m := HandlingAll(r, c, front);
      HandlingAllKeepsSecret(c, r, front, name);
      HandlingAllProgress(c, r, front);
      if !m.failed {
        HandlingKeepsSecret(c, m, last, name);
      }
    }
  }

  /** Whether an attempt leaves a secret alone that no due field is about: a caller can tell from the version it
      reads, the first field due there, and the first write it makes. */
  predicate Spares(c: Config, r: State, a: Attempt, name: string)
    requires r.past != []
  {
    !Replaces(c, r, a, name) || FirstWriteLost(a.outcomes)
  }

  /** Exactly when a secret that is named already, or that nothing asks for, is rewritten by one attempt. */
  lemma SparedExactly(c: Config, r: State, a: Attempt, name: string)
    requires Configured(c) && r.past != [] && name in r.secrets && Untargeted(c, Now(r), name)
    ensures var t := Attempting(r, c, a);
            name in t.secrets && t.secrets[name] == r.secrets[name] <==> Spares(c, r, a, name)
  {
    if Stale(r, a) {
      StaleRewrites(c, r, a, name);
    } else {
      HandlingAllKeepsSecret(c, Begun(r, a), ORDER, name);
    }
  }

  /** Every attempt of the run spares the secret. */
  predicate AllSpare(c: Config, r: State, attempts: seq<Attempt>, name: string)
    requires Configured(c) && r.past != []
    decreases |attempts|
  {
    attempts == []
    || (var front := attempts[..|attempts| - 1];
        AllSpare(c, r, front, name) && Spares(c, AttemptingAll(r, c, front), attempts[|attempts| - 1], name))
  }

  lemma UntargetedStays(c: Config, r: State, t: State, name: string)
    requires Progress(c, r, t) && Untargeted(c, Now(r), name)
    ensures Untargeted(c, Now(t), name)
  {
    forall f | IsSecretField(f) && IsDue(c, Now(t), f) ensures Default(c, f) != name {
      assert Leads(c, Now(r), Now(t), f);
    }
  }

  /** Over every run: the secret of a field that already names one is never rewritten, as long as every attempt
      spares it. */
  lemma {:induction false} NamedSecretsStay(c: Config, r: State, attempts: seq<Attempt>, name: string)
    requires Configured(c) && r.past != [] && name in r.secrets && Untargeted(c, Now(r), name)
    requires AllSpare(c, r, attempts, name)
    ensures var t := AttemptingAll(r, c, attempts);
            name in t.secrets && t.secrets[name] == r.secrets[name] && Untargeted(c, Now(t), name)
    decreases |attempts|
  {
    if attempts != [] {
      var m := AttemptingAll(r, c, attempts[..|attempts| - 1]);
      NamedSecretsStay(c, r, attempts[..|attempts| - 1], name);
      SparedExactly(c, m, attempts[|attempts| - 1], name);
      AttemptProgress(c, m, attempts[|attempts| - 1]);
      UntargetedStays(c, m, AttemptingAll(r, c, attempts), name);
    }
  }

  /** The three secrets have different names. */
  predicate DistinctSecrets(c: Config) {
    forall f, g | IsSecretField(f) && IsSecretField(g) && f != g :: Default(c, f) != Default(c, g)
  }

  /** A field that an attempt has filled with the name of a secret names one that is there. */
  ghost predicate Backed(c: Config, s: Spec, t: State) {
    forall f | IsSecretField(f) && IsDue(c, s, f) && !IsDue(c, Now(t), f) :: Default(c, f) in t.secrets
  }

  /** Every secret that a due field is about is there already. */
  predicate SecretsThere(c: Config, r: State, s: Spec) {
    forall f | IsSecretField(f) && IsDue(c, s, f) :: Default(c, f) in r.secrets
  }

  lemma HandlingBacks(c: Config, r: State, s: Spec, f: Field)
    requires Configured(c) && DistinctSecrets(c) && InStep(r) && (r.failed || Fresh(r)) && Backed(c, s, r)
    requires r.failed || !r.deleting || SecretsThere(c, r, r.mem)
    ensures Backed(c, s, Handling(r, c, f))
  {
    var t := Handling(r, c, f);
    if !r.failed && IsDue(c, r.mem, f) {
      HandlingProgress(c, r, f);
      forall g | IsSecretField(g) && IsDue(c, s, g) && !IsDue(c, Now(t), g) ensures Default(c, g) in t.secrets {
        if g == f {
          FilledMeansCreated(c, r, f);
        } else {
          HandlingFillsOne(c, r, f, g);
          HandlingKeepsSecret(c, r, f, Default(c, g));
        }
      }
    }
  }

  lemma SavingNow(r: State, f: Field, v: string)
    ensures Now(SavingField(r, f, v)) == Now(r) || Now(SavingField(r, f, v)) == r.mem[f := v]
  {
  }

  lemma HandlingNow(c: Config, r: State, f: Field)
    ensures Now(Handling(r, c, f)) == Now(r) || Now(Handling(r, c, f)) == r.mem[f := NewValue(c, r.mem, f)]
  {
    var r1 := if IsSecretField(f) then SyncingSecret(r, Default(c, f), DataFor(r, f)) else r;
    SavingNow(r1, f, NewValue(c, r.mem, f));
  }

  lemma HandlingFillsOne(c: Config, r: State, f: Field, g: Field)
    requires Configured(c) && InStep(r) && !r.failed && Fresh(r) && IsDue(c, r.mem, f) && g != f
    ensures IsDue(c, Now(Handling(r, c, f)), g) <==> IsDue(c, Now(r), g)
  {
    HandlingNow(c, r, f);
    WriteKeepsTargets(c, r.mem, f, g);
  }

  lemma SyncedIsThere(r: State, name: string, data: string)
    requires !r.deleting
    ensures var t := SyncingSecret(r, name, data); !t.failed ==> name in t.secrets
  {
    SecretDeleted(r, name);
    SecretCreated(r, name, data);
    SecretCreated(DeletingSecret(r, name), name, data);
  }

  lemma FilledMeansCreated(c: Config, r: State, f: Field)
    requires InStep(r) && Fresh(r) && !r.failed && IsSecretField(f) && IsDue(c, r.mem, f)
    requires !r.deleting || SecretsThere(c, r, r.mem)
    requires !IsDue(c, Now(Handling(r, c, f)), f)
    ensures Default(c, f) in Handling(r, c, f).secrets
  {
    if !r.deleting {
      SyncedIsThere(r, Default(c, f), DataFor(r, f));
    }
  }

  lemma {:induction false} HandlingAllBacks(c: Config, r: State, s: Spec, fields: seq<Field>)
    requires Configured(c) && DistinctSecrets(c) && InStep(r) && Fresh(r) && Backed(c, s, r)
    requires !r.deleting || SecretsThere(c, r, r.mem)
    ensures Backed(c, s, HandlingAll(r, c, fields))
    decreases |fields|
  {
    if fields != [] {
      HandlingAllBacks(c, r, s, fields[..|fields| - 1]);
      HandlingAllProgress(c, r, fields[..|fields| - 1]);
      HandlingBacks(c, HandlingAll(r, c, fields[..|fields| - 1]), s, fields[|fields| - 1]);
    }
  }

  /** The attempt does not lose the secret of a field that is filled already. */
  predicate LosesNone(c: Config, r: State, a: Attempt)
    requires r.past != []
  {
    forall f | IsSecretField(f) && !IsDue(c, Now(r), f) ::
      !(Replaces(c, r, a, Default(c, f)) && LosesBetween(a.outcomes))
  }

  /** Exactly when a field that an attempt fills is backed: the resource is not being deleted, or the secret was
      there before. */
  lemma {:induction false} FilledIsBacked(c: Config, r: State, a: Attempt, f: Field)
    requires Configured(c) && DistinctSecrets(c) && r.past != [] && !Stale(r, a)
    requires IsSecretField(f) && IsDue(c, Now(r), f) && !IsDue(c, Now(Attempting(r, c, a)), f)
    ensures Default(c, f) in Attempting(r, c, a).secrets <==> !a.crDeleting || Default(c, f) in r.secrets
  {
    if !a.crDeleting {
      HandlingAllBacks(c, Begun(r, a), Now(r), ORDER);
    }
  }

  /** The secrets of the fields filled so far hold what this attempt has generated for them. */
  ghost predicate Holding(c: Config, s: Spec, t: State) {
    forall f | IsSecretField(f) && IsDue(c, s, f) && !IsDue(c, Now(t), f) ::
      && Default(c, f) in t.secrets
      && t.secrets[Default(c, f)] == if f in t.generated then t.generated[f] else ""
  }

  lemma SyncedHolds(r: State, name: string, data: string)
    requires !r.deleting
    ensures var t := SyncingSecret(r, name, data); !t.failed ==> name in t.secrets && t.secrets[name] == data
  {
    SecretDeleted(r, name);
    SecretCreated(r, name, data);
    SecretCreated(DeletingSecret(r, name), name, data);
  }

  lemma FilledHolds(c: Config, r: State, f: Field)
    requires InStep(r) && Fresh(r) && !r.failed && !r.deleting && IsSecretField(f) && IsDue(c, r.mem, f)
    requires !IsDue(c, Now(Handling(r, c, f)), f)
    ensures var t := Handling(r, c, f); Default(c, f) in t.secrets && t.secrets[Default(c, f)] == DataFor(r, f)
  {
    SyncedHolds(r, Default(c, f), DataFor(r, f));
  }

  lemma HandlingHolds(c: Config, r: State, s: Spec, f: Field)
    requires Configured(c) && DistinctSecrets(c) && InStep(r) && (r.failed || Fresh(r)) && !r.deleting
    requires Holding(c, s, r)
    ensures Holding(c, s, Handling(r, c, f))
  {
    var t := Handling(r, c, f);
    if !r.failed && IsDue(c, r.mem, f) {
      HandlingProgress(c, r, f);
      forall g | IsSecretField(g) && IsDue(c, s, g) && !IsDue(c, Now(t), g)
        ensures Default(c, g) in t.secrets && t.secrets[Default(c, g)] == DataFor(r, g)
      {
        if g == f {
          FilledHolds(c, r, f);
        } else {
          HandlingFillsOne(c, r, f, g);
          HandlingKeepsSecret(c, r, f, Default(c, g));
        }
      }
    }
  }

  lemma {:induction false} HandlingAllHolds(c: Config, r: State, s: Spec, fields: seq<Field>)
    requires Configured(c) && DistinctSecrets(c) && InStep(r) && Fresh(r) && !r.deleting && Holding(c, s, r)
    ensures Holding(c, s, HandlingAll(r, c, fields))
    decreases |fields|
  {
    if fields != [] {
      HandlingAllHolds(c, r, s, fields[..|fields| - 1]);
      HandlingAllProgress(c, r, fields[..|fields| - 1]);
      HandlingHolds(c, HandlingAll(r, c, fields[..|fields| - 1]), s, fields[|fields| - 1]);
    }
  }

  /** And what the secret holds, if the resource is not being deleted, is what the attempt has generated, whatever
      it held before. */
  lemma {:induction false} FilledSecretHolds(c: Config, r: State, a: Attempt, f: Field)
    requires Configured(c) && DistinctSecrets(c) && r.past != [] && !Stale(r, a) && !a.crDeleting
    requires IsSecretField(f) && IsDue(c, Now(r), f) && !IsDue(c, Now(Attempting(r, c, a)), f)
    ensures var t := Attempting(r, c, a);
            && Default(c, f) in t.secrets
            && t.secrets[Default(c, f)] == if f in a.generated then a.generated[f] else ""
  {
    HandlingAllHolds(c, Begun(r, a), Now(r), ORDER);
  }

  /** While the resource is being deleted, an attempt whose writes go through stores the name of a secret that
      does not exist. */
  lemma {:induction false} DeletingFillsUnbacked(c: Config, r: State, a: Attempt, f: Field)
    requires Configured(c) && r.past != [] && !Stale(r, a) && a.outcomes == [] && a.crDeleting
    requires IsSecretField(f) && IsDue(c, Now(r), f) && Default(c, f) !in r.secrets
    ensures var t := Attempting(r, c, a);
            !t.failed && Val(Now(t), f) == Default(c, f) && Default(c, f) !in t.secrets
  {
    UndisturbedSucceeds(c, Begun(r, a), ORDER);
    CrashTolerant(c, r, [], a);
  }

  /** No field is filled without its secret: the attempt does not see the resource as being deleted while a
      secret is missing that a due field is about; and it loses none. */
  predicate Backs(c: Config, r: State, a: Attempt)
    requires r.past != []
  {
    LosesNone(c, r, a) && (Stale(r, a) || !a.crDeleting || SecretsThere(c, r, Now(r)))
  }

  lemma AttemptBacks(c: Config, r: State, s: Spec, a: Attempt)
    requires Configured(c) && DistinctSecrets(c) && r.past != [] && Backed(c, s, r) && Backs(c, r, a)
    ensures Backed(c, s, Attempting(r, c, a))
  {
    if Stale(r, a) {
      StaleAttempt(c, r, a);
      forall f | IsSecretField(f) && IsDue(c, s, f) && !IsDue(c, Now(r), f)
        ensures Default(c, f) in Attempting(r, c, a).secrets
      {
        StaleRewrites(c, r, a, Default(c, f));
      }
    } else {
      HandlingAllBacks(c, Begun(r, a), s, ORDER);
    }
  }

  predicate AllBack(c: Config, r: State, attempts: seq<Attempt>)
    requires Configured(c) && r.past != []
    decreases |attempts|
  {
    attempts == []
    || (var front := attempts[..|attempts| - 1];
        AllBack(c, r, front) && Backs(c, AttemptingAll(r, c, front), attempts[|attempts| - 1]))
  }

  /** The point of writing the secret first: over every run, a field that an attempt has filled names a secret
      that is there in every later state, as long as no attempt loses one as `StaleRewrites` says, or fills a
      field without its secret as `FilledIsBacked` says. */
  lemma {:induction false} FilledFieldsAreBacked(c: Config, r: State, attempts: seq<Attempt>)
    requires Configured(c) && DistinctSecrets(c) && r.past != [] && AllBack(c, r, attempts)
    ensures Backed(c, Now(r), AttemptingAll(r, c, attempts))
    decreases |attempts|
  {
    if attempts != [] {
      FilledFieldsAreBacked(c, r, attempts[..|attempts| - 1]);
      AttemptBacks(c, AttemptingAll(r, c, attempts[..|attempts| - 1]), Now(r), attempts[|attempts| - 1]);
    }
  }

  // ---------- step by step ----------

  lemma {:induction false} HandlingConcat(r: State, c: Config, a: seq<Field>, b: seq<Field>)
    ensures HandlingAll(r, c, a + b) == HandlingAll(HandlingAll(r, c, a), c, b)
    decreases |b|
  {
    if b == [] {
      assert a + b == a;
    } else {
      HandlingConcat(r, c, a, b[..|b| - 1]);
      assert (a + b)[..|a + b| - 1] == a + b[..|b| - 1];
    }
  }

  lemma HandlingOne(r: State, c: Config, done: seq<Field>, f: Field)
    ensures HandlingAll(r, c, done + [f]) == Handling(HandlingAll(r, c, done), c, f)
  {
    assert (done + [f])[..|done|] == done;
  }

  /** The custom resource in the hands of one reconcile. `done` lists the fields dealt with since `start`; after
      a failed write the remaining ones are passed over, as the early returns of the source do. */
  class CustomResource {
    const c: Config
    var r: State
    ghost var start: State
    ghost var done: seq<Field>

    constructor (c: Config, r: State)
      ensures this.c == c && this.r == r
    {
      this.c, this.r := c, r;
    }

    ghost predicate Follows()
      reads this
    {
      r == HandlingAll(start, c, done)
    }

    method UpdateCheCRSpec() returns (ok: bool)
      modifies this`r
      ensures r == Updating(old(r)) && ok == !r.failed
    {
      var out := NextOutcome(r);
      var isCurrent := Fresh(r);
      r := Consumed(r);
      if !isCurrent {
        r := r.(failed := true);
        return false;
      }
      if out.Stored? {
        r := r.(at := |r.past|);
      }
      if out.Stored? || out.applied {
        r := r.(past := r.past + [r.mem]);
      }
      r := r.(failed := out.Failed?);
      return out.Stored?;
    }

    method Save(f: Field, v: string) returns (ok: bool)
      modifies this`r
      ensures r == SavingField(old(r), f, v) && ok == !r.failed
    {
      r := r.(mem := r.mem[f := v]);
      ok := UpdateCheCRSpec();
    }

    method DeleteSecret(name: string) returns (ok: bool)
      modifies this`r
      ensures r == DeletingSecret(old(r), name) && ok == !r.failed
    {
      var out := NextOutcome(r);
      r := Consumed(r);
      if out.Stored? || out.applied {
        r := r.(secrets := r.secrets - {name});
      }
      r := r.(failed := out.Failed?);
      return out.Stored?;
    }

    method CreateSecret(name: string, data: string) returns (ok: bool)
      modifies this`r
      ensures r == CreatingSecret(old(r), name, data) && ok == !r.failed
    {
      var out := NextOutcome(r);
      r := Consumed(r);
      if out.Stored? || out.applied {
        r := r.(secrets := r.secrets[name := data]);
      }
      r := r.(failed := out.Failed?);
      return out.Stored?;
    }

    method SyncSecretToCluster(name: string, data: string) returns (ok: bool)
      requires !r.failed
      modifies this`r
      ensures r == SyncingSecret(old(r), name, data) && ok == !r.failed
    {
      if r.deleting {
        return true;
      }
      if name in r.secrets {
        if r.secrets[name] == data {
          return true;
        }
        ok := DeleteSecret(name);
        if !ok {
          return;
        }
      }
      ok := CreateSecret(name, data);
    }

    method GenerateSecret(f: Field) returns (ok: bool)
      requires !r.failed
      modifies this`r
      ensures var r1 := SyncingSecret(old(r), Default(c, f), DataFor(old(r), f));
              r == if r1.failed then r1 else SavingField(r1, f, Default(c, f))
      ensures ok == !r.failed
    {
      var data := DataFor(r, f);
      ok := SyncSecretToCluster(Default(c, f), data);
      if ok {
        ok := Save(f, Default(c, f));
      }
    }

    /** One field is dealt with. */
    twostate predicate Dealt(f: Field)
      reads this
    {
      start == old(start) && done == old(done) + [f] && Follows()
    }

    /** Stores a new value of one field, on the given condition. */
    method SaveIf(f: Field, condition: bool, v: string) returns (ok: bool)
      requires Follows() && !IsSecretField(f) && condition == IsDue(c, r.mem, f) && v == NewValue(c, r.mem, f)
      modifies this
      ensures Dealt(f) && ok == !r.failed
    {
      HandlingOne(start, c, done, f);
      done := done + [f];
      if r.failed {
        return false;
      }
      ok := true;
      if condition {
        ok := Save(f, v);
      }
    }

    method SaveIfEmpty(f: Field, v: string) returns (ok: bool)
      requires Follows() && FillsWhenEmpty(c, f) && v == NewValue(c, r.mem, f)
      modifies this
      ensures Dealt(f) && ok == !r.failed
    {
      ok := SaveIf(f, |Val(r.mem, f)| < 1, v);
    }

    /** Generates a secret and names it in its field, on the given condition. */
    method GenerateSecretIf(f: Field, condition: bool) returns (ok: bool)
      requires Follows() && IsSecretField(f) && condition == IsDue(c, r.mem, f)
      modifies this
      ensures Dealt(f) && ok == !r.failed
    {
      HandlingOne(start, c, done, f);
      done := done + [f];
      if r.failed {
        return false;
      }
      ok := true;
      if condition {
        ghost var before := r;
        assert NewValue(c, before.mem, f) == Default(c, f);
        ok := GenerateSecret(f);
        assert r == Handling(before, c, f);
      }
    }

    method GeneratePostgresSecret() returns (ok: bool)
      requires Follows() && c.multiUser
      modifies this
      ensures Dealt(PostgresSecret) && ok == !r.failed
    {
      var missing := false;
      if |Val(r.mem, PostgresSecret)| < 1 {
        missing := |Val(r.mem, PostgresUser)| < 1 || |Val(r.mem, PostgresPassword)| < 1;
      }
      ok := GenerateSecretIf(PostgresSecret, missing);
    }

    method GenerateIdpPostgresSecret() returns (ok: bool)
      requires Follows() && c.multiUser
      modifies this
      ensures Dealt(IdpPostgresSecret) && ok == !r.failed
    {
      var missing := false;
      if |Val(r.mem, IdpPostgresSecret)| < 1 {
        missing := |Val(r.mem, IdpPostgresPassword)| < 1;
      }
      ok := GenerateSecretIf(IdpPostgresSecret, missing);
    }

    method GenerateIdpSecret() returns (ok: bool)
      requires Follows() && c.multiUser
      modifies this
      ensures Dealt(IdpSecret) && ok == !r.failed
    {
      var missing := false;
      if |Val(r.mem, IdpSecret)| < 1 {
        missing := |Val(r.mem, IdpAdminUserName)| < 1 || |Val(r.mem, IdpPassword)| < 1;
      }
      ok := GenerateSecretIf(IdpSecret, missing);
    }

    method SaveExposureStrategy() returns (ok: bool)
      requires Follows()
      modifies this
      ensures Dealt(ServerExposureStrategy) && ok == !r.failed
    {
      var strategy := if c.devWorkspaceEnable then "single-host" else "multi-host";
      var missing := Val(r.mem, ServerExposureStrategy) == "" && Val(r.mem, IngressStrategy) == "";
      ok := SaveIf(ServerExposureStrategy, missing, strategy);
    }

    /** A field whose default does not depend on the resource. */
    method SaveDefaultIfEmpty(f: Field) returns (ok: bool)
      requires Follows() && FillsWhenEmpty(c, f) && !f.CheFlavor? && !f.IdpRealm? && !f.IdpClientId?
      modifies this
      ensures Dealt(f) && ok == !r.failed
    {
      ok := SaveIfEmpty(f, Default(c, f));
    }

    method SaveRealmIfEmpty() returns (ok: bool)
      requires Follows() && c.multiUser
      modifies this
      ensures Dealt(IdpRealm) && ok == !r.failed
    {
      ok := SaveIfEmpty(IdpRealm, FlavorOf(c, r.mem));
    }

    method SaveClientIdIfEmpty() returns (ok: bool)
      requires Follows() && c.multiUser
      modifies this
      ensures Dealt(IdpClientId) && ok == !r.failed
    {
      ok := SaveIfEmpty(IdpClientId, FlavorOf(c, r.mem) + "-public");
    }

    method ClearImage(f: Field) returns (ok: bool)
      requires Follows() && (f.PvcJobsImage? || f.PostgresImage? || f.IdpImage?)
      modifies this
      ensures Dealt(f) && ok == !r.failed
    {
      ok := SaveIf(f, IsOutdated(c, r.mem, f) || (Migrating(c, r.mem) && Val(r.mem, f) != ""), "");
    }

    method ClearPluginRegistryUrl() returns (ok: bool)
      requires Follows()
      modifies this
      ensures Dealt(PluginRegistryUrl) && ok == !r.failed
    {
      var outdated := Migrating(c, r.mem) && !c.externalPluginRegistry && IsOutdated(c, r.mem, PluginRegistryUrl);
      ok := SaveIf(PluginRegistryUrl, outdated, "");
    }

    method ClearCheImage(f: Field) returns (ok: bool)
      requires Follows() && (f.CheImage? || f.CheImageTag?)
      modifies this
      ensures Dealt(f) && ok == !r.failed
    {
      ok := SaveIf(f, Migrating(c, r.mem) && IsOutdated(c, r.mem, f), "");
    }

    method GenerateCredentials() returns (ok: bool)
      requires Follows() && c.multiUser
      modifies this
      ensures Follows() && start == old(start) && done == old(done) + CREDENTIALS
    {
      ok := GeneratePostgresSecret();
      ok := GenerateIdpPostgresSecret();
      ok := GenerateIdpSecret();
    }

    method GenerateDatabaseFields() returns (ok: bool)
      requires Follows() && c.multiUser
      modifies this
      ensures Follows() && start == old(start) && done == old(done) + DATABASE
    {
      ok := SaveDefaultIfEmpty(PostgresDb);
      ok := SaveDefaultIfEmpty(PostgresHostName);
      ok := SaveDefaultIfEmpty(PostgresPort);
      ok := SaveRealmIfEmpty();
      ok := SaveClientIdIfEmpty();
    }

    method GenerateServerFields() returns (ok: bool)
      requires Follows()
      modifies this
      ensures Follows() && start == old(start) && done == old(done) + SERVER
    {
      ok := SaveDefaultIfEmpty(CheLogLevel);
      ok := SaveDefaultIfEmpty(CheDebug);
      ok := SaveDefaultIfEmpty(PvcStrategy);
      ok := SaveDefaultIfEmpty(PvcClaimSize);
    }

    method ClearOutdatedImages() returns (ok: bool)
      requires Follows()
      modifies this
      ensures Follows() && start == old(start) && done == old(done) + OUTDATED_IMAGES
    {
      ok := ClearImage(PvcJobsImage);
      ok := ClearImage(PostgresImage);
      ok := ClearImage(IdpImage);
    }

    method ClearOutdatedFields() returns (ok: bool)
      requires Follows()
      modifies this
      ensures Follows() && start == old(start) && done == old(done) + OUTDATED
    {
      ok := ClearPluginRegistryUrl();
      ok := ClearCheImage(CheImage);
      ok := ClearCheImage(CheImageTag);
    }

    method GenerateMultiUserFields() returns (ok: bool)
      requires Follows()
      modifies this
      ensures Follows() && start == old(start) && done == old(done) + CREDENTIALS + DATABASE
    {
      ok := true;
      if c.multiUser {
        ok := GenerateCredentials();
        ok := GenerateDatabaseFields();
      } else {
        SingleUserSkips(start, c, done);
        done := done + CREDENTIALS + DATABASE;
      }
    }

    method SaveFlavorIfEmpty() returns (ok: bool)
      requires Follows()
      modifies this
      ensures Dealt(CheFlavor) && ok == !r.failed
    {
      ok := SaveIfEmpty(CheFlavor, c.flavor);
    }

    method GenerateFields() returns (ok: bool)
      requires Follows() && done == []
      modifies this
      ensures Follows() && start == old(start) && done == ORDER && ok == !r.failed
    {
      ok := SaveFlavorIfEmpty();
      ok := GenerateMultiUserFields();
      ok := GenerateServerFields();
      ok := ClearOutdatedImages();
      ok := ClearOutdatedFields();
      ok := SaveExposureStrategy();
    }

    method GenerateAndSaveFields() returns (ok: bool)
      modifies this
      ensures r == Generating(old(r), c) && ok == !r.failed
    {
      start, done := r, [];
      ok := GenerateFields();
    }
  }

  lemma {:induction false} NotDueSkips(r: State, c: Config, fields: seq<Field>)
    requires forall f | f in fields :: !IsDue(c, r.mem, f)
    ensures HandlingAll(r, c, fields) == r
    decreases |fields|
  {
    if fields != [] {
      var last := fields[|fields| - 1];
      assert last in fields;
      NotDueSkips(r, c, fields[..|fields| - 1]);
    }
  }

  /** Without multi-user support the credentials and database fields are not touched. */
  lemma SingleUserSkips(r: State, c: Config, done: seq<Field>)
    requires !c.multiUser
    ensures HandlingAll(r, c, done + CREDENTIALS + DATABASE) == HandlingAll(r, c, done)
  {
    HandlingConcat(r, c, done, CREDENTIALS);
    NotDueSkips(HandlingAll(r, c, done), c, CREDENTIALS);
    HandlingConcat(r, c, done + CREDENTIALS, DATABASE);
    NotDueSkips(HandlingAll(r, c, done + CREDENTIALS), c, DATABASE);
  }
}
