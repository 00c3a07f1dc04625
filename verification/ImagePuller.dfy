/**
 Installing and removing the image puller. Each call of the reconcile changes one thing and asks to be called
 again, while the puller's own operator fills in names that were left empty; the question is whether the two
 ever come to rest.
 */
module ImagePuller {
  import opened Cluster
  import Finalizers

  const FINALIZER := "kubernetesimagepullers.finalizers.che.eclipse.org"
  const GROUP := "kubernetes-imagepuller-operator"
  const DEFAULT_DEPLOYMENT := "kubernetes-image-puller"
  const DEFAULT_CONFIG_MAP := "k8s-image-puller"

  datatype PullerSpec = PullerSpec(configMapName: string, deploymentName: string, others: Fields)

  const EMPTY_SPEC := PullerSpec("", "", map[])

  /** What the package catalog offers; the subscription is derived from it. */
  datatype Manifest = Manifest(catalogSource: string, catalogSourceNamespace: string, defaultChannel: string)

  datatype Subscription = Subscription(
    catalogSource: string, catalogSourceNamespace: string, channel: string, approval: string, package: string)

  function ExpectedSubscription(m: Manifest): Subscription {
    Subscription(m.catalogSource, m.catalogSourceNamespace, m.defaultChannel, "Automatic", GROUP)
  }

  /** The relevant part of the cluster and of the custom resource (`enable`, `spec`, `finalizers`). An update
      of the subscription carries no resourceVersion; `blindUpdates` says whether the server takes it. */
  datatype State = State(
    enable: bool,
    spec: PullerSpec,
    finalizers: seq<string>,
    packagesApi: bool,
    operatorsApi: bool,
    pullerApi: bool,
    manifest: Option<Manifest>,
    groups: set<string>,
    subscription: Option<Subscription>,
    csv: bool,
    puller: Option<PullerSpec>,
    blindUpdates: bool)

  datatype Result = Requeue | Finished | Error

  /** The state after a call, and what the call asks for. */
  datatype Turn = Turn(s: State, result: Result)

  function WithDefaults(spec: PullerSpec): PullerSpec {
    PullerSpec(
      if spec.configMapName == "" then DEFAULT_CONFIG_MAP else spec.configMapName,
      if spec.deploymentName == "" then DEFAULT_DEPLOYMENT else spec.deploymentName,
      spec.others)
  }

  // ---------- one call ----------

  function Installing(s: State): Turn {
    if s.manifest.None? then Turn(s, Requeue)
    else if s.groups == {} then Turn(s.(groups := {GROUP}), Requeue)
    else if s.subscription.None? then Turn(s.(subscription := Some(ExpectedSubscription(s.manifest.value))), Requeue)
    else if s.subscription.value != ExpectedSubscription(s.manifest.value) then
      if s.blindUpdates then Turn(s.(subscription := Some(ExpectedSubscription(s.manifest.value))), Requeue)
      else Turn(s, Error)
    else if FINALIZER !in s.finalizers then Turn(s.(finalizers := s.finalizers + [FINALIZER]), Requeue)
    else if !s.pullerApi then Turn(s, Requeue)
    else if s.puller.None? then
      if s.spec == EMPTY_SPEC then Turn(s.(spec := WithDefaults(s.spec)), Requeue)
      else Turn(s.(puller := Some(s.spec)), Finished)
    else if s.puller.value != s.spec then Turn(s.(puller := Some(s.spec)), Requeue)
    else Turn(s, Finished)
  }

  function Uninstalled(s: State): State {
    s.(puller := if s.pullerApi then None else s.puller,
       csv := if s.operatorsApi then false else s.csv,
       subscription := if s.operatorsApi then None else s.subscription,
       groups := if s.operatorsApi then s.groups - {GROUP} else s.groups,
       spec := EMPTY_SPEC)
  }

  function Reconciling(s: State): Turn {
    if s.enable then
      if !s.packagesApi || !s.operatorsApi then Turn(s, Requeue) else Installing(s)
    else if s.packagesApi && s.operatorsApi then
      var t := Uninstalled(s);
      if s.enable || s.spec != EMPTY_SPEC then Turn(t, Requeue)
      else if FINALIZER in s.finalizers then
        Turn(t.(finalizers := Finalizers.Without(s.finalizers, FINALIZER)), Requeue)
      else Turn(t, Finished)
    else Turn(s, Finished)
  }

  // ---------- step by step ----------

  class ImagePuller {
    var s: State

    constructor (s: State)
      ensures this.s == s
    {
      this.s := s;
    }

    method CreateOperatorGroupIfNotFound() returns (created: bool)
      modifies this
      ensures created == (old(s).groups == {})
      ensures s == if created then old(s).(groups := {GROUP}) else old(s)
    {
      if s.groups == {} {
        s := s.(groups := {GROUP});
        return true;
      }
      return false;
    }

    method CreateImagePullerSubscription(m: Manifest) returns (created: bool)
      modifies this
      ensures created == old(s).subscription.None?
      ensures s == if created then old(s).(subscription := Some(ExpectedSubscription(m))) else old(s)
    {
      if s.subscription.None? {
        s := s.(subscription := Some(ExpectedSubscription(m)));
        return true;
      }
      return false;
    }

    method UpdateImagePullerSpecIfEmpty()
      modifies this
      ensures s == old(s).(spec := s.spec) && s.spec.others == old(s).spec.others
      ensures s.spec.configMapName == if old(s).spec.configMapName == "" then "k8s-image-puller"
                                      else old(s).spec.configMapName
      ensures s.spec.deploymentName == if old(s).spec.deploymentName == "" then "kubernetes-image-puller"
                                       else old(s).spec.deploymentName
    {
      if s.spec.deploymentName == "" {
        s := s.(spec := s.spec.(deploymentName := DEFAULT_DEPLOYMENT));
      }
      if s.spec.configMapName == "" {
        s := s.(spec := s.spec.(configMapName := DEFAULT_CONFIG_MAP));
      }
    }

    method DeleteOperator()
      modifies this
      ensures s == old(s).(csv := false, subscription := None, groups := old(s).groups - {GROUP})
    {
      if s.csv {
        s := s.(csv := false);
      }
      if s.subscription.Some? {
        s := s.(subscription := None);
      }
      if GROUP in s.groups {
        s := s.(groups := s.groups - {GROUP});
      }
      assert GROUP !in old(s).groups ==> old(s).groups - {GROUP} == old(s).groups;
    }

    method UninstallImagePullerOperator() returns (updated: bool)
      modifies this
      ensures updated == (old(s).enable || old(s).spec != EMPTY_SPEC)
      ensures s == Uninstalled(old(s))
    {
      updated := false;
      if s.pullerApi {
        s := s.(puller := None);
      }
      if s.operatorsApi {
        DeleteOperator();
      }
      if s.enable || s.spec != EMPTY_SPEC {
        s := s.(spec := EMPTY_SPEC);
        updated := true;
      }
    }

    method ReconcileImagePuller() returns (result: Result)
      modifies this
      ensures Turn(s, result) == Reconciling(old(s))
    {
      if s.enable && (!s.packagesApi || !s.operatorsApi) {
        return Requeue;
      }
      if s.enable {
        if s.manifest.None? {
          return Requeue;
        }
        var packageManifest := s.manifest.value;
        var createdOperatorGroup := CreateOperatorGroupIfNotFound();
        if createdOperatorGroup {
          return Requeue;
        }
        var createdOperatorSubscription := CreateImagePullerSubscription(packageManifest);
        if createdOperatorSubscription {
          return Requeue;
        }
        var subscriptionsAreEqual := s.subscription.value == ExpectedSubscription(packageManifest);
        if !subscriptionsAreEqual {
          if !s.blindUpdates {
            return Error;
          }
          s := s.(subscription := Some(ExpectedSubscription(packageManifest)));
          return Requeue;
        }
        if FINALIZER !in s.finalizers {
          s := s.(finalizers := s.finalizers + [FINALIZER]);
          return Requeue;
        }
        if s.pullerApi {
          if s.puller.None? {
            if s.spec == EMPTY_SPEC {
              UpdateImagePullerSpecIfEmpty();
              return Requeue;
            }
            s := s.(puller := Some(s.spec));
            return Finished;
          }
          if s.puller.value != s.spec {
            s := s.(puller := Some(s.spec));
            return Requeue;
          }
        } else {
          return Requeue;
        }
      } else {
        if s.operatorsApi && s.packagesApi {
          var removed := UninstallImagePullerOperator();
          if removed {
            return Requeue;
          }
          if FINALIZER in s.finalizers {
            s := s.(finalizers := Finalizers.Without(s.finalizers, FINALIZER));
            return Requeue;
          }
        }
      }
      return Finished;
    }
  }

  // ---------- beside the puller's own operator ----------

  /** A call of the reconcile, the puller operator filling empty names, or the puller API becoming known. */
  datatype Event = Call | Fill | ApiAppears

  function Next(s: State, e: Event): State {
    match e
    case Call => Reconciling(s).s
    case Fill => if s.puller.Some? then s.(puller := Some(WithDefaults(s.puller.value))) else s
    case ApiAppears => s.(pullerApi := true)
  }

  function Run(s: State, events: seq<Event>): State {
    if events == [] then s else Next(Run(s, events[..|events| - 1]), events[|events| - 1])
  }

  function WriteCount(s: State, events: seq<Event>): nat {
    if events == [] then 0
    else
      var before := Run(s, events[..|events| - 1]);
      WriteCount(s, events[..|events| - 1])
      + (if events[|events| - 1].Call? && Reconciling(before).s != before then 1 else 0)
  }

  /** The subscription follows the catalog and is upgraded automatically. */
  predicate Follows(sub: Subscription, m: Manifest) {
    && sub.catalogSource == m.catalogSource
    && sub.catalogSourceNamespace == m.catalogSourceNamespace
    && sub.channel == m.defaultChannel
    && sub.approval == "Automatic"
    && sub.package == "kubernetes-imagepuller-operator"
  }

  /** An operator group, the right subscription and the finalizer. */
  predicate OperatorInPlace(s: State) {
    && s.manifest.Some?
    && s.groups != {}
    && s.subscription.Some? && Follows(s.subscription.value, s.manifest.value)
    && FINALIZER in s.finalizers
  }

  /** Everything the enabled puller needs is in place, and neither side wants to change anything. */
  predicate Installed(s: State) {
    && OperatorInPlace(s)
    && s.puller == Some(s.spec)
    && s.spec.configMapName != "" && s.spec.deploymentName != ""
  }

  /** What a call answers, exactly. It is finished only once the puller is as the custom resource says, be it that
      it has just been created; an error only where a subscription cannot be corrected; and otherwise, so after
      any other write, asks to be called again. */
  lemma AnswerMeans(s: State)
    requires s.enable
    ensures var t := Reconciling(s);
            && (t.result == Finished <==>
                  && s.packagesApi && s.operatorsApi && s.pullerApi
                  && OperatorInPlace(s)
                  && (if s.puller.None? then s.spec != EMPTY_SPEC else s.puller.value == s.spec))
            && (t.result == Finished ==> t.s.puller == Some(s.spec) && t.s == s.(puller := Some(s.spec)))
            && (t.result == Error <==>
                  && s.packagesApi && s.operatorsApi && s.manifest.Some? && s.groups != {} && !s.blindUpdates
                  && s.subscription.Some? && !Follows(s.subscription.value, s.manifest.value))
            && (t.result == Error ==> t.s == s)
  {
  }

  /** And disabled: finished only when nothing is left that the known APIs reach. */
  lemma RemovalAnswerMeans(s: State)
    requires !s.enable
    ensures var t := Reconciling(s);
            && (t.result == Finished <==>
                  s.packagesApi && s.operatorsApi ==> s.spec == EMPTY_SPEC && FINALIZER !in s.finalizers)
            && t.result != Error
            && (t.result == Finished && s.packagesApi && s.operatorsApi ==>
                  && (s.pullerApi ==> t.s.puller.None?)
                  && !t.s.csv && t.s.subscription.None? && GROUP !in t.s.groups)
  {
  }

  lemma NamesAfter(s: State, e: Event)
    requires s.enable
    ensures var t := Next(s, e);
            && t.enable
            && (t.spec == s.spec
                || (s.spec == EMPTY_SPEC
                    && t.spec == PullerSpec("k8s-image-puller", "kubernetes-image-puller", s.spec.others)))
  {
  }

  /** Over every run the names in the custom resource are left as they are, unless none was given. */
  lemma {:induction false} NamesStay(s: State, events: seq<Event>)
    requires s.enable
    ensures var t := Run(s, events);
            && t.enable
            && (t.spec == s.spec
                || (s.spec == EMPTY_SPEC
                    && t.spec == PullerSpec("k8s-image-puller", "kubernetes-image-puller", s.spec.others)))
  {
    if events != [] {
      NamesStay(s, events[..|events| - 1]);
      NamesAfter(Run(s, events[..|events| - 1]), events[|events| - 1]);
    }
  }

  predicate Enabled(s: State) {
    s.enable && s.packagesApi && s.operatorsApi && s.manifest.Some?
  }

  /** A subscription that differs can be corrected. */
  predicate Correctable(s: State)
    requires s.manifest.Some?
  {
    s.subscription.None? || s.subscription.value == ExpectedSubscription(s.manifest.value) || s.blindUpdates
  }

  /** The names are given, or everything is left to the defaults before a puller exists; and a subscription
      that differs can be corrected. */
  predicate CanInstall(s: State)
    requires s.manifest.Some?
  {
    (WithDefaults(s.spec) == s.spec || (s.spec == EMPTY_SPEC && s.puller.None?)) && Correctable(s)
  }

  /** How many writes are still due: the custom resource before the puller, the puller last. */
  function Due(s: State): nat
    requires s.manifest.Some?
  {
    (if s.groups == {} then 1 else 0)
    + (if s.subscription == Some(ExpectedSubscription(s.manifest.value)) then 0 else 1)
    + (if FINALIZER in s.finalizers then 0 else 1)
    + (if s.spec == EMPTY_SPEC then 1 else 0)
    + (if s.puller == Some(s.spec) then 0 else 1)
  }

  /** The operator group, the subscription and the finalizer are in place. */
  predicate OperatorReady(s: State)
    requires s.manifest.Some?
  {
    s.groups != {} && s.subscription == Some(ExpectedSubscription(s.manifest.value)) && FINALIZER in s.finalizers
  }

  predicate Progress(s: State, t: State) {
    && Enabled(s) && Enabled(t) && CanInstall(t)
    && (t != s ==> Due(t) == Due(s) - 1)
    && (s.pullerApi && Due(s) > 0 ==> t != s)
    && t.pullerApi == s.pullerApi
  }

  lemma OperatorIsProgress(s: State)
    requires Enabled(s) && CanInstall(s) && !OperatorReady(s)
    ensures Progress(s, Reconciling(s).s)
  {
  }

  lemma PullerIsProgress(s: State)
    requires Enabled(s) && CanInstall(s) && OperatorReady(s)
    ensures Progress(s, Reconciling(s).s)
  {
  }

  lemma CallIsProgress(s: State)
    requires Enabled(s) && CanInstall(s)
    ensures Progress(s, Reconciling(s).s)
  {
    if OperatorReady(s) {
      PullerIsProgress(s);
    } else {
      OperatorIsProgress(s);
    }
  }

  /** Every write brings the end one step closer and nothing takes it further away. */
  lemma {:induction false} StepIsProgress(s: State, e: Event)
    requires Enabled(s) && CanInstall(s)
    ensures var t := Next(s, e);
            && Enabled(t) && CanInstall(t)
            && Due(t) <= Due(s)
            && (e.Call? && t != s ==> Due(t) == Due(s) - 1)
            && (e.Call? && s.pullerApi && Due(s) > 0 ==> t != s)
            && (s.pullerApi ==> t.pullerApi)
  {
    if e.Call? {
      CallIsProgress(s);
    }
  }

  lemma NoDebtIsInstalled(s: State)
    requires Enabled(s) && CanInstall(s)
    ensures Due(s) == 0 <==> Installed(s)
  {
  }

  /** Over every run in which the two operators take turns in any way, the number of writes is bounded by what
      is due at the start. */
  lemma {:induction false} InstallWritesAreBounded(s: State, events: seq<Event>)
    requires Enabled(s) && CanInstall(s)
    ensures var t := Run(s, events); Enabled(t) && CanInstall(t) && Due(t) + WriteCount(s, events) <= Due(s)
  {
    if events != [] {
      InstallWritesAreBounded(s, events[..|events| - 1]);
      StepIsProgress(Run(s, events[..|events| - 1]), events[|events| - 1]);
    }
  }

  function Calls(events: seq<Event>): nat {
    if events == [] then 0 else Calls(events[..|events| - 1]) + (if events[|events| - 1].Call? then 1 else 0)
  }

  /** And once the puller API is known, as many calls as writes are due finish the installation, whatever
      happens in between; after that neither side changes anything. */
  lemma {:induction false} InstallCompletes(s: State, events: seq<Event>)
    requires Enabled(s) && CanInstall(s) && s.pullerApi
    ensures var t := Run(s, events);
            && Enabled(t) && CanInstall(t) && t.pullerApi
            && (Installed(t) || Due(t) + Calls(events) <= Due(s))
            && (Calls(events) >= Due(s) ==> Installed(t))
  {
    if events != [] {
      var before := Run(s, events[..|events| - 1]);
      InstallCompletes(s, events[..|events| - 1]);
      NoDebtIsInstalled(before);
      StepIsProgress(before, events[|events| - 1]);
    }
    NoDebtIsInstalled(Run(s, events));
  }

  /** The reconcile is finished without having changed anything, and the puller operator has nothing to add. */
  predicate AtRest(s: State) {
    s.pullerApi && Reconciling(s) == Turn(s, Finished) && Next(s, Fill) == s
  }

  lemma AtRestIsInstalled(s: State)
    requires Enabled(s) && s.pullerApi
    ensures AtRest(s) <==> Installed(s)
  {
  }

  lemma StuckStays(s: State, e: Event)
    requires Enabled(s) && !CanInstall(s)
    ensures Enabled(Next(s, e)) && !CanInstall(Next(s, e))
  {
  }

  lemma {:induction false} NeverInstalls(s: State, events: seq<Event>)
    requires Enabled(s) && !CanInstall(s)
    ensures var t := Run(s, events); Enabled(t) && !CanInstall(t) && !AtRest(t)
  {
    if events != [] {
      NeverInstalls(s, events[..|events| - 1]);
      StuckStays(Run(s, events[..|events| - 1]), events[|events| - 1]);
    }
    if Run(s, events).pullerApi {
      AtRestIsInstalled(Run(s, events));
    }
  }

  // ---------- going on for ever ----------

  /** The operator is in place, and the puller holds what the custom resource says or what its own operator makes
      of that, which is not the same. */
  predicate AtOdds(s: State) {
    && Enabled(s) && s.pullerApi && OperatorReady(s)
    && WithDefaults(s.spec) != s.spec
    && s.puller.Some? && WithDefaults(s.puller.value) == WithDefaults(s.spec)
  }

  function TakeTurns(s: State): State {
    Next(Next(s, Fill), Call)
  }

  predicate TurnWrites(s: State) {
    TakeTurns(s) != Next(s, Fill)
  }

  lemma OneTurn(s: State)
    requires AtOdds(s)
    ensures TurnWrites(s) && AtOdds(TakeTurns(s))
  {
    var t := Next(s, Fill);
    assert t.puller == Some(WithDefaults(s.spec));
    assert Reconciling(t) == Turn(t.(puller := Some(s.spec)), Requeue);
  }

  lemma RunOfOne(s: State, e: Event)
    ensures Run(s, [e]) == Next(s, e)
    ensures WriteCount(s, [e]) == if e.Call? && Reconciling(s).s != s then 1 else 0
  {
    assert [e][..0] == [];
    assert Run(s, []) == s && WriteCount(s, []) == 0;
  }

  lemma TurnIsRun(s: State)
    ensures Run(s, [Fill, Call]) == TakeTurns(s) && WriteCount(s, [Fill, Call]) == if TurnWrites(s) then 1 else 0
  {
    assert [Fill, Call][..1] == [Fill];
    RunOfOne(s, Fill);
  }

  predicate WritesOften(s: State, events: seq<Event>, n: nat) {
    WriteCount(s, events) >= n
  }

  /** A turn of the two leaves them at odds, at the price of one write. */
  lemma OddTurn(s: State, n: nat) returns (t: State)
    requires AtOdds(s)
    ensures AtOdds(t)
    ensures forall rest :: WritesOften(t, rest, n) ==> WritesOften(s, [Fill, Call] + rest, n + 1)
  {
    t := TakeTurns(s);
    OneTurn(s);
    TurnIsRun(s);
    forall rest | WritesOften(t, rest, n) ensures WritesOften(s, [Fill, Call] + rest, n + 1) {
      RunConcat(s, [Fill, Call], rest);
    }
  }

  /** Then there are runs with as many writes as one likes. */
  lemma {:induction false} AtOddsForEver(s: State, n: nat)
    requires AtOdds(s)
    ensures exists events :: WritesOften(s, events, n)
    decreases n
  {
    if n == 0 {
      assert WritesOften(s, [], n);
    } else {
      var t := OddTurn(s, n - 1);
      AtOddsForEver(t, n - 1);
      var rest: seq<Event> :| WritesOften(t, rest, n - 1);
      assert WritesOften(s, [Fill, Call] + rest, n);
    }
  }

  /** What is due before the puller exists. */
  function DueFirst(s: State): nat
    requires s.manifest.Some?
  {
    (if s.groups == {} then 1 else 0)
    + (if s.subscription == Some(ExpectedSubscription(s.manifest.value)) then 0 else 1)
    + (if FINALIZER in s.finalizers then 0 else 1)
    + (if s.puller == Some(s.spec) then 0 else 1)
  }

  lemma CallsLeadToOdds(s: State)
    requires Enabled(s) && s.pullerApi && Correctable(s) && !CanInstall(s)
    ensures DueFirst(s) == 0 ==> AtOdds(s)
    ensures DueFirst(s) > 0 ==>
              var t := Next(s, Call);
              Enabled(t) && t.pullerApi && Correctable(t) && !CanInstall(t) && DueFirst(t) < DueFirst(s)
  {
  }

  lemma {:induction false} OddsAreReached(s: State)
    requires Enabled(s) && s.pullerApi && Correctable(s) && !CanInstall(s)
    ensures exists events :: AtOdds(Run(s, events))
    decreases DueFirst(s)
  {
    CallsLeadToOdds(s);
    if DueFirst(s) == 0 {
      assert Run(s, []) == s;
    } else {
      OddsAreReached(Next(s, Call));
      var events: seq<Event> :| AtOdds(Run(Next(s, Call), events));
      RunAppends(s, Call, events);
    }
  }

  lemma {:induction false} RunConcat(s: State, a: seq<Event>, b: seq<Event>)
    ensures Run(s, a + b) == Run(Run(s, a), b) && WriteCount(s, a + b) == WriteCount(s, a) + WriteCount(Run(s, a), b)
    decreases |b|
  {
    if b == [] {
      assert a + b == a;
    } else {
      RunConcat(s, a, b[..|b| - 1]);
      assert (a + b)[..|a + b| - 1] == a + b[..|b| - 1];
    }
  }

  lemma {:induction false} KnownApiWritesOn(s: State, n: nat) returns (events: seq<Event>)
    requires Enabled(s) && s.pullerApi && Correctable(s) && !CanInstall(s)
    ensures WritesOften(s, events, n)
  {
    OddsAreReached(s);
    var first: seq<Event> :| AtOdds(Run(s, first));
    AtOddsForEver(Run(s, first), n);
    var rest: seq<Event> :| WritesOften(Run(s, first), rest, n);
    RunConcat(s, first, rest);
    events := first + rest;
  }

  /** Ping-pong: if the names are not all given, and a differing subscription can be corrected, some run makes the
      reconcile write as often as one likes. */
  lemma {:induction false} WritesWithoutEnd(s: State, n: nat)
    requires Enabled(s) && Correctable(s) && !CanInstall(s)
    ensures exists events :: WritesOften(s, events, n)
  {
    var known := s.(pullerApi := true);
    var events := KnownApiWritesOn(known, n);
    RunOfOne(s, ApiAppears);
    RunConcat(s, [ApiAppears], events);
    assert WritesOften(s, [ApiAppears] + events, n);
  }

  /** A subscription that cannot be corrected: once there is an operator group, every call is an error and writes
      nothing, over every run. */
  lemma {:induction false} UncorrectableIsError(s: State, events: seq<Event>)
    requires Enabled(s) && !Correctable(s) && s.groups != {}
    ensures var t := Run(s, events);
            && Enabled(t) && !Correctable(t) && t.groups != {}
            && Reconciling(t) == Turn(t, Error)
            && WriteCount(s, events) == 0
    decreases |events|
  {
    if events != [] {
      UncorrectableIsError(s, events[..|events| - 1]);
    }
  }

  // ---------- coming to rest ----------

  lemma {:induction false} CallsCount(n: nat)
    ensures Calls([ApiAppears] + seq(n, _ => Call)) == n
  {
    var events := [ApiAppears] + seq(n, _ => Call);
    if n > 0 {
      CallsCount(n - 1);
      assert events[..|events| - 1] == [ApiAppears] + seq(n - 1, _ => Call);
    } else {
      assert events == [ApiAppears] && [ApiAppears][..0] == [];
    }
  }

  lemma {:induction false} RunAppends(s: State, first: Event, rest: seq<Event>)
    ensures Run(s, [first] + rest) == Run(Next(s, first), rest)
  {
    var events := [first] + rest;
    if rest == [] {
      assert events == [first] && [first][..0] == [];
    } else {
      RunAppends(s, first, rest[..|rest| - 1]);
      assert events[..|events| - 1] == [first] + rest[..|rest| - 1];
    }
  }

  /** Exactly when the two operators can come to rest: some run ends at rest if and only if the names in the
      custom resource are given (or all is left to the defaults and there is no puller yet) and a subscription
      that differs can be corrected. Otherwise they go on for ever. */
  lemma ComesToRest(s: State)
    requires Enabled(s)
    ensures (exists events :: AtRest(Run(s, events))) <==> CanInstall(s)
  {
    if CanInstall(s) {
      var calls := seq(Due(s), _ => Call);
      var t := Next(s, ApiAppears);
      var events := [ApiAppears] + calls;
      StepIsProgress(s, ApiAppears);
      RunAppends(s, ApiAppears, calls);
      CallsCount(Due(s));
      CallsOfRest(ApiAppears, calls);
      InstallCompletes(t, calls);
      AtRestIsInstalled(Run(s, events));
    } else {
      forall events: seq<Event> ensures !AtRest(Run(s, events)) {
        NeverInstalls(s, events);
      }
    }
  }

  lemma {:induction false} CallsOfRest(first: Event, rest: seq<Event>)
    ensures Calls([first] + rest) == Calls(rest) + if first.Call? then 1 else 0
  {
    var events := [first] + rest;
    if rest == [] {
      assert events == [first] && [first][..0] == [];
    } else {
      CallsOfRest(first, rest[..|rest| - 1]);
      assert events[..|events| - 1] == [first] + rest[..|rest| - 1];
    }
  }

  // ---------- removal ----------

  /** Nothing of the puller is left. */
  predicate Removed(s: State) {
    && s.puller.None?
    && !s.csv
    && s.subscription.None?
    && GROUP !in s.groups
    && s.spec == EMPTY_SPEC
    && FINALIZER !in s.finalizers
  }

  /** A puller can only exist once its API does, and only while it exists can it be filled in. */
  predicate Disabled(s: State) {
    !s.enable && s.packagesApi && s.operatorsApi && (s.puller.Some? ==> s.pullerApi)
  }

  lemma RemovalStep(s: State)
    requires Disabled(s)
    ensures var t := Reconciling(s).s;
            && Disabled(t)
            && t.puller.None? && !t.csv && t.subscription.None? && t.spec == EMPTY_SPEC
            && t.groups == s.groups - {GROUP}
            && (s.spec != EMPTY_SPEC ==> t.finalizers == s.finalizers)
            && (s.spec == EMPTY_SPEC ==> t.finalizers == Finalizers.Without(s.finalizers, FINALIZER))
  {
    Finalizers.WithoutIsGone(s.finalizers, FINALIZER);
  }

  lemma {:induction false} WithoutTwice(s: seq<string>, f: string)
    ensures Finalizers.Without(Finalizers.Without(s, f), f) == Finalizers.Without(s, f)
  {
    Finalizers.WithoutIsGone(s, f);
    Finalizers.WithoutIsGone(Finalizers.Without(s, f), f);
  }

  lemma RemovedIsFinal(s: State)
    requires Disabled(s) && Removed(s)
    ensures Reconciling(s) == Turn(s, Finished)
  {
    assert s.groups - {GROUP} == s.groups;
  }

  /** When disabled, two calls remove everything and no call after that writes anything, whatever the puller
      operator does in between; other finalizers, and operator groups of other names, stay. */
  lemma RemovalCompletes(s: State, fillFirst: bool)
    requires Disabled(s)
    ensures var s1 := Reconciling(if fillFirst then Next(s, Fill) else s).s;
            var s2 := Reconciling(s1).s;
            && Next(s1, Fill) == s1
            && Removed(s2)
            && Reconciling(s2) == Turn(s2, Finished)
            && s2.groups == s.groups - {GROUP}
            && s2.finalizers == Finalizers.Without(s.finalizers, FINALIZER)
  {
    var s0 := if fillFirst then Next(s, Fill) else s;
    var s1 := Reconciling(s0).s;
    RemovalStep(s0);
    RemovalStep(s1);
    WithoutTwice(s.finalizers, FINALIZER);
    Finalizers.WithoutIsGone(s.finalizers, FINALIZER);
    RemovedIsFinal(Reconciling(s1).s);
    assert s.groups - {GROUP} - {GROUP} == s.groups - {GROUP};
  }
}
