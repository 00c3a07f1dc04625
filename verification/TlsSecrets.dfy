/**
 The TLS secrets of a Kubernetes installation: a server certificate and, if it is self-signed, its CA
 certificate, made together by a job. Each call of the handler moves one step and mostly asks to be called
 again; the caller carries on with the installation when it does not.
 */
module TlsSecrets {
  import opened Cluster

  /** A secret: whether its required fields are filled, whether it has an owner, and which run of the job (or
      which outside hand) made it. */
  datatype Secret = Secret(valid: bool, owned: bool, origin: nat)

  /** A job: its counts of succeeded and failed pods as far as they matter, whether its spec is the wanted one,
      and whether it may still succeed. */
  datatype CertJob = CertJob(succeeded: bool, failed: bool, current: bool, alive: bool)

  datatype State = State(tls: Option<Secret>, ca: Option<Secret>, job: Option<CertJob>, origins: nat)

  /** Whether the service account, the role and its binding for the job are already in place. */
  datatype Ready = Ready(serviceAccount: bool, role: bool, roleBinding: bool)

  const ALL_READY := Ready(true, true, true)

  /** `goesOn`: the result asks for no requeue, so the caller goes on with the installation. */
  datatype Turn = Turn(s: State, goesOn: bool)

  // ---------- one call ----------

  function SyncedJob(job: Option<CertJob>): CertJob {
    if job.Some? && job.value.current then job.value else CertJob(false, false, true, true)
  }

  function Owned(secret: Secret): Secret {
    secret.(owned := true)
  }

  function WithoutTls(s: State, r: Ready): Turn {
    var s1 := s.(ca := None);
    if !r.serviceAccount then Turn(s1, false)
    else if !r.role || !r.roleBinding then Turn(s1, true)
    else
      var job := SyncedJob(s1.job);
      if !job.succeeded then Turn(s1.(job := Some(job)), false) else Turn(s1.(job := None), false)
  }

  function WithTls(s: State, tls: Secret): Turn {
    if s.job.Some? then
      if s.job.value.succeeded then Turn(s.(job := None), false)
      else if s.job.value.failed then Turn(s.(job := None), true)
      else Turn(s, false)
    else if !tls.valid then Turn(s.(tls := None), false)
    else if s.ca.Some? && !s.ca.value.valid then Turn(s.(tls := None, ca := None), false)
    else Turn(s.(tls := Some(Owned(tls)), ca := if s.ca.Some? then Some(Owned(s.ca.value)) else None), true)
  }

  function Handling(s: State, r: Ready): Turn {
    if s.tls.None? then WithoutTls(s, r) else WithTls(s, s.tls.value)
  }

  // ---------- step by step ----------

  class TlsHandler {
    var s: State

    constructor (s: State)
      ensures this.s == s
    {
      this.s := s;
    }

    method K8sHandleCheTLSSecrets(ready: Ready) returns (goesOn: bool)
      modifies this
      ensures Turn(s, goesOn) == Handling(old(s), ready)
    {
      var cheTLSSecret := s.tls;
      if cheTLSSecret.None? {
        if s.ca.Some? {
          s := s.(ca := None);
        }
        if !ready.serviceAccount {
          return false;
        }
        if !ready.role {
          return true;
        }
        if !ready.roleBinding {
          return true;
        }
        if s.job.None? || !s.job.value.current {
          s := s.(job := Some(CertJob(false, false, true, true)));
        }
        if !s.job.value.succeeded {
          return false;
        }
      }
      if s.job.Some? {
        if s.job.value.succeeded {
          s := s.(job := None);
        } else if s.job.value.failed {
          s := s.(job := None);
          return true;
        }
        return false;
      }
      if !cheTLSSecret.value.valid {
        s := s.(tls := None);
        return false;
      }
      if !s.tls.value.owned {
        s := s.(tls := Some(s.tls.value.(owned := true)));
      }
      if s.ca.Some? {
        if !s.ca.value.valid {
          s := s.(ca := None);
          s := s.(tls := None);
          return false;
        }
        if !s.ca.value.owned {
          s := s.(ca := Some(s.ca.value.(owned := true)));
        }
      }
      return true;
    }
  }

  // ---------- what holds when the installation goes on ----------

  /** A valid, owned server certificate, no job, and a CA certificate that is absent or valid and owned. */
  predicate Good(s: State) {
    && s.tls.Some? && s.tls.value.valid && s.tls.value.owned
    && s.job.None?
    && (s.ca.Some? ==> s.ca.value.valid && s.ca.value.owned)
  }

  /** The two early exits that ask for no requeue. */
  predicate ExitsEarly(s: State, r: Ready) {
    || (s.tls.None? && r.serviceAccount && !(r.role && r.roleBinding))
    || (s.tls.Some? && s.job.Some? && !s.job.value.succeeded && s.job.value.failed)
  }

  /** Exactly when the installation goes on without good secrets: after an early exit, unless the job was the
      only thing wrong with them (the second exit removes a failed one). After the first exit there is no
      certificate at all. */
  lemma GoesOnMeansGood(s: State, r: Ready)
    ensures var t := Handling(s, r);
            && (t.goesOn && !Good(t.s) <==> ExitsEarly(s, r) && !Good(s.(job := None)))
            && (ExitsEarly(s, r) ==> t.goesOn)
            && (ExitsEarly(s, r) && s.tls.None? ==> t.s.tls.None?)
            && (Good(s) ==> t == Turn(s, true))
  {
  }

  /** The same secret, whoever owns it. */
  predicate SameSecret(a: Option<Secret>, b: Option<Secret>) {
    a.Some? && b.Some? && a.value.valid == b.value.valid && a.value.origin == b.value.origin
  }

  /** What a call does to each secret, exactly: it makes none; a certificate goes if and only if no job is there and
      it is blank or its CA is; a CA goes if and only if there is no certificate or, beside a good one, it is
      blank. So a certificate never stays when the CA it came with goes. */
  lemma SecretsAfter(s: State, r: Ready)
    ensures var t := Handling(s, r).s;
            && (t.tls.Some? <==>
                  s.tls.Some? && (s.job.Some? || (s.tls.value.valid && (s.ca.Some? ==> s.ca.value.valid))))
            && (t.ca.Some? <==> s.ca.Some? && s.tls.Some? && (s.job.Some? || !s.tls.value.valid || s.ca.value.valid))
            && (t.tls.Some? ==> SameSecret(t.tls, s.tls))
            && (t.ca.Some? ==> SameSecret(t.ca, s.ca))
            && (s.ca.Some? && t.tls.Some? ==> t.ca.Some?)
  {
  }

  /** What a call does to the job, exactly: without a certificate, and with everything ready, it sees to it that the
      wanted job is there, unless that has just succeeded; beside a certificate it only removes a finished one. */
  lemma JobAfter(s: State, r: Ready)
    ensures var t := Handling(s, r).s;
            if s.tls.Some? then
              t.job == if s.job.Some? && (s.job.value.succeeded || s.job.value.failed) then None else s.job
            else if !(r.serviceAccount && r.role && r.roleBinding) then t.job == s.job
            else if s.job.Some? && s.job.value.current then
              t.job == if s.job.value.succeeded then None else s.job
            else t.job == Some(CertJob(false, false, true, true))
  {
  }

  /** A call that finds no job goes on exactly if an early exit is taken or it leaves good secrets; one that finds a
      job goes on only by an early exit. */
  lemma GoesOnExactly(s: State, r: Ready)
    ensures Handling(s, r).goesOn <==> ExitsEarly(s, r) || (s.job.None? && Good(Handling(s, r).s))
  {
  }

  // ---------- runs ----------

  /** What happens around the calls: the job succeeds, writing both secrets in one step; it fails for good or
      for now; it is cleaned up; someone deletes or blanks a secret; the wanted job changes. */
  datatype Event =
    | Call(ready: Ready)
    | JobSucceeds
    | JobFails(forGood: bool)
    | JobExpires
    | DropTls | DropCa | BlankTls | BlankCa
    | WantAnotherJob

  function Made(origin: nat): Option<Secret> {
    Some(Secret.Secret(true, false, origin))
  }

  function Blanked(secret: Option<Secret>): Option<Secret> {
    if secret.Some? then Some(secret.value.(valid := false)) else None
  }

  function Next(s: State, e: Event): State {
    match e
    case Call(r) => Handling(s, r).s
    case JobSucceeds =>
      if s.job.Some? && s.job.value.alive && !s.job.value.succeeded then
        State(Made(s.origins), Made(s.origins), Some(s.job.value.(succeeded := true)), s.origins + 1)
      else s
    case JobFails(forGood) =>
      if s.job.Some? && s.job.value.alive then s.(job := Some(s.job.value.(failed := true, alive := !forGood))) else s
    case JobExpires => if s.job.Some? && (s.job.value.succeeded || !s.job.value.alive) then s.(job := None) else s
    case DropTls => s.(tls := None)
    case DropCa => s.(ca := None)
    case BlankTls => s.(tls := Blanked(s.tls))
    case BlankCa => s.(ca := Blanked(s.ca))
    case WantAnotherJob => if s.job.Some? then s.(job := Some(s.job.value.(current := false))) else s
  }

  function Run(s: State, events: seq<Event>): State {
    if events == [] then s else Next(Run(s, events[..|events| - 1]), events[|events| - 1])
  }

  /** Certificates that are present together come from the same run of the job, and a job that can no longer
      succeed has failed. */
  predicate Paired(s: State) {
    && (s.tls.Some? && s.ca.Some? ==> s.tls.value.origin == s.ca.value.origin)
    && (s.job.Some? && !s.job.value.alive ==> s.job.value.failed || s.job.value.succeeded)
  }

  lemma NextKeepsPaired(s: State, e: Event)
    requires Paired(s)
    ensures Paired(Next(s, e))
  {
  }

  /** Over every run: the pair never mixes two origins, and a call that goes on without an early exit leaves
      good secrets, of one origin. */
  lemma {:induction false} SafeOverEveryRun(s: State, events: seq<Event>, r: Ready)
    requires Paired(s)
    ensures var t := Run(s, events);
            && Paired(t)
            && (Handling(t, r).goesOn && !ExitsEarly(t, r) ==> Good(Handling(t, r).s) && Paired(Handling(t, r).s))
    decreases |events|
  {
    if events != [] {
      var before := events[..|events| - 1];
      SafeOverEveryRun(s, before, r);
      NextKeepsPaired(Run(s, before), events[|events| - 1]);
    }
    var t := Run(s, events);
    GoesOnMeansGood(t, r);
    NextKeepsPaired(t, Call(r));
  }

  // ---------- convergence ----------

  /** A call with everything ready, after which a running job succeeds. */
  function Round(s: State): State {
    Next(Handling(s, ALL_READY).s, JobSucceeds)
  }

  function Rounds(s: State, n: nat): State
    decreases n
  {
    if n == 0 then s else Rounds(Round(s), n - 1)
  }

  /** No certificate, and a wanted job that has failed for good: it is waited for until it expires, and the
      handler itself never replaces it. */
  predicate Stuck(s: State) {
    s.tls.None? && s.job.Some? && s.job.value.current && !s.job.value.alive && !s.job.value.succeeded
  }

  /** How many rounds are left. */
  function Left(s: State): nat {
    if s.job.Some? then
      if s.tls.None? then (if s.job.value.succeeded && s.job.value.current then 4 else 3)
      else if s.job.value.succeeded then 1 + LeftWithoutJob(s)
      else if s.job.value.failed then 1 + LeftWithoutJob(s)
      else 3
    else LeftWithoutJob(s)
  }

  function LeftWithoutJob(s: State): nat {
    if s.tls.None? then 3
    else if !s.tls.value.valid || (s.ca.Some? && !s.ca.value.valid) then 4
    else if Good(s.(job := None)) then 0
    else 1
  }

  lemma RoundIsProgress(s: State)
    requires Paired(s) && !Stuck(s)
    ensures Paired(Round(s)) && !Stuck(Round(s))
    ensures Left(s) > 0 ==> Left(Round(s)) < Left(s)
    ensures Left(s) == 0 ==> Good(s) && Round(s) == s
  {
  }

  lemma {:induction false} RoundsReachGood(s: State, n: nat)
    requires Paired(s) && !Stuck(s) && n >= Left(s)
    ensures Good(Rounds(s, n))
    decreases n
  {
    RoundIsProgress(s);
    if n > 0 {
      RoundsReachGood(Round(s), n - 1);
    }
  }

  lemma {:induction false} StuckForEver(s: State, n: nat)
    requires Stuck(s)
    ensures !Good(Rounds(s, n))
    decreases n
  {
    if n > 0 {
      StuckForEver(Round(s), n - 1);
    }
  }

  lemma ReachedSometime(s: State, n: nat)
    requires Good(Rounds(s, n))
    ensures exists m :: Good(Rounds(s, m))
  {
  }

  /** Left in peace, with a job that succeeds when it runs, the handler reaches good secrets from every state
      in at most five rounds, except exactly where a failed job is waited for. */
  lemma {:induction false} ConvergesUnlessStuck(s: State)
    requires Paired(s)
    ensures (exists n :: Good(Rounds(s, n))) <==> !Stuck(s)
    ensures !Stuck(s) ==> Good(Rounds(s, 5))
  {
    if Stuck(s) {
      forall n: nat ensures !Good(Rounds(s, n)) {
        StuckForEver(s, n);
      }
    } else {
      RoundsReachGood(s, 5);
      ReachedSometime(s, 5);
    }
  }

  /** A job that has finished expires after a while, and that ends the waiting: from every state, once a finished
      job is cleaned up, the handler reaches good secrets in at most five rounds. */
  lemma ExpiryUnsticks(s: State)
    requires Paired(s)
    ensures var t := Next(s, JobExpires); !Stuck(t) && Good(Rounds(t, 5))
  {
    NextKeepsPaired(s, JobExpires);
    ConvergesUnlessStuck(Next(s, JobExpires));
  }
}
