// Identifiers, results and the failure oracle shared by every module.

module Types {

  datatype Option<+T> = None | Some(value: T)

  datatype Result<+T> = Ok(value: T) | Err(error: Error)

  // Identifiers are opaque: only equality and the order used by "ORDER BY id"
  // matter. Times are readings of the domain clock.
  type LabId = nat
  type ProjectId = nat
  type UserId = nat
  type CourseId = nat
  type TemplateId = nat
  type SecretId = nat
  type ServerId = nat
  type NetworkId = nat
  type Ip = nat
  type Time = int

  // The deterministic provider-side resource names of a lab.
  datatype Name =
    | KeyName(lab: LabId)
    | NetName(lab: LabId)
    | VmName(lab: LabId, vm: string)

  datatype Error =
    | InvalidTransition
    | InvalidInput
    | NotFound
    | Forbidden
    | PoolEmpty
    | LabAlreadyActive
    | QuotaExceeded
    | CloudUnavailable
    | StorageFailed
    | ProviderFailed

  // What an adversary makes of one external call: it works, it returns an
  // error without effect, or the worker dies just before it.
  datatype Fate = Fine | Fault | Death

  // The fate of external call number t of a run, by the kind of the callee.
  // "store" covers the repositories; "cloud" the provider and secret store.
  datatype Oracle = Oracle(store: nat -> Fate, cloud: nat -> Fate)

  // No crash and no storage error: only provider calls may fail.
  ghost predicate Steady(o: Oracle) {
    forall t :: o.store(t) == Fine && o.cloud(t) != Death
  }

  ghost predicate Faultless(o: Oracle) {
    forall t :: o.store(t) == Fine && o.cloud(t) == Fine
  }

  // Calls a to b - 1 work.
  ghost predicate AllFine(f: nat -> Fate, a: nat, b: nat) {
    forall i: nat :: a <= i < b ==> f(i) == Fine
  }

  // The first of these calls not to work finds the worker dead.
  ghost predicate FirstDies(f: nat -> Fate, a: nat, b: nat) {
    exists i: nat :: a <= i < b && f(i) == Death && AllFine(f, a, i)
  }

  // The first of these calls not to work is number i, and it is refused.
  ghost predicate FirstRefused(f: nat -> Fate, a: nat, b: nat, i: nat) {
    a <= i < b && f(i) == Fault && AllFine(f, a, i)
  }

  lemma NoCalls(f: nat -> Fate, t: nat)
    ensures AllFine(f, t, t) && !FirstDies(f, t, t)
  {
  }

  lemma FirstOfMore(f: nat -> Fate, a: nat, b: nat)
    requires a < b
    ensures FirstDies(f, a, b) <==> f(a) == Death || (f(a) == Fine && FirstDies(f, a + 1, b))
    ensures AllFine(f, a, b) <==> f(a) == Fine && AllFine(f, a + 1, b)
  {
    assert AllFine(f, a, a);
    if i: nat :| a < i < b && f(i) == Death && AllFine(f, a, i) {
      assert AllFine(f, a + 1, i);
    }
    if i: nat :| a + 1 <= i < b && f(i) == Death && f(a) == Fine && AllFine(f, a + 1, i) {
      assert AllFine(f, a, i);
    }
  }

  lemma TwoCalls(f: nat -> Fate, t: nat)
    ensures FirstDies(f, t, t + 2) <==> f(t) == Death || (f(t) == Fine && f(t + 1) == Death)
    ensures AllFine(f, t, t + 2) <==> f(t) == Fine && f(t + 1) == Fine
  {
    FirstOfMore(f, t, t + 2);
    FirstOfMore(f, t + 1, t + 2);
    NoCalls(f, t + 2);
  }

  // How one saga run ended: it returned nil, returned an error (the queue
  // retries), or its worker died.
  datatype Verdict = Ended | Retry | Died

  function Halt(f: Fate): Verdict {
    if f == Death then Died else Retry
  }
}
