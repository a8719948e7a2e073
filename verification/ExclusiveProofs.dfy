// Which steps keep the use of projects exclusive, and which keep every cleaning
// lab tied to its project.

module ExclusiveProofs {
  import opened Types
  import opened LabDomain
  import opened Lifecycle
  import opened OrderlyProofs
  import P = PoolDomain
  import D = DeployDomain
  import C = CleanupDomain
  import CP = CleanupProofs
  import S = LabService
  import Quota

  // ---------------------------------------------------------------------
  // One lab moves on with its project.

  // The lab and its project's row change together, nothing else does.
  ghost predicate Resettles(w: World, w': World, l: LabId, p: ProjectId) {
    && l in w.labs && l in w'.labs && w'.labs == w.labs[l := w'.labs[l]]
    && p in w.projects && p in w'.projects && w'.projects == w.projects[p := w'.projects[p]]
    && Tenant(w.labs[l].state) && w.labs[l].project == Some(p) && w.labs[l].id == l
    && SettledLab(w.labs[l], w'.labs[l], w'.projects[p])
  }

  ghost predicate SettledLab(lab: Lab, next: Lab, row: P.Row) {
    && next.id == lab.id && next.project == lab.project
    && CP.Tenancy(next, row)
    && (row.state in {P.Allocated, P.Cleaning} ==> Tenant(next.state) && row.lab == Some(lab.id))
  }

  lemma ResettlingKeepsExclusive(w: World, w': World, l: LabId, p: ProjectId)
    requires Exclusive(w) && Resettles(w, w', l, p)
    ensures Exclusive(w')
  {
    hide CP.Tenancy;
    forall q | q in w'.projects && w'.projects[q].state in {P.Allocated, P.Cleaning}
      ensures HasTenant(w', q)
    {
      if q != p {
        assert HasTenant(w, q);
      }
    }
  }

  lemma ResettlingKeepsTiedIff(w: World, w': World, l: LabId, p: ProjectId)
    requires Exclusive(w) && AllTied(w) && Resettles(w, w', l, p)
    ensures AllTied(w') <==> (Tenant(w'.labs[l].state) ==> CP.Tied(w'.labs[l], w'.projects[p]))
  {
    hide CP.Tenancy, CP.Tied, HasTenant;
    forall m | m in w.labs && m != l && Tenant(w.labs[m].state) && w.labs[m].project.Some?
      && w.labs[m].project.value in w.projects
      ensures CP.Tied(w'.labs[m], w'.projects[w.labs[m].project.value])
    {
      assert w.labs[m].project.value != p;
    }
  }

  lemma TenantFacts(w: World, l: LabId)
    requires Exclusive(w) && l in w.labs && Tenant(w.labs[l].state)
    ensures w.labs[l].project.Some? && w.labs[l].project.value in w.projects
    ensures CP.Tenancy(w.labs[l], w.projects[w.labs[l].project.value])
    ensures AllTied(w) ==> CP.Tied(w.labs[l], w.projects[w.labs[l].project.value])
  {
  }

  // ---------------------------------------------------------------------
  // User operations.

  lemma RelabelResettles(w: World, w': World, l: LabId)
    requires Exclusive(w) && Orderly(w) && l in w.labs && l in w'.labs && w'.projects == w.projects
    requires w'.labs == w.labs[l := w'.labs[l]] && Relabels(w.labs[l], w'.labs[l])
    ensures w.labs[l].project.Some? && Resettles(w, w', l, w.labs[l].project.value)
    ensures AllTied(w) ==> CP.Tied(w'.labs[l], w.projects[w.labs[l].project.value])
  {
    TenantFacts(w, l);
    hide Exclusive, C.RowsWellFormed, Shaped;
  }

  lemma UserOpKeepsExclusive(w: World, op: Op, cfg: D.Config)
    requires IsUserOp(op) && Orderly(w) && Exclusive(w)
    ensures Exclusive(Step(w, op, cfg))
    ensures AllTied(w) ==> AllTied(Step(w, op, cfg))
  {
    hide Exclusive, Orderly, Step, Relabels, AllTied, CP.Tied, Resettles;
    UserOpMovesOneLab(w, op, cfg);
    var w' := Step(w, op, cfg);
    if w' != w {
      hide Clashes, UnfreezesTooEarly;
      RelabelResettles(w, w', op.lab);
      ResettlingKeepsExclusive(w, w', op.lab, w.labs[op.lab].project.value);
      if AllTied(w) {
        ResettlingKeepsTiedIff(w, w', op.lab, w.labs[op.lab].project.value);
      }
    }
  }

  // ---------------------------------------------------------------------
  // Creating a lab.

  lemma RejectionKeepsExclusive(w: World, w': World, lab: Lab)
    requires Exclusive(w) && Rejects(w, w', lab)
    ensures Exclusive(w') && (AllTied(w) ==> AllTied(w'))
  {
    hide Shaped, CP.Tenancy, CP.Tied;
    assert !Tenant(lab.state);
    forall p | p in w'.projects && w'.projects[p].state in {P.Allocated, P.Cleaning}
      ensures HasTenant(w', p)
    {
      assert HasTenant(w, p);
    }
  }

  // Nobody who is not finished names project p.
  ghost predicate LetGo(w: World, p: ProjectId) {
    forall m :: m in w.labs && w.labs[m].state == Cleaning ==> w.labs[m].project != Some(p)
  }

  // Of a free project, only cleaning labs can still be tenants.
  lemma FreeHasOnlyCleaning(w: World, p: ProjectId)
    requires Exclusive(w) && p in w.projects && w.projects[p].state == P.Free
    ensures LetGo(w, p) <==> forall m :: m in w.labs && Tenant(w.labs[m].state) ==> w.labs[m].project != Some(p)
    ensures AllTied(w) ==> LetGo(w, p)
  {
    hide HasTenant;
  }

  lemma RentKeepsExclusiveIff(w: World, w': World, lab: Lab, p: ProjectId)
    requires Exclusive(w) && Rents(w, w', lab, p)
    ensures Exclusive(w') <==> LetGo(w, p)
    ensures AllTied(w) ==> AllTied(w')
  {
    hide C.RowsWellFormed, Shaped, HasRival;
    FreeHasOnlyCleaning(w, p);
    if LetGo(w, p) {
      forall q | q in w'.projects && w'.projects[q].state in {P.Allocated, P.Cleaning}
        ensures HasTenant(w', q)
      {
        if q != p {
          assert HasTenant(w, q);
        }
      }
      assert CP.Tied(lab, w'.projects[p]);
    } else {
      var m :| m in w.labs && w.labs[m].state == Cleaning && w.labs[m].project == Some(p);
      assert m in w'.labs && w'.labs[m] == w.labs[m] && w'.labs[lab.id].project == w'.labs[m].project;
    }
  }

  // A create that succeeds rents from under a lab exactly when one has not let
  // go of the project it rents.
  lemma RentsFromUnderIff(w: World, op: Op)
    requires op.Create? && Orderly(w)
    ensures RentsFromUnder(w, op) ==> S.CreateLab(w.Tables(), op.input).result.Ok?
    ensures var r := S.CreateLab(w.Tables(), op.input).result;
      r.Ok? && r.value.project.Some? ==> (RentsFromUnder(w, op) <==> !LetGo(w, r.value.project.value))
  {
    hide S.CreateLab, S.IsCandidate, Shaped, OneActive, S.HasActive, Quota.Allowed;
    S.CreateSucceedsIff(w.Tables(), op.input);
    var r := S.CreateLab(w.Tables(), op.input).result;
    if r.Ok? {
      S.SuccessfulCreateRentsOne(w.Tables(), op.input);
      var p := r.value.project.value;
      forall q | S.IsCandidate(w.projects, op.input.domain.value, q)
        ensures q == p
      {
        S.CandidateIsUnique(w.projects, op.input.domain.value, p);
        S.CandidateIsUnique(w.projects, op.input.domain.value, q);
      }
    }
  }

  lemma CreateKeepsExclusiveIff(w: World, op: Op, cfg: D.Config)
    requires op.Create? && Orderly(w) && Exclusive(w)
    ensures Exclusive(Step(w, op, cfg)) <==> !RentsFromUnder(w, op)
    ensures AllTied(w) ==> AllTied(Step(w, op, cfg)) && !RentsFromUnder(w, op)
  {
    RentsFromUnderIff(w, op);
    hide Exclusive, S.CreateLab, Step, AllTied, Shaped, C.RowsWellFormed, RentsFromUnder;
    var i, r, w' := op.input, S.CreateLab(w.Tables(), op.input), Step(w, op, cfg);
    if r.result.Ok? {
      CreatedLabRents(w, i, cfg);
      var p := r.result.value.project.value;
      hide HasRival;
      RentKeepsExclusiveIff(w, w', r.result.value, p);
      FreeHasOnlyCleaning(w, p);
    } else if r.result.error == PoolEmpty {
      var lab := PoolEmptyRejects(w, i, cfg);
      RejectionKeepsExclusive(w, w', lab);
    } else {
      RefusalChangesNothing(w, i, cfg);
    }
  }

  // ---------------------------------------------------------------------
  // Deploy runs.

  lemma DeployedResettles(w: World, w': World, l: LabId)
    requires Exclusive(w) && Orderly(w) && l in w.labs && l in w'.labs && w'.projects == w.projects
    requires w'.labs == w.labs[l := w'.labs[l]] && w.labs[l].state == Deploying && Deployed(w.labs[l], w'.labs[l])
    ensures w.labs[l].project.Some? && Resettles(w, w', l, w.labs[l].project.value)
    ensures AllTied(w) ==> CP.Tied(w'.labs[l], w.projects[w.labs[l].project.value])
  {
    TenantFacts(w, l);
    DeployedIsShaped(w.labs[l], w'.labs[l]);
    hide Exclusive, C.RowsWellFormed, Shaped, Deployed;
  }

  lemma DeployKeepsExclusive(w: World, op: Op, cfg: D.Config)
    requires op.Deploy? && Orderly(w) && Exclusive(w)
    ensures Exclusive(Step(w, op, cfg))
    ensures AllTied(w) ==> AllTied(Step(w, op, cfg))
  {
    if op.lab !in w.labs || w.labs[op.lab].state != Deploying {
      IdleDeploy(w, op, cfg);
    } else {
      hide Step, Exclusive, AllTied, Orderly, D.Run, Deployed, Resettles, CP.Tied;
      var l, w' := op.lab, Step(w, op, cfg);
      DeployChangesOneLab(w, op, cfg);
      RunDeploys(w.DeployEnv(l), cfg, op.now, op.o);
      DeployedResettles(w, w', l);
      ResettlingKeepsExclusive(w, w', l, w.labs[l].project.value);
      if AllTied(w) {
        ResettlingKeepsTiedIff(w, w', l, w.labs[l].project.value);
      }
    }
  }

  // ---------------------------------------------------------------------
  // Cleanup runs.

  lemma ConsistentResettles(e: C.Env, r: C.Env)
    requires CP.Consistent(e, r) && Tenant(e.lab.state) && CP.Tenancy(e.lab, e.projects[e.lab.project.value])
    ensures SettledLab(e.lab, r.lab, r.projects[e.lab.project.value])
    ensures r.projects == e.projects[e.lab.project.value := r.projects[e.lab.project.value]]
  {
    hide C.RowsWellFormed;
  }

  lemma CleanupKeepsExclusive(w: World, op: Op, cfg: D.Config)
    requires op.Cleanup? && Orderly(w) && Exclusive(w)
    ensures Exclusive(Step(w, op, cfg))
    ensures AllTied(w) ==> (AllTied(Step(w, op, cfg)) <==> !Abandons(w, op))
  {
    if op.lab !in w.labs || !IsCleanable(w.labs[op.lab].state) {
      IdleCleanup(w, op, cfg);
    } else {
      var l, e, w' := op.lab, w.CleanupEnv(op.lab), Step(w, op, cfg);
      assert Tenant(w.labs[l].state);
      TenantFacts(w, l);
      hide Step, Exclusive, AllTied, C.RowsWellFormed, C.Run, Shaped, CP.Consistent, CP.Tenancy;
      hide CP.Abandoned, SettledLab, CP.Tied, CP.Settled, CP.Torn;
      CleanupChangesOneLab(w, op, cfg);
      var r, p := C.Run(e, op.now, op.o).env, w.labs[l].project.value;
      CP.RunIsConsistent(e, op.now, op.o);
      ConsistentResettles(e, r);
      assert p in r.projects && l in w'.labs && Resettles(w, w', l, p);
      ResettlingKeepsExclusive(w, w', l, p);
      if AllTied(w) {
        CP.RunSettlesUnlessAbandoned(e, op.now, op.o);
        ResettlingKeepsTiedIff(w, w', l, p);
        TiedUnlessTorn(e, r);
      }
    }
  }

  lemma TiedUnlessTorn(e: C.Env, r: C.Env)
    requires CP.Settled(e, r) <==> !CP.Torn(e, r)
    requires CP.Consistent(e, r)
    ensures CP.Torn(e, r) <==> !(Tenant(r.lab.state) ==> CP.Tied(r.lab, r.projects[e.lab.project.value]))
  {
    hide C.RowsWellFormed;
  }

  // ---------------------------------------------------------------------

  // A step keeps projects exclusive exactly when it does not rent a project
  // from under a lab whose cleanup is still to be retried.
  lemma StepKeepsExclusiveIff(w: World, op: Op, cfg: D.Config)
    requires Orderly(w) && Exclusive(w)
    ensures Exclusive(Step(w, op, cfg)) <==> !RentsFromUnder(w, op)
  {
    hide Exclusive, Orderly, Step;
    if op.Create? {
      CreateKeepsExclusiveIff(w, op, cfg);
    } else if op.Deploy? {
      DeployKeepsExclusive(w, op, cfg);
    } else if op.Cleanup? {
      CleanupKeepsExclusive(w, op, cfg);
    } else {
      UserOpKeepsExclusive(w, op, cfg);
    }
  }

  // There is such a lab only after an abandoned cleanup: all other steps keep
  // cleaning labs tied to projects that are not free, and while they are, no
  // create rents from under anyone.
  lemma StepKeepsTiedIff(w: World, op: Op, cfg: D.Config)
    requires Orderly(w) && Exclusive(w) && AllTied(w)
    ensures AllTied(Step(w, op, cfg)) <==> !Abandons(w, op)
    ensures !RentsFromUnder(w, op)
  {
    hide Exclusive, Orderly, Step, AllTied;
    if op.Create? {
      CreateKeepsExclusiveIff(w, op, cfg);
    } else if op.Deploy? {
      DeployKeepsExclusive(w, op, cfg);
    } else if op.Cleanup? {
      CleanupKeepsExclusive(w, op, cfg);
    } else {
      UserOpKeepsExclusive(w, op, cfg);
    }
  }
}
