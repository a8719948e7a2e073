// Which steps keep every lab that still uses its project in possession of it,
// even where cleanups were abandoned and their projects rented again.

module HousedProofs {
  import opened Types
  import opened LabDomain
  import opened Lifecycle
  import opened OrderlyProofs
  import P = PoolDomain
  import D = DeployDomain
  import C = CleanupDomain
  import CP = CleanupProofs
  import CO = CleanupOutcomes
  import S = LabService

  lemma HousedFacts(w: World, l: LabId)
    requires Housed(w) && l in w.labs && Tenant(w.labs[l].state)
    ensures w.labs[l].project.Some? && w.labs[l].project.value in w.projects
    ensures CP.Holding(w.labs[l].state) ==> Owns(w, l) && w.projects[w.labs[l].project.value].state == P.Allocated
  {
    hide HasTenant;
  }

  // Another lab uses project p.
  ghost predicate UsedBeside(w: World, l: LabId, p: ProjectId) {
    exists m :: m in w.labs && m != l && CP.Holding(w.labs[m].state) && w.labs[m].project == Some(p)
  }

  lemma UsedIsAllocated(w: World, l: LabId, p: ProjectId)
    requires Housed(w) && UsedBeside(w, l, p)
    ensures p in w.projects && w.projects[p].state == P.Allocated
    ensures l in w.labs && CP.Holding(w.labs[l].state) ==> w.labs[l].project != Some(p)
  {
    hide HasTenant;
  }

  // ---------------------------------------------------------------------
  // One lab moves on with its project.

  // The lab and its project's row change together, nothing else does, and
  // neither comes back into use.
  ghost predicate MovesOut(w: World, w': World, l: LabId, p: ProjectId) {
    && l in w.labs && l in w'.labs && w'.labs == w.labs[l := w'.labs[l]]
    && p in w.projects && p in w'.projects && w'.projects == w.projects[p := w'.projects[p]]
    && Tenant(w.labs[l].state) && w.labs[l].project == Some(p) == w'.labs[l].project
    && CP.RowKept(w.projects[p], w'.projects[p])
    && (CP.Holding(w'.labs[l].state) ==> CP.Holding(w.labs[l].state) && w'.projects[p] == w.projects[p])
    && (w'.projects[p].state in {P.Allocated, P.Cleaning} ==> Tenant(w'.labs[l].state))
  }

  lemma MovingKeepsHousedIff(w: World, w': World, l: LabId, p: ProjectId)
    requires Housed(w) && MovesOut(w, w', l, p)
    ensures Housed(w') <==> !(UsedBeside(w, l, p) && w'.projects[p].state != P.Allocated)
  {
    hide CP.Holding;
    forall q | q in w'.projects && w'.projects[q].state in {P.Allocated, P.Cleaning}
      ensures HasTenant(w', q)
    {
      assert HasTenant(w, q);
    }
    hide HasTenant;
    if UsedBeside(w, l, p) {
      var m :| m in w.labs && m != l && CP.Holding(w.labs[m].state) && w.labs[m].project == Some(p);
      assert m in w'.labs && w'.labs[m] == w.labs[m];
    }
  }

  // ---------------------------------------------------------------------
  // The steps.

  lemma RelabelMovesOut(w: World, w': World, l: LabId)
    requires Housed(w) && l in w.labs && l in w'.labs && w'.projects == w.projects
    requires w'.labs == w.labs[l := w'.labs[l]]
    requires Tenant(w.labs[l].state) && Tenant(w'.labs[l].state) && w'.labs[l].project == w.labs[l].project
    requires CP.Holding(w'.labs[l].state) ==> CP.Holding(w.labs[l].state)
    ensures Housed(w')
  {
    HousedFacts(w, l);
    var p := w.labs[l].project.value;
    assert MovesOut(w, w', l, p) by { hide Housed; }
    MovingKeepsHousedIff(w, w', l, p);
    if UsedBeside(w, l, p) {
      UsedIsAllocated(w, l, p);
    }
  }

  lemma UserOpKeepsHoused(w: World, op: Op, cfg: D.Config)
    requires IsUserOp(op) && Orderly(w) && Housed(w)
    ensures Housed(Step(w, op, cfg))
  {
    hide Housed, Step, Orderly, CP.Holding, Shaped, Clashes, UnfreezesTooEarly;
    UserOpMovesOneLab(w, op, cfg);
    var w' := Step(w, op, cfg);
    if w' != w {
      RelabelMovesOut(w, w', op.lab);
    }
  }

  lemma DeployKeepsHoused(w: World, op: Op, cfg: D.Config)
    requires op.Deploy? && Orderly(w) && Housed(w)
    ensures Housed(Step(w, op, cfg))
  {
    if op.lab !in w.labs || w.labs[op.lab].state != Deploying {
      IdleDeploy(w, op, cfg);
    } else {
      hide Step, Housed, D.Run, Deployed, Shaped, C.RowsWellFormed, OneActive;
      var l, w' := op.lab, Step(w, op, cfg);
      DeployChangesOneLab(w, op, cfg);
      RunDeploys(w.DeployEnv(l), cfg, op.now, op.o);
      DeployedIsShaped(w.labs[l], w'.labs[l]);
      RelabelMovesOut(w, w', l);
    }
  }

  lemma RejectionKeepsHoused(w: World, w': World, lab: Lab)
    requires Housed(w) && Rejects(w, w', lab)
    ensures Housed(w')
  {
    hide Shaped;
    forall p | p in w'.projects && w'.projects[p].state in {P.Allocated, P.Cleaning}
      ensures HasTenant(w', p)
    {
      assert HasTenant(w, p);
    }
  }

  lemma RentKeepsHoused(w: World, w': World, lab: Lab, p: ProjectId)
    requires Housed(w) && Rents(w, w', lab, p)
    ensures Housed(w')
  {
    hide Shaped, C.RowsWellFormed, HasRival;
    forall q | q in w'.projects && w'.projects[q].state in {P.Allocated, P.Cleaning}
      ensures HasTenant(w', q)
    {
      if q != p {
        assert HasTenant(w, q);
      }
    }
  }

  lemma CreateKeepsHoused(w: World, op: Op, cfg: D.Config)
    requires op.Create? && Orderly(w) && Housed(w)
    ensures Housed(Step(w, op, cfg))
  {
    hide Housed, S.CreateLab, Step, Shaped, C.RowsWellFormed, OneActive;
    var i, r, w' := op.input, S.CreateLab(w.Tables(), op.input), Step(w, op, cfg);
    if r.result.Ok? {
      CreatedLabRents(w, i, cfg);
      hide Rents;
      RentKeepsHoused(w, w', r.result.value, r.result.value.project.value);
    } else if r.result.error == PoolEmpty {
      var lab := PoolEmptyRejects(w, i, cfg);
      RejectionKeepsHoused(w, w', lab);
    } else {
      RefusalChangesNothing(w, i, cfg);
    }
  }

  lemma HandledMovesOut(w: World, w': World, l: LabId, p: ProjectId, now: Time)
    requires l in w.labs && l in w'.labs && w.labs[l].project == Some(p) && Tenant(w.labs[l].state)
    requires w'.labs == w.labs[l := w'.labs[l]] && w.labs[l].id == l
    requires CP.Handled(w.CleanupEnv(l), w'.CleanupEnv(l), now)
    requires w' == w || w'.labs[l].state in {Cleaning, Done}
    ensures MovesOut(w, w', l, p)
  {
    hide C.RowsWellFormed;
    assert w'.projects == w.projects[p := w'.projects[p]];
  }

  // What a run does to the world, if it may clean up at all.
  lemma CleanupMovesOut(w: World, op: Op, cfg: D.Config)
    requires op.Cleanup? && Orderly(w) && op.lab in w.labs && IsCleanable(w.labs[op.lab].state)
    requires w.labs[op.lab].project.Some? && w.labs[op.lab].project.value in w.projects
    ensures var w' := Step(w, op, cfg);
      && MovesOut(w, w', op.lab, w.labs[op.lab].project.value)
      && w'.CleanupEnv(op.lab) == C.Run(w.CleanupEnv(op.lab), op.now, op.o).env
  {
    assert w.labs[op.lab].id == op.lab && Tenant(w.labs[op.lab].state);
    hide Step, C.Run, CP.Handled, C.RowsWellFormed, MovesOut, OneActive, CP.Moved;
    var e := w.CleanupEnv(op.lab);
    CleanupChangesOneLab(w, op, cfg);
    CP.RunHandles(e, op.now, op.o);
    CP.RunMoves(e, op.now, op.o);
    HandledMovesOut(w, Step(w, op, cfg), op.lab, w.labs[op.lab].project.value, op.now);
  }

  lemma CleanupKeepsHousedIff(w: World, op: Op, cfg: D.Config)
    requires op.Cleanup? && Orderly(w) && Housed(w)
    ensures Housed(Step(w, op, cfg)) <==> !Evicts(w, op)
  {
    if op.lab !in w.labs || !IsCleanable(w.labs[op.lab].state) {
      IdleCleanup(w, op, cfg);
    } else {
      var l, e, w' := op.lab, w.CleanupEnv(op.lab), Step(w, op, cfg);
      assert Tenant(w.labs[l].state);
      HousedFacts(w, l);
      var p := w.labs[l].project.value;
      hide Step, Housed, C.Run, MovesOut, CP.Holding, Shaped, OneActive;
      CleanupMovesOut(w, op, cfg);
      MovingKeepsHousedIff(w, w', l, p);
      if UsedBeside(w, l, p) {
        UsedIsAllocated(w, l, p);
        CO.RunFreesIff(e, op.now, op.o);
      }
    }
  }

  // A step keeps every lab that uses its project in possession of it exactly
  // when it is no cleanup of a lab whose project another lab is using.
  lemma StepKeepsHousedIff(w: World, op: Op, cfg: D.Config)
    requires Orderly(w) && Housed(w)
    ensures Housed(Step(w, op, cfg)) <==> !Evicts(w, op)
  {
    hide Housed, Orderly, Step;
    if op.Create? {
      CreateKeepsHoused(w, op, cfg);
    } else if op.Deploy? {
      DeployKeepsHoused(w, op, cfg);
    } else if op.Cleanup? {
      CleanupKeepsHousedIff(w, op, cfg);
    } else {
      UserOpKeepsHoused(w, op, cfg);
    }
  }
}
