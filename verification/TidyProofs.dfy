// Which steps keep free projects empty and every lab aware of what is in the
// project it owns, even where a project has two tenants.

module TidyProofs {
  import opened Types
  import opened CloudDomain
  import opened LabDomain
  import opened Lifecycle
  import opened OrderlyProofs
  import EP = EquippedProofs
  import HP = HousedProofs
  import P = PoolDomain
  import D = DeployDomain
  import DP = DeployProofs
  import DO = DeployOutcomes
  import C = CleanupDomain
  import CP = CleanupProofs
  import CO = CleanupOutcomes
  import S = LabService

  // ---------------------------------------------------------------------
  // Changes to the cloud made in other projects.

  // Project q holds the same in c and d.
  ghost predicate Foreign(c: Cloud, d: Cloud, q: ProjectId) {
    && (forall id :: id in c.servers && c.servers[id].project == q ==>
          id in d.servers && d.servers[id] == c.servers[id])
    && (forall id :: id in d.servers && d.servers[id].project == q ==>
          id in c.servers && d.servers[id] == c.servers[id])
    && (forall id :: id in c.networks && c.networks[id].project == q ==>
          id in d.networks && d.networks[id] == c.networks[id])
    && (forall id :: id in d.networks && d.networks[id].project == q ==>
          id in c.networks && d.networks[id] == c.networks[id])
    && (forall n: Name :: (q, n) in c.keypairs <==> (q, n) in d.keypairs)
  }

  lemma GrowthIsForeign(c: Cloud, d: Cloud, p: ProjectId, l: LabId, q: ProjectId)
    requires DP.Grows(c, d, p, l) && q != p
    ensures Foreign(c, d, q)
  {
  }

  lemma ShrinkIsForeign(c: Cloud, d: Cloud, p: ProjectId, l: LabId, q: ProjectId)
    requires CP.Shrinks(c, d, p, l) && q != p
    ensures Foreign(c, d, q)
  {
  }

  lemma AccountsElsewhere(c: Cloud, d: Cloud, p: ProjectId, l: LabId, res: Resources)
    requires Foreign(c, d, p)
    ensures NamedFor(c, p, l) ==> NamedFor(d, p, l)
    ensures CP.Covers(c, p, res) ==> CP.Covers(d, p, res)
    ensures CP.Vacant(c, p) ==> CP.Vacant(d, p)
  {
  }

  lemma NothingCoversOnlyVacant(c: Cloud, p: ProjectId)
    ensures CP.Covers(c, p, NO_RESOURCES) <==> CP.Vacant(c, p)
  {
  }

  // Lab l, its project and what is in it changed, nothing else. The project
  // was its own, or the cloud only lost things of its own.
  ghost predicate OnlyProject(w: World, w': World, l: LabId, p: ProjectId) {
    && l in w.labs && w.labs[l].project == Some(p) && p in w.projects
    && l in w'.labs && w'.labs == w.labs[l := w'.labs[l]]
    && p in w'.projects && w'.projects == w.projects[p := w'.projects[p]]
    && CP.RowKept(w.projects[p], w'.projects[p])
    && (forall q :: q != p ==> Foreign(w.cloud, w'.cloud, q))
    && (Owns(w, l) || CP.Shrinks(w.cloud, w'.cloud, p, l))
  }

  // The other labs and the other free projects stay accounted for.
  lemma OthersStayTidy(w: World, w': World, l: LabId, p: ProjectId)
    requires Tidy(w) && OnlyProject(w, w', l, p)
    ensures Tidy(w') <==> Accounts(w', l) && (w'.projects[p].state == P.Free ==> CP.Vacant(w'.cloud, p))
  {
    hide CP.Vacant, CP.Covers, NamedFor, Foreign, CP.Shrinks, CP.RowKept, Accounts;
    forall q | q in w'.projects && q != p && w'.projects[q].state == P.Free
      ensures CP.Vacant(w'.cloud, q)
    {
      AccountsElsewhere(w.cloud, w'.cloud, q, l, NO_RESOURCES);
    }
    forall m | m in w.labs && m != l
      ensures Accounts(w', m)
    {
      OtherStaysAccounted(w, w', l, p, m);
    }
  }

  lemma OtherStaysAccounted(w: World, w': World, l: LabId, p: ProjectId, m: LabId)
    requires OnlyProject(w, w', l, p) && m in w.labs && m != l && Accounts(w, m)
    ensures Accounts(w', m)
  {
    hide CP.Vacant, CP.Covers, NamedFor, Foreign, CP.Shrinks;
    if Owns(w', m) {
      var q, res := w.labs[m].project.value, w.labs[m].resources;
      if q == p {
        ShrinkStaysAccounted(w.cloud, w'.cloud, p, l, m, res);
      } else {
        AccountsElsewhere(w.cloud, w'.cloud, q, m, res);
      }
    }
  }

  lemma ShrinkStaysAccounted(c: Cloud, d: Cloud, p: ProjectId, l: LabId, m: LabId, res: Resources)
    requires CP.Shrinks(c, d, p, l)
    ensures NamedFor(c, p, m) ==> NamedFor(d, p, m)
    ensures CP.Covers(c, p, res) ==> CP.Covers(d, p, res)
    ensures CP.Vacant(c, p) ==> CP.Vacant(d, p)
  {
  }

  lemma TidyAccounts(w: World, l: LabId)
    requires Tidy(w) && l in w.labs
    ensures Accounts(w, l)
  {
  }

  lemma TidyVacates(w: World, p: ProjectId)
    requires Tidy(w) && p in w.projects && w.projects[p].state == P.Free
    ensures CP.Vacant(w.cloud, p)
  {
  }

  // ---------------------------------------------------------------------
  // User operations.

  lemma RelabelledAccounts(w: World, w': World, op: Op, p: ProjectId)
    requires IsUserOp(op) && op.lab in w.labs && w.labs[op.lab].project == Some(p) && p in w.projects
    requires Shaped(w.labs[op.lab]) && Accounts(w, op.lab) && (CP.Holding(w.labs[op.lab].state) ==> Owns(w, op.lab))
    requires op.lab in w'.labs && w'.projects == w.projects && w'.cloud == w.cloud
    requires MovesLegally(w, op, w'.labs[op.lab])
    ensures Accounts(w', op.lab) <==>
            !(w.labs[op.lab].state == Deploying && w'.labs[op.lab].state != Deploying && !CP.Vacant(w.cloud, p))
  {
    NothingCoversOnlyVacant(w.cloud, p);
    hide CP.Vacant, CP.Covers, NamedFor, UnfreezesTooEarly;
    TenantStates(w.labs[op.lab]);
    TenantStates(w'.labs[op.lab]);
  }

  lemma TenantStates(lab: Lab)
    requires Tenant(lab.state) && Shaped(lab)
    ensures lab.state in {Deploying, Ready, Frozen, State.Failed, Cleaning}
  {
  }

  lemma EarlyUnfreezeReadies(w: World, op: Op, cfg: D.Config)
    requires UnfreezesTooEarly(w, op) && Orderly(w)
    ensures op.lab in Step(w, op, cfg).labs && Step(w, op, cfg).labs[op.lab].state == Ready
  {
    hide Shaped, C.RowsWellFormed;
    ActiveHasNoRival(w.labs, w.labs[op.lab]);
  }

  lemma UserOpKeepsTidyIff(w: World, op: Op, cfg: D.Config)
    requires IsUserOp(op) && Orderly(w) && Housed(w) && Tidy(w)
    ensures Tidy(Step(w, op, cfg)) <==> !Forgets(w, op, cfg)
  {
    assert !Leaks(w, op, cfg);
    hide Orderly, Housed, Tidy, Step, Leaks, CP.Vacant, UnfreezesTooEarly, Owns, Accounts, OnlyProject;
    UserOpMovesOneLab(w, op, cfg);
    var w' := Step(w, op, cfg);
    if UnfreezesTooEarly(w, op) {
      EarlyUnfreezeReadies(w, op, cfg);
    }
    if w' == w {
      UnchangedIsNotEarly(w, op, cfg);
    } else {
      var l := op.lab;
      MovedFacts(w, op, w');
      HP.HousedFacts(w, l);
      var p := w.labs[l].project.value;
      TidyAccounts(w, l);
      RelabelledAccounts(w, w', op, p);
      FreeStaysVacant(w, w', l, p);
      OthersStayTidy(w, w', l, p);
    }
  }

  lemma UnchangedIsNotEarly(w: World, op: Op, cfg: D.Config)
    requires IsUserOp(op) && Orderly(w) && Step(w, op, cfg) == w
    ensures !UnfreezesTooEarly(w, op)
  {
    hide Step, Orderly;
    if UnfreezesTooEarly(w, op) {
      EarlyUnfreezeReadies(w, op, cfg);
    }
  }

  lemma MovedFacts(w: World, op: Op, w': World)
    requires IsUserOp(op) && Orderly(w) && MovesOneLab(w, op, w') && w' != w
    ensures op.lab in w.labs && op.lab in w'.labs && Shaped(w.labs[op.lab]) && Tenant(w.labs[op.lab].state)
    ensures w' == w.(labs := w.labs[op.lab := w'.labs[op.lab]]) && MovesLegally(w, op, w'.labs[op.lab])
    ensures (w.labs[op.lab].state == Deploying && w'.labs[op.lab].state != Deploying) ==> UnfreezesTooEarly(w, op)
    ensures UnfreezesTooEarly(w, op) ==> w.labs[op.lab].state == Deploying
  {
    hide Shaped, C.RowsWellFormed, Clashes;
  }

  lemma FreeStaysVacant(w: World, w': World, l: LabId, p: ProjectId)
    requires Tidy(w) && l in w.labs && w.labs[l].project == Some(p) && p in w.projects
    requires l in w'.labs && w' == w.(labs := w.labs[l := w'.labs[l]])
    ensures OnlyProject(w, w', l, p)
    ensures w'.projects[p].state == P.Free ==> CP.Vacant(w'.cloud, p)
  {
  }

  // ---------------------------------------------------------------------
  // Creating a lab.

  lemma JoiningKeepsTidy(w: World, w': World, lab: Lab)
    requires Tidy(w) && lab.id !in w.labs && w'.labs == w.labs[lab.id := lab] && w'.cloud == w.cloud
    requires w'.projects == w.projects && lab.project.None?
    ensures Tidy(w')
  {
    hide CP.Vacant, CP.Covers, NamedFor;
    forall m | m in w.labs
      ensures Accounts(w', m)
    {
      assert Accounts(w, m);
    }
  }

  // What is empty is covered and named for anyone.
  lemma VacantAccounts(c: Cloud, p: ProjectId, l: LabId, res: Resources)
    requires CP.Vacant(c, p)
    ensures NamedFor(c, p, l) && CP.Covers(c, p, res)
  {
  }

  lemma RentKeepsTidy(w: World, w': World, lab: Lab, p: ProjectId)
    requires Tidy(w) && Rents(w, w', lab, p)
    ensures Tidy(w')
  {
    TidyVacates(w, p);
    hide C.RowsWellFormed, CP.Covers, CP.Vacant, NamedFor, Shaped, HasRival;
    forall m | m in w'.labs
      ensures Accounts(w', m)
    {
      VacantAccounts(w.cloud, p, m, w'.labs[m].resources);
      if m != lab.id {
        assert Accounts(w, m);
      }
    }
  }

  lemma CreateKeepsTidy(w: World, op: Op, cfg: D.Config)
    requires op.Create? && Orderly(w) && Tidy(w)
    ensures Tidy(Step(w, op, cfg))
  {
    hide Tidy, S.CreateLab, Step, Shaped, C.RowsWellFormed;
    var i, r, w' := op.input, S.CreateLab(w.Tables(), op.input), Step(w, op, cfg);
    if r.result.Ok? {
      CreatedLabRents(w, i, cfg);
      hide Rents;
      RentKeepsTidy(w, w', r.result.value, r.result.value.project.value);
    } else if r.result.error == PoolEmpty {
      var lab := PoolEmptyRejects(w, i, cfg);
      RejectedHasNoProject(lab);
      JoiningKeepsTidy(w, w', lab);
    } else {
      RefusalChangesNothing(w, i, cfg);
    }
  }

  lemma RejectedHasNoProject(lab: Lab)
    requires Shaped(lab) && lab.state == Rejected
    ensures lab.project.None?
  {
  }

  // ---------------------------------------------------------------------
  // Deploy runs.

  // A provisioned lab whose project holds only what is named for it knows all
  // that is there.
  lemma ProvisionedCovers(c: Cloud, p: ProjectId, l: LabId, top: D.Topology, res: Resources)
    requires c.Valid() && DP.Provisioned(c, p, l, top, res) && DP.StandAsSpecified(c, p, l, top) && NamedFor(c, p, l)
    ensures CP.Covers(c, p, res)
  {
    forall id | id in c.servers && c.servers[id].project == p
      ensures id in res.servers
    {
      var spec := c.servers[id].spec;
      assert DP.AsSpecified(c, p, l, top, spec);
      var i :| 0 <= i < |top.vms| && DP.IsMachine(spec, l, top.vms[i], spec.network, Some(KeyName(l)));
      assert c.servers[res.servers[i]].spec.name == spec.name;
      assert id == res.servers[i];
    }
  }

  lemma GrowthStaysNamed(c: Cloud, d: Cloud, p: ProjectId, l: LabId)
    requires DP.Grows(c, d, p, l) && NamedFor(c, p, l)
    ensures NamedFor(d, p, l)
  {
  }

  lemma DeployedResources(e: D.Env, r: D.Env, top: D.Topology)
    requires Shaped(e.lab) && e.lab.state == Deploying && DP.Kept(e, r, top) && Deployed(e.lab, r.lab)
    requires NamedFor(e.cloud, e.lab.project.value, e.lab.id)
    ensures NamedFor(r.cloud, e.lab.project.value, e.lab.id)
    ensures r.lab.state == Ready ==> CP.Covers(r.cloud, e.lab.project.value, r.lab.resources)
    ensures r.lab.state == State.Failed ==>
      (CP.Covers(r.cloud, e.lab.project.value, r.lab.resources) <==> CP.Vacant(r.cloud, e.lab.project.value))
  {
    DeployedIsShaped(e.lab, r.lab);
    EP.DeployedLabIsSound(e, r, top);
    hide DP.Resumable, DP.Provisioned, Cloud.Valid, DP.StandAsSpecified, DP.LabMoved, Shaped;
    hide DP.Grows, NamedFor, CP.Owned;
    hide CP.Covers, CP.Vacant, DP.SuccessesKept, Deployed;
    GrowthStaysNamed(e.cloud, r.cloud, e.lab.project.value, e.lab.id);
    NothingCoversOnlyVacant(r.cloud, e.lab.project.value);
    if r.lab.state == Ready {
      ProvisionedCovers(r.cloud, e.lab.project.value, e.lab.id, top, r.lab.resources);
    }
  }

  lemma DeployedLabAccounts(w: World, w': World, l: LabId, p: ProjectId, top: D.Topology)
    requires EP.DeployEffect(w, w', l, top) && w.labs[l].project == Some(p) && p in w.projects
    requires Shaped(w.labs[l]) && w.labs[l].id == l && w.labs[l].state == Deploying && Accounts(w, l) && Owns(w, l)
    ensures Accounts(w', l) <==> !(w'.labs[l].state == State.Failed && !CP.Vacant(w'.cloud, p))
  {
    hide NamedFor, CP.Covers, CP.Vacant, Shaped;
    DeployedResources(w.DeployEnv(l), w'.DeployEnv(l), top);
    DeployedIsShaped(w.labs[l], w'.labs[l]);
    hide DP.Kept, DP.Grows, Cloud.Valid, Deployed;
  }

  lemma DeployIsOnlyProject(w: World, w': World, l: LabId, p: ProjectId, top: D.Topology)
    requires EP.DeployEffect(w, w', l, top) && Owns(w, l) && w.labs[l].project == Some(p)
    ensures OnlyProject(w, w', l, p)
  {
    hide DP.Kept, DP.Grows, Cloud.Valid, Deployed, Foreign;
    forall q | q != p
      ensures Foreign(w.cloud, w'.cloud, q)
    {
      GrowthIsForeign(w.cloud, w'.cloud, p, l, q);
    }
  }

  // The run gives up with something left exactly when its guard says so.
  lemma LeaksIff(w: World, op: Op, cfg: D.Config)
    requires op.Deploy? && Equipped(w, cfg.topology) && op.lab in w.labs && w.labs[op.lab].state == Deploying
    ensures w.labs[op.lab].project.Some? && op.lab in Step(w, op, cfg).labs
    ensures var w' := Step(w, op, cfg);
      Leaks(w, op, cfg) <==>
      w'.labs[op.lab].state == State.Failed && !CP.Vacant(w'.cloud, w.labs[op.lab].project.value)
  {
    hide Equipped, Step, CP.Vacant, D.Run, D.GivesUp, DP.Resumable, DP.DoneFrom, Shaped;
    var e := w.DeployEnv(op.lab);
    EP.DeployingIsResumable(w, op.lab, cfg.topology);
    DeployChangesOneLab(w, op, cfg);
    DO.RunFailsIff(e, cfg, op.now, op.o);
    if D.GivesUp(e, cfg, op.o) {
      DO.GivingUpVacatesIff(e, cfg, op.now, op.o);
    }
  }

  lemma DeployKeepsTidyIff(w: World, op: Op, cfg: D.Config)
    requires op.Deploy? && Equipped(w, cfg.topology) && Housed(w) && Tidy(w) && cfg.topology.NamesDistinct()
    ensures Tidy(Step(w, op, cfg)) <==> !Leaks(w, op, cfg)
  {
    if op.lab !in w.labs || w.labs[op.lab].state != Deploying {
      IdleDeploy(w, op, cfg);
    } else {
      var l, w', top := op.lab, Step(w, op, cfg), cfg.topology;
      hide Step, Equipped, Housed, Tidy, Leaks, EP.DeployEffect, CP.Vacant, Shaped, Accounts, DP.Resumable, OnlyProject;
      EP.DeployingIsResumable(w, l, top);
      HP.HousedFacts(w, l);
      var p := w.labs[l].project.value;
      EP.DeployRun(w, op, cfg);
      TidyAccounts(w, l);
      DeployIsOnlyProject(w, w', l, p, top);
      DeployedLabAccounts(w, w', l, p, top);
      LeaksIff(w, op, cfg);
      DeployKeepsProjects(w, w', l, top);
      OthersStayTidy(w, w', l, p);
    }
  }

  lemma DeployKeepsProjects(w: World, w': World, l: LabId, top: D.Topology)
    requires EP.DeployEffect(w, w', l, top)
    ensures w'.projects == w.projects
  {
  }

  // ---------------------------------------------------------------------
  // Cleanup runs.

  // Everything in a project in use is named for the lab it is in use for.
  ghost predicate ThingsOf(c: Cloud, p: ProjectId, m: LabId) {
    && (forall id :: id in c.servers && c.servers[id].project == p ==> c.servers[id].spec.name.lab == m)
    && (forall id :: id in c.networks && c.networks[id].project == p ==> c.networks[id].name.lab == m)
    && (forall k :: k in c.keypairs && k.0 == p ==> k.1.lab == m)
  }

  lemma OwnersThings(w: World, m: LabId, top: D.Topology)
    requires Equipped(w, top) && m in w.labs && Tenant(w.labs[m].state) && Owns(w, m) && Accounts(w, m)
    ensures ThingsOf(w.cloud, w.labs[m].project.value, m)
  {
    assert LabSound(w, m, top);
    TenantStates(w.labs[m]);
    hide Equipped, DP.Resumable;
  }

  // The handles of another lab cover such a project only if it is empty.
  lemma StrangersCoverNothing(c: Cloud, p: ProjectId, l: LabId, m: LabId, res: Resources)
    requires ThingsOf(c, p, m) && m != l && CP.Owned(c, p, l, res)
    ensures CP.Covers(c, p, res) <==> CP.Vacant(c, p)
  {
  }

  lemma TenantOfRow(w: World, p: ProjectId)
    requires Housed(w) && p in w.projects && w.projects[p].state in {P.Allocated, P.Cleaning}
    ensures w.projects[p].lab.Some? && w.projects[p].lab.value in w.labs
    ensures var m := w.projects[p].lab.value;
      Tenant(w.labs[m].state) && w.labs[m].project == Some(p) && Owns(w, m)
  {
    assert HasTenant(w, p);
  }

  // A run that frees a project in use for another lab leaves it empty exactly
  // if it was.
  lemma StrangerEmpties(w: World, l: LabId, p: ProjectId, top: D.Topology)
    requires Equipped(w, top) && Housed(w) && Tidy(w) && l in w.labs && p in w.projects
    requires w.projects[p].state in {P.Allocated, P.Cleaning} && w.projects[p].lab != Some(l)
    requires CP.Owned(w.cloud, p, l, w.labs[l].resources)
    ensures CP.Covers(w.cloud, p, w.labs[l].resources) <==> CP.Vacant(w.cloud, p)
  {
    hide Equipped, Housed, Tidy, CP.Covers, CP.Vacant, CP.Owned, ThingsOf, Accounts, Owns;
    TenantOfRow(w, p);
    var m := w.projects[p].lab.value;
    TidyAccounts(w, m);
    OwnersThings(w, m, top);
    StrangersCoverNothing(w.cloud, p, l, m, w.labs[l].resources);
  }

  lemma CleanupIsOnlyProject(w: World, w': World, l: LabId, p: ProjectId)
    requires EP.CleanupEffect(w, w', l) && HP.MovesOut(w, w', l, p)
    ensures OnlyProject(w, w', l, p)
  {
    hide CP.Shrinks, CP.Owned, Cloud.Valid, CP.Moved, Foreign;
    forall q | q != p
      ensures Foreign(w.cloud, w'.cloud, q)
    {
      ShrinkIsForeign(w.cloud, w'.cloud, p, l, q);
    }
  }

  // The lab itself still knows what is in its project; what it frees is empty
  // if it was its own.
  lemma CleanedLabAccounts(w: World, w': World, l: LabId, p: ProjectId)
    requires EP.CleanupEffect(w, w', l) && HP.MovesOut(w, w', l, p)
    requires Shaped(w.labs[l]) && IsCleanable(w.labs[l].state) && Accounts(w, l)
    requires w.projects[p].state == P.Free ==> CP.Vacant(w.cloud, p)
    requires CP.Emptied(w.cloud, w.CleanupEnv(l), w'.CleanupEnv(l))
    ensures Accounts(w', l)
    ensures w'.projects[p].state == P.Free ==>
      (CP.Vacant(w'.cloud, p) <==> w.projects[p].state == P.Free || CP.Covers(w.cloud, p, w.labs[l].resources))
    ensures Owns(w, l) ==> CP.Covers(w.cloud, p, w.labs[l].resources)
  {
    var res := w.labs[l].resources;
    MovedIsShaped(w.labs[l], w'.labs[l]);
    ShrinkStaysAccounted(w.cloud, w'.cloud, p, l, l, res);
    TenantStates(w.labs[l]);
    hide CP.Vacant, CP.Covers, CP.Shrinks, Cloud.Valid, NamedFor, CP.Owned, Shaped;
  }

  lemma CleanupKeepsTidyIff(w: World, op: Op, cfg: D.Config)
    requires op.Cleanup? && Equipped(w, cfg.topology) && Housed(w) && Tidy(w)
    ensures Tidy(Step(w, op, cfg)) <==> !Strips(w, op)
  {
    if op.lab !in w.labs || !IsCleanable(w.labs[op.lab].state) {
      IdleCleanup(w, op, cfg);
    } else {
      var l, e, w' := op.lab, w.CleanupEnv(op.lab), Step(w, op, cfg);
      hide Step, Equipped, Housed, Tidy, EP.CleanupEffect, Shaped, Accounts, C.Run, HP.MovesOut, OnlyProject;
      hide CP.Emptied, Cloud.Valid, CP.Owned, CP.Covers, CP.Vacant, CO.Concludes, C.RowsWellFormed;
      EP.CleanableIsOwned(w, l, cfg.topology);
      HP.HousedFacts(w, l);
      var p := w.labs[l].project.value;
      OrderlyOf(w, cfg.topology);
      EP.CleanupRun(w, op, cfg);
      HP.CleanupMovesOut(w, op, cfg);
      CP.RunEmpties(e, op.now, op.o);
      TidyAccounts(w, l);
      if w.projects[p].state == P.Free {
        TidyVacates(w, p);
      }
      CleanedLabAccounts(w, w', l, p);
      CleanupIsOnlyProject(w, w', l, p);
      OthersStayTidy(w, w', l, p);
      FreedByRun(w, op, cfg, p);
    }
  }

  lemma OrderlyOf(w: World, top: D.Topology)
    requires Equipped(w, top)
    ensures Orderly(w)
  {
  }

  // When a run frees a project that was in use, and what it then means for it.
  lemma FreedByRun(w: World, op: Op, cfg: D.Config, p: ProjectId)
    requires op.Cleanup? && Equipped(w, cfg.topology) && Housed(w) && Tidy(w)
    requires op.lab in w.labs && IsCleanable(w.labs[op.lab].state) && w.labs[op.lab].project == Some(p)
    requires HP.MovesOut(w, Step(w, op, cfg), op.lab, p)
    requires Step(w, op, cfg).CleanupEnv(op.lab) == C.Run(w.CleanupEnv(op.lab), op.now, op.o).env
    requires CP.Owned(w.cloud, p, op.lab, w.labs[op.lab].resources)
    ensures var freed := w.projects[p].state != P.Free && Step(w, op, cfg).projects[p].state == P.Free;
      && (freed && !Owns(w, op.lab) && !CP.Covers(w.cloud, p, w.labs[op.lab].resources) <==> Strips(w, op))
  {
    var l, e := op.lab, w.CleanupEnv(op.lab);
    assert Tenant(w.labs[l].state);
    HP.HousedFacts(w, l);
    hide Step, Equipped, Housed, Tidy, C.Run, CP.Owned, CP.Covers, CP.Vacant, CO.Concludes;
    if w.projects[p].state in {P.Allocated, P.Cleaning} {
      assert C.RowsWellFormed(w.projects) by { OrderlyOf(w, cfg.topology); }
      CO.RunFreesIff(e, op.now, op.o);
      if w.projects[p].lab != Some(l) {
        StrangerEmpties(w, l, p, cfg.topology);
      }
    }
  }

  // ---------------------------------------------------------------------

  // A step keeps the books exactly unless it makes a lab forget what is in its
  // project, or frees one in use for another lab with something in it.
  lemma StepKeepsTidyIff(w: World, op: Op, cfg: D.Config)
    requires Equipped(w, cfg.topology) && Housed(w) && Tidy(w) && cfg.topology.NamesDistinct()
    ensures Tidy(Step(w, op, cfg)) <==> !Forgets(w, op, cfg) && !Strips(w, op)
  {
    EP.EquippedFacts(w, cfg.topology);
    hide Equipped, Housed, Tidy, Step, Orderly, NamesKnown, EP.LabSoundIn, Shaped;
    if op.Create? {
      CreateKeepsTidy(w, op, cfg);
    } else if op.Deploy? {
      DeployKeepsTidyIff(w, op, cfg);
    } else if op.Cleanup? {
      CleanupKeepsTidyIff(w, op, cfg);
    } else {
      UserOpKeepsTidyIff(w, op, cfg);
    }
  }
}
