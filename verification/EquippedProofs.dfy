// What every step keeps of the cloud, even when two labs are in one project:
// a deploying lab can be resumed, a lab's handles name only what is its own,
// and, an early unfreeze aside, a usable lab has its whole stand.

module EquippedProofs {
  import opened Types
  import opened CloudDomain
  import opened LabDomain
  import opened Lifecycle
  import opened OrderlyProofs
  import D = DeployDomain
  import DP = DeployProofs
  import C = CleanupDomain
  import CP = CleanupProofs
  import S = LabService

  // ---------------------------------------------------------------------
  // Changes to the cloud made for other labs.

  // What is named for lab m is the same in c and d, and old ids have not been
  // reused.
  ghost predicate Elsewhere(c: Cloud, d: Cloud, m: LabId) {
    && c.issued <= d.issued
    && (forall id :: id in c.servers && c.servers[id].spec.name.lab == m ==>
          id in d.servers && d.servers[id] == c.servers[id])
    && (forall id :: id in d.servers && (d.servers[id].spec.name.lab == m || id <= c.issued) ==>
          id in c.servers && d.servers[id] == c.servers[id])
    && (forall id :: id in c.networks && c.networks[id].name.lab == m ==>
          id in d.networks && d.networks[id] == c.networks[id])
    && (forall id :: id in d.networks && (d.networks[id].name.lab == m || id <= c.issued) ==>
          id in c.networks && d.networks[id] == c.networks[id])
    && (forall k :: k in c.keypairs && k.1.lab == m ==> k in d.keypairs)
    && (d.issued <= ADDRESSES ==> forall ip ::
          ip in c.floating && c.floating[ip] in c.servers && c.servers[c.floating[ip]].spec.name.lab == m ==>
            ip in d.floating && d.floating[ip] == c.floating[ip])
  }

  lemma GrowthIsElsewhere(c: Cloud, d: Cloud, p: ProjectId, l: LabId, m: LabId)
    requires c.Valid() && DP.Grows(c, d, p, l) && m != l
    ensures Elsewhere(c, d, m)
  {
  }

  lemma ShrinkIsElsewhere(c: Cloud, d: Cloud, p: ProjectId, l: LabId, m: LabId)
    requires c.Valid() && CP.Shrinks(c, d, p, l) && m != l
    ensures Elsewhere(c, d, m)
  {
  }

  lemma ResumableElsewhere(e: D.Env, v: D.Vault, d: Cloud, top: D.Topology)
    requires DP.Resumable(e, top) && d.Valid() && Elsewhere(e.cloud, d, e.lab.id)
    ensures DP.Resumable(D.Env(e.lab, e.records, v, d), top)
  {
    var c, p, l := e.cloud, e.lab.project.value, e.lab.id;
    forall id | id in d.servers && d.servers[id].project == p
      && d.servers[id].spec.name.VmName? && d.servers[id].spec.name.lab == l
      ensures DP.AsSpecified(d, p, l, top, d.servers[id].spec)
    {
      assert DP.AsSpecified(c, p, l, top, c.servers[id].spec);
    }
    var k := DP.DoneFrom(e.records, 0);
    HoldsElsewhere(c, d, p, l, top, DP.StateAfter(e.records, k), k);
  }

  lemma HoldsElsewhere(c: Cloud, d: Cloud, p: ProjectId, l: LabId, top: D.Topology, st: D.DeployState, k: nat)
    requires DP.Holds(c, p, l, top, st, k) && Elsewhere(c, d, l)
    ensures DP.Holds(d, p, l, top, st, k)
  {
    if k >= 3 {
      forall i | 0 <= i < |top.vms|
        ensures d.IsServer(st.servers[i], p, VmName(l, top.vms[i].name))
      {
        assert c.IsServer(st.servers[i], p, VmName(l, top.vms[i].name));
      }
    }
    if k >= 4 && d.issued <= ADDRESSES {
      forall i | 0 <= i < |top.vms|
        ensures d.IsAddress(st.ips[i], st.servers[i])
      {
        assert c.IsServer(st.servers[i], p, VmName(l, top.vms[i].name));
        assert c.IsAddress(st.ips[i], st.servers[i]);
      }
    }
  }

  lemma ProvisionedElsewhere(c: Cloud, d: Cloud, p: ProjectId, l: LabId, top: D.Topology, res: Resources)
    requires DP.Provisioned(c, p, l, top, res) && Elsewhere(c, d, l)
    ensures DP.Provisioned(d, p, l, top, res)
  {
    if d.issued <= ADDRESSES {
      forall i | 0 <= i < |top.vms|
        ensures d.IsAddress(res.ips[i], res.servers[i])
      {
        assert c.IsAddress(res.ips[i], res.servers[i]);
      }
    }
  }

  lemma OwnedElsewhere(c: Cloud, d: Cloud, p: ProjectId, m: LabId, res: Resources)
    requires CP.Owned(c, p, m, res) && Elsewhere(c, d, m)
    ensures CP.Owned(d, p, m, res)
  {
    forall id | id in res.servers
      ensures id <= d.issued && CP.OwnsServer(d, p, m, id)
    {
      assert CP.OwnsServer(c, p, m, id);
    }
    forall id | res.network == Some(id)
      ensures id <= d.issued && CP.OwnsNetwork(d, p, m, id)
    {
      assert CP.OwnsNetwork(c, p, m, id);
    }
  }

  lemma OwnedAfterShrinking(c: Cloud, d: Cloud, p: ProjectId, l: LabId, res: Resources)
    requires CP.Owned(c, p, l, res) && CP.Shrinks(c, d, p, l)
    ensures CP.Owned(d, p, l, res)
  {
    forall id | id in res.servers
      ensures id <= d.issued && CP.OwnsServer(d, p, l, id)
    {
      assert CP.OwnsServer(c, p, l, id);
    }
    forall id | res.network == Some(id)
      ensures id <= d.issued && CP.OwnsNetwork(d, p, l, id)
    {
      assert CP.OwnsNetwork(c, p, l, id);
    }
  }

  ghost predicate LabSoundIn(w: World, m: LabId, top: D.Topology) {
    m in w.labs && w.labs[m].id == m && LabSound(w, m, top)
  }

  lemma EquippedFacts(w: World, top: D.Topology)
    requires Equipped(w, top)
    ensures Orderly(w) && w.cloud.Valid() && NamesKnown(w)
    ensures forall l :: l in w.labs ==> LabSoundIn(w, l, top) && Shaped(w.labs[l])
  {
    hide Shaped, LabSound, C.RowsWellFormed, Cloud.Valid;
  }

  // A step on lab l and its part of the cloud leaves the other labs sound.
  lemma OthersStaySound(w: World, w': World, l: LabId, top: D.Topology, m: LabId)
    requires LabSoundIn(w, m, top) && m != l && l in w'.labs
    requires w'.labs == w.labs[l := w'.labs[l]] && w'.RecordsOf(m) == w.RecordsOf(m)
    requires w'.cloud.Valid() && Elsewhere(w.cloud, w'.cloud, m)
    ensures LabSound(w', m, top)
    ensures Serves(w, m, top) ==> Serves(w', m, top)
  {
    var lab := w.labs[m];
    hide DP.Resumable, DP.Provisioned, CP.Owned, Elsewhere, Cloud.Valid;
    if lab.state == Deploying {
      ResumableElsewhere(w.DeployEnv(m), w'.vault, w'.cloud, top);
    }
    if Tenant(lab.state) && lab.project.Some? {
      OwnedElsewhere(w.cloud, w'.cloud, lab.project.value, m, lab.resources);
      if lab.state in {Ready, Frozen} && Serves(w, m, top) {
        ProvisionedElsewhere(w.cloud, w'.cloud, lab.project.value, m, top, lab.resources);
      }
    }
  }

  // Only lab l, its records and its part of the cloud changed.
  ghost predicate OnlyLab(w: World, w': World, l: LabId, top: D.Topology) {
    && l in w.labs && l in w'.labs && w'.labs == w.labs[l := w'.labs[l]]
    && (forall m :: m != l ==> w'.RecordsOf(m) == w.RecordsOf(m))
    && w'.cloud.Valid()
    && (forall m :: m != l ==> Elsewhere(w.cloud, w'.cloud, m))
    && LabSound(w', l, top)
  }

  lemma OnlyLabKeepsEquipped(w: World, w': World, l: LabId, top: D.Topology)
    requires Equipped(w, top) && OnlyLab(w, w', l, top) && Orderly(w') && NamesKnown(w')
    ensures Equipped(w', top)
    ensures Served(w, top) && Serves(w', l, top) ==> Served(w', top)
  {
    hide Equipped, Orderly, NamesKnown, LabSound, Serves, Elsewhere, Cloud.Valid, Shaped;
    EquippedFacts(w, top);
    forall m | m in w'.labs && m != l
      ensures LabSound(w', m, top) && (Served(w, top) ==> Serves(w', m, top))
    {
      assert LabSoundIn(w, m, top);
      OthersStaySound(w, w', l, top, m);
    }
    assert Equipped(w', top) by { Equips(w', top); }
  }

  lemma Equips(w: World, top: D.Topology)
    requires Orderly(w) && w.cloud.Valid() && NamesKnown(w)
    requires forall l :: l in w.labs ==> LabSound(w, l, top)
    ensures Equipped(w, top)
  {
    hide Orderly, Cloud.Valid, NamesKnown, LabSound;
  }

  // ---------------------------------------------------------------------
  // User operations.

  lemma RelabelKeepsEquipped(w: World, w': World, l: LabId, next: Lab, top: D.Topology)
    requires Equipped(w, top) && Orderly(w') && l in w.labs && Relabels(w.labs[l], next)
    requires w' == w.(labs := w.labs[l := next])
    ensures Equipped(w', top)
    ensures Served(w, top) && (next.state in {Ready, Frozen} ==> w.labs[l].state in {Ready, Frozen}) ==> Served(w', top)
  {
    hide Shaped, C.RowsWellFormed, DP.Resumable, DP.Provisioned, CP.Owned, Cloud.Valid, Orderly;
    forall m | m in w'.labs
      ensures LabSound(w', m, top)
      ensures Served(w, top) && (next.state in {Ready, Frozen} ==> w.labs[l].state in {Ready, Frozen})
              ==> Serves(w', m, top)
    {
      assert LabSound(w, m, top);
      assert Served(w, top) ==> Serves(w, m, top);
    }
  }

  // An early unfreeze is the one that leaves a ready lab with nothing.
  lemma EarlyUnfreezeServesNothing(w: World, op: Op, cfg: D.Config)
    requires Equipped(w, cfg.topology) && UnfreezesTooEarly(w, op)
    ensures !Served(Step(w, op, cfg), cfg.topology)
  {
    hide DP.Resumable, CP.Owned, C.RowsWellFormed, Cloud.Valid;
    assert Shaped(w.labs[op.lab]);
    ActiveHasNoRival(w.labs, w.labs[op.lab]);
    var w' := Step(w, op, cfg);
    assert w'.labs[op.lab].state == Ready && w'.labs[op.lab].resources == NO_RESOURCES;
    assert !Serves(w', op.lab, cfg.topology);
  }

  lemma UserOpKeepsEquipped(w: World, op: Op, cfg: D.Config)
    requires IsUserOp(op) && Equipped(w, cfg.topology)
    ensures Equipped(Step(w, op, cfg), cfg.topology)
    ensures Served(w, cfg.topology) ==> (Served(Step(w, op, cfg), cfg.topology) <==> !UnfreezesTooEarly(w, op))
  {
    EquippedFacts(w, cfg.topology);
    hide Equipped, Served, Shaped, Step, Relabels, Orderly, UnfreezesTooEarly;
    UserOpKeepsOrderly(w, op, cfg);
    UserOpMovesOneLab(w, op, cfg);
    if UnfreezesTooEarly(w, op) {
      EarlyUnfreezeServesNothing(w, op, cfg);
    }
    var w' := Step(w, op, cfg);
    if w' != w {
      RelabelKeepsEquipped(w, w', op.lab, w'.labs[op.lab], cfg.topology);
    }
  }

  // ---------------------------------------------------------------------
  // Creating a lab.

  lemma NewLabIsSound(w: World, w': World, lab: Lab, p: ProjectId, top: D.Topology)
    requires Equipped(w, top) && Rents(w, w', lab, p)
    ensures LabSound(w', lab.id, top)
  {
    hide Orderly, LabSound;
    assert w'.RecordsOf(lab.id) == map[];
    DP.DoneFromIs(map[], 0, 0);
    NewLabIsResumable(w'.DeployEnv(lab.id), top);
    NewLabOwnsNothing(w', lab.id, p, top);
  }

  lemma NewLabIsResumable(e: D.Env, top: D.Topology)
    requires e.cloud.Valid() && e.lab.project.Some? && e.records == map[]
    requires forall id :: id in e.cloud.servers ==> e.cloud.servers[id].spec.name.lab != e.lab.id
    requires forall id :: id in e.cloud.networks ==> e.cloud.networks[id].name.lab != e.lab.id
    ensures DP.Resumable(e, top)
  {
    DP.DoneFromIs(map[], 0, 0);
  }

  lemma NewLabOwnsNothing(w: World, l: LabId, p: ProjectId, top: D.Topology)
    requires l in w.labs && w.labs[l].project == Some(p) && w.labs[l].resources == NO_RESOURCES
    requires w.labs[l].state == Deploying && DP.Resumable(w.DeployEnv(l), top)
    ensures LabSound(w, l, top)
  {
  }

  // The new lab joins, the others stay.
  lemma JoiningKeepsEquipped(w: World, w': World, lab: Lab, top: D.Topology)
    requires Equipped(w, top) && Orderly(w') && lab.id !in w.labs
    requires w'.labs == w.labs[lab.id := lab] && w'.cloud == w.cloud && w'.records == w.records && w'.vault == w.vault
    requires LabSound(w', lab.id, top) && lab.state !in {Ready, Frozen}
    ensures Equipped(w', top)
    ensures Served(w, top) ==> Served(w', top)
  {
    hide Orderly, DP.Resumable, DP.Provisioned, CP.Owned, Cloud.Valid;
    forall m | m in w.labs
      ensures LabSound(w', m, top) && (Served(w, top) ==> Serves(w', m, top))
    {
      assert LabSound(w, m, top);
      assert w'.DeployEnv(m) == w.DeployEnv(m);
      assert Served(w, top) ==> Serves(w, m, top);
    }
    assert NamesKnown(w');
  }

  lemma RejectedIsSound(w: World, l: LabId, top: D.Topology)
    requires l in w.labs && w.labs[l].state == Rejected
    ensures LabSound(w, l, top)
  {
  }

  lemma CreateKeepsEquipped(w: World, op: Op, cfg: D.Config)
    requires op.Create? && Equipped(w, cfg.topology)
    ensures Equipped(Step(w, op, cfg), cfg.topology)
    ensures Served(w, cfg.topology) ==> Served(Step(w, op, cfg), cfg.topology)
  {
    EquippedFacts(w, cfg.topology);
    hide Equipped, Served, Shaped, Step, S.CreateLab, LabSound, LabSoundIn;
    CreateKeepsOrderly(w, op, cfg);
    var i, r, w' := op.input, S.CreateLab(w.Tables(), op.input), Step(w, op, cfg);
    hide C.RowsWellFormed;
    if r.result.Ok? {
      var lab := r.result.value;
      CreatedLabRents(w, i, cfg);
      NewLabIsSound(w, w', lab, lab.project.value, cfg.topology);
      JoiningKeepsEquipped(w, w', lab, cfg.topology);
    } else if r.result.error == PoolEmpty {
      var lab := PoolEmptyRejects(w, i, cfg);
      RejectedIsSound(w', lab.id, cfg.topology);
      JoiningKeepsEquipped(w, w', lab, cfg.topology);
    } else {
      RefusalChangesNothing(w, i, cfg);
    }
  }

  // ---------------------------------------------------------------------
  // Deploy runs.

  lemma ProvisionedIsOwned(c: Cloud, p: ProjectId, l: LabId, top: D.Topology, res: Resources)
    requires c.Valid() && DP.Provisioned(c, p, l, top, res)
    ensures CP.Owned(c, p, l, res)
  {
    forall id | id in res.servers
      ensures id <= c.issued && CP.OwnsServer(c, p, l, id)
    {
      var i :| 0 <= i < |res.servers| && res.servers[i] == id;
      assert id in c.servers && DP.IsMachine(c.servers[id].spec, l, top.vms[i], res.network, res.keypair);
    }
  }

  // The lab a run leaves behind.
  lemma DeployedLabIsSound(e: D.Env, r: D.Env, top: D.Topology)
    requires Shaped(e.lab) && e.lab.state == Deploying && DP.Kept(e, r, top) && Deployed(e.lab, r.lab)
    ensures r.lab.state == Deploying ==> DP.Resumable(r, top)
    ensures r.lab.state == Ready ==> DP.Provisioned(r.cloud, r.lab.project.value, r.lab.id, top, r.lab.resources)
    ensures r.lab.project.Some? && CP.Owned(r.cloud, r.lab.project.value, r.lab.id, r.lab.resources)
  {
    DeployedIsShaped(e.lab, r.lab);
    hide DP.Resumable, DP.Grows, DP.StandAsSpecified, DP.Provisioned, DP.SuccessesKept, Cloud.Valid;
    if r.lab.state == Ready {
      hide CP.Owned;
      ProvisionedIsOwned(r.cloud, r.lab.project.value, r.lab.id, top, r.lab.resources);
    }
  }

  lemma NamesStayKnown(w: World, w': World, l: LabId, p: ProjectId)
    requires NamesKnown(w) && l in w.labs && w'.labs.Keys == w.labs.Keys
    requires DP.Grows(w.cloud, w'.cloud, p, l)
    requires forall k :: k in w'.records ==> k == l || k in w.records
    ensures NamesKnown(w')
  {
  }

  lemma DeployingIsResumable(w: World, l: LabId, top: D.Topology)
    requires Equipped(w, top) && l in w.labs && w.labs[l].state == Deploying
    ensures w.labs[l].project.Some? && w.labs[l].id == l && DP.Resumable(w.DeployEnv(l), top)
    ensures w.cloud.Valid() && Shaped(w.labs[l])
  {
    hide DP.Resumable, CP.Owned, Cloud.Valid, C.RowsWellFormed;
    assert LabSound(w, l, top);
  }

  // A deploying lab's run, as the world sees it.
  ghost predicate DeployEffect(w: World, w': World, l: LabId, top: D.Topology) {
    && l in w.labs && l in w'.labs && w.labs[l].project.Some?
    && w'.labs == w.labs[l := w'.labs[l]] && w'.projects == w.projects
    && (forall m :: m != l ==> w'.RecordsOf(m) == w.RecordsOf(m))
    && (forall k :: k in w'.records ==> k == l || k in w.records)
    && DP.Kept(w.DeployEnv(l), w'.DeployEnv(l), top)
    && Deployed(w.labs[l], w'.labs[l])
    && DP.Grows(w.cloud, w'.cloud, w.labs[l].project.value, l)
    && w.cloud.Valid() && w'.cloud.Valid()
  }

  lemma DeployRun(w: World, op: Op, cfg: D.Config)
    requires op.Deploy? && Equipped(w, cfg.topology) && cfg.topology.NamesDistinct()
    requires op.lab in w.labs && w.labs[op.lab].state == Deploying
    ensures DeployEffect(w, Step(w, op, cfg), op.lab, cfg.topology)
  {
    hide DP.Resumable, D.Run, Step, Equipped, DP.Grows, DP.LabMoved, DP.StandAsSpecified;
    hide DP.SuccessesKept, Cloud.Valid, Deployed, Shaped;
    DeployingIsResumable(w, op.lab, cfg.topology);
    DeployChangesOneLab(w, op, cfg);
    DP.RunKeeps(w.DeployEnv(op.lab), cfg, op.now, op.o);
    RunDeploys(w.DeployEnv(op.lab), cfg, op.now, op.o);
  }

  lemma DeployEffectIsOnlyLab(w: World, w': World, l: LabId, top: D.Topology)
    requires DeployEffect(w, w', l, top) && Shaped(w.labs[l]) && w.labs[l].id == l && w.labs[l].state == Deploying
    ensures OnlyLab(w, w', l, top) && Serves(w', l, top)
    ensures NamesKnown(w) ==> NamesKnown(w')
  {
    hide DP.Resumable, DP.Provisioned, CP.Owned, Elsewhere, Cloud.Valid, DP.Kept, DP.Grows, Shaped;
    hide Deployed, NamesKnown;
    if NamesKnown(w) {
      NamesStayKnown(w, w', l, w.labs[l].project.value);
    }
    DeployedIsShaped(w.labs[l], w'.labs[l]);
    DeployedLabIsSound(w.DeployEnv(l), w'.DeployEnv(l), top);
    forall m | m != l
      ensures Elsewhere(w.cloud, w'.cloud, m)
    {
      GrowthIsElsewhere(w.cloud, w'.cloud, w.labs[l].project.value, l, m);
    }
  }

  lemma DeployKeepsEquipped(w: World, op: Op, cfg: D.Config)
    requires op.Deploy? && Equipped(w, cfg.topology) && cfg.topology.NamesDistinct()
    ensures Equipped(Step(w, op, cfg), cfg.topology)
    ensures Served(w, cfg.topology) ==> Served(Step(w, op, cfg), cfg.topology)
  {
    if op.lab !in w.labs || w.labs[op.lab].state != Deploying {
      IdleDeploy(w, op, cfg);
    } else {
      EquippedFacts(w, cfg.topology);
      hide Step, Equipped, Served, Orderly, OnlyLab, NamesKnown, Shaped, LabSound, DeployEffect, Cloud.Valid, Serves;
      var w' := Step(w, op, cfg);
      DeployKeepsOrderly(w, op, cfg);
      DeployRun(w, op, cfg);
      assert LabSoundIn(w, op.lab, cfg.topology);
      DeployEffectIsOnlyLab(w, w', op.lab, cfg.topology);
      OnlyLabKeepsEquipped(w, w', op.lab, cfg.topology);
    }
  }

  // ---------------------------------------------------------------------
  // Cleanup runs.

  lemma ShrinkKeepsNames(w: World, w': World, p: ProjectId, l: LabId)
    requires NamesKnown(w) && w'.labs.Keys == w.labs.Keys && w'.records == w.records
      && CP.Shrinks(w.cloud, w'.cloud, p, l)
    ensures NamesKnown(w')
  {
  }

  // A cleanable lab's run, as the world sees it.
  ghost predicate CleanupEffect(w: World, w': World, l: LabId) {
    && l in w.labs && l in w'.labs && w.labs[l].project.Some? && w.labs[l].id == l
    && w'.labs == w.labs[l := w'.labs[l]] && w'.records == w.records
    && CP.Moved(w.labs[l], w'.labs[l])
    && (w' == w || w'.labs[l].state in {Cleaning, Done})
    && w.cloud.Valid() && w'.cloud.Valid()
    && CP.Shrinks(w.cloud, w'.cloud, w.labs[l].project.value, l)
    && CP.Owned(w.cloud, w.labs[l].project.value, l, w.labs[l].resources)
  }

  lemma CleanableIsOwned(w: World, l: LabId, top: D.Topology)
    requires Equipped(w, top) && l in w.labs && IsCleanable(w.labs[l].state)
    ensures w.labs[l].project.Some? && w.labs[l].id == l && Shaped(w.labs[l]) && Tenant(w.labs[l].state)
    ensures CP.Owned(w.cloud, w.labs[l].project.value, l, w.labs[l].resources) && w.cloud.Valid()
    ensures C.RowsWellFormed(w.projects)
  {
    hide DP.Resumable, CP.Owned, Cloud.Valid, C.RowsWellFormed;
    assert LabSound(w, l, top);
  }

  lemma CleanupRun(w: World, op: Op, cfg: D.Config)
    requires op.Cleanup? && Equipped(w, cfg.topology)
    requires op.lab in w.labs && IsCleanable(w.labs[op.lab].state)
    ensures CleanupEffect(w, Step(w, op, cfg), op.lab)
  {
    hide C.Run, Step, Equipped, Cloud.Valid, CP.Shrinks, CP.Owned, CP.Moved, C.RowsWellFormed, Shaped;
    var e := w.CleanupEnv(op.lab);
    CleanableIsOwned(w, op.lab, cfg.topology);
    CleanupChangesOneLab(w, op, cfg);
    CP.RunMoves(e, op.now, op.o);
    CP.RunShrinks(e, op.now, op.o);
    if C.Run(e, op.now, op.o).env == e {
      assert Step(w, op, cfg) == w;
    }
  }

  lemma CleanupEffectIsOnlyLab(w: World, w': World, l: LabId, top: D.Topology)
    requires CleanupEffect(w, w', l) && LabSoundIn(w, l, top) && Shaped(w.labs[l]) && IsCleanable(w.labs[l].state)
    ensures OnlyLab(w, w', l, top)
    ensures NamesKnown(w) ==> NamesKnown(w')
    ensures Serves(w, l, top) ==> Serves(w', l, top)
  {
    hide DP.Resumable, DP.Provisioned, CP.Owned, Elsewhere, Cloud.Valid, CP.Shrinks, Shaped, CP.Moved, NamesKnown;
    if NamesKnown(w) {
      ShrinkKeepsNames(w, w', w.labs[l].project.value, l);
    }
    MovedIsShaped(w.labs[l], w'.labs[l]);
    OwnedAfterShrinking(w.cloud, w'.cloud, w.labs[l].project.value, l, w.labs[l].resources);
    forall m | m != l
      ensures Elsewhere(w.cloud, w'.cloud, m)
    {
      ShrinkIsElsewhere(w.cloud, w'.cloud, w.labs[l].project.value, l, m);
    }
    assert w'.RecordsOf(l) == w.RecordsOf(l);
  }

  lemma CleanupKeepsEquipped(w: World, op: Op, cfg: D.Config)
    requires op.Cleanup? && Equipped(w, cfg.topology)
    ensures Equipped(Step(w, op, cfg), cfg.topology)
    ensures Served(w, cfg.topology) ==> Served(Step(w, op, cfg), cfg.topology)
  {
    if op.lab !in w.labs || !IsCleanable(w.labs[op.lab].state) {
      IdleCleanup(w, op, cfg);
    } else {
      EquippedFacts(w, cfg.topology);
      hide Step, Equipped, Served, Orderly, OnlyLab, NamesKnown, Shaped, LabSound, CleanupEffect, Cloud.Valid, Serves;
      var w' := Step(w, op, cfg);
      CleanupKeepsOrderly(w, op, cfg);
      CleanupRun(w, op, cfg);
      assert LabSoundIn(w, op.lab, cfg.topology);
      CleanupEffectIsOnlyLab(w, w', op.lab, cfg.topology);
      if Served(w, cfg.topology) {
        assert Serves(w, op.lab, cfg.topology) by { ServedServes(w, op.lab, cfg.topology); }
      }
      OnlyLabKeepsEquipped(w, w', op.lab, cfg.topology);
    }
  }

  lemma ServedServes(w: World, l: LabId, top: D.Topology)
    requires Served(w, top) && l in w.labs
    ensures Serves(w, l, top)
  {
  }

  // ---------------------------------------------------------------------

  // Every step keeps labs equipped, and exactly an early unfreeze leaves a
  // usable lab without its stand, even where two labs share a project.
  lemma StepKeepsServedIff(w: World, op: Op, cfg: D.Config)
    requires Equipped(w, cfg.topology) && cfg.topology.NamesDistinct()
    ensures Equipped(Step(w, op, cfg), cfg.topology)
    ensures Served(w, cfg.topology) ==> (Served(Step(w, op, cfg), cfg.topology) <==> !UnfreezesTooEarly(w, op))
  {
    hide Equipped, Step, Served;
    if op.Create? {
      CreateKeepsEquipped(w, op, cfg);
    } else if op.Deploy? {
      DeployKeepsEquipped(w, op, cfg);
    } else if op.Cleanup? {
      CleanupKeepsEquipped(w, op, cfg);
    } else {
      UserOpKeepsEquipped(w, op, cfg);
    }
  }
}
