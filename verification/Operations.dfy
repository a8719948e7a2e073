// The user-facing operations as the programs they are: load the aggregate,
// check the caller, change the aggregate, save it.

module Operations {
  import opened Types
  import opened Identity
  import opened LabService
  import opened Storage
  import L = LabDomain
  import C = CleanupDomain
  import Quota

  class LabOperations {
    const db: Database

    constructor (db: Database)
      ensures this.db == db
    {
      this.db := db;
    }

    // Rents a project and creates the lab in one transaction.
    method CreateLab(i: CreateInput) returns (r: Result<L.Lab>)
      requires C.RowsWellFormed(db.projects)
      modifies db`labs, db`projects
      ensures Reply(db.Tables(), r) == LabService.CreateLab(old(db.Tables()), i)
    {
      hide C.RowsWellFormed, PoolHas, Candidate, HasActive, Quota.Allowed;
      if i.quota.Unreadable? {
        return Err(StorageFailed);
      }
      if i.quota.age > QUOTA_MAX_AGE {
        return Err(CloudUnavailable);
      }
      if !Quota.Allowed(i.quota.snapshot, RESOURCE_REQUEST, i.thresholdPct) {
        return Err(QuotaExceeded);
      }
      if i.domain.None? {
        return Err(NotFound);
      }
      if !i.works(1) {
        return Err(StorageFailed);
      }
      if HasActive(db.labs, i.student, i.course) {
        return Err(LabAlreadyActive);
      }
      var labs, projects := db.labs, db.projects;
      r := Allocate(i);
      if r.Err? && r.error != PoolEmpty {
        db.Rollback(labs, projects);
      }
    }

    // The writes of the transaction, up to the first that fails.
    method Allocate(i: CreateInput) returns (r: Result<L.Lab>)
      requires C.RowsWellFormed(db.projects) && i.domain.Some? && !HasActive(db.labs, i.student, i.course)
      modifies db`labs, db`projects
      ensures Reply(if r.Err? && r.error != PoolEmpty then old(db.Tables()) else db.Tables(), r)
           == Written(old(db.Tables()), i)
    {
      hide PoolHas, Candidate, HasActive, Opened, C.RowsWellFormed;
      if !i.works(2) {
        return Err(StorageFailed);
      }
      var lab, inserted := Insert(i);
      if !inserted {
        return Err(LabAlreadyActive);
      }
      if !i.works(3) {
        return Err(StorageFailed);
      }
      var project := db.AllocateOneFree(i.domain.value, i.id, i.now);
      OpenedSeat(i);
      NewcomerHasNoRival(old(db.labs), lab.Value(), db.labs[i.id]);
      hide L.HasRival, L.SameSeat;
      if project.None? {
        r := Reject(i, lab);
      } else {
        r := Assign(i, lab, project.value);
      }
    }

    // Creates the lab in pending_project and inserts its row.
    method Insert(i: CreateInput) returns (lab: L.LabInstance, ok: bool)
      requires !HasActive(db.labs, i.student, i.course)
      modifies db`labs
      ensures fresh(lab) && (ok <==> i.id !in old(db.labs))
      ensures ok ==> lab.Value() == Opened(i) && db.labs == old(db.labs)[i.id := Opened(i)]
      ensures !ok ==> db.labs == old(db.labs)
    {
      lab := new L.LabInstance(i.id, i.student, i.course, i.template, i.now);
      var _ := lab.Transition(L.PendingProject, "quota_ok", i.now);
      NewcomerHasNoRival(db.labs, lab.Value(), lab.Value());
      ok := db.CreateLab(lab);
    }

    // The pool is empty: the lab is kept as a record of the attempt.
    method Reject(i: CreateInput, lab: L.LabInstance) returns (r: Result<L.Lab>)
      requires lab.Value() == Opened(i)
      modifies lab, db`labs
      ensures r == Err(if i.works(4) && i.works(6) then PoolEmpty else StorageFailed)
      ensures r.error == PoolEmpty ==>
        db.labs == old(db.labs)[i.id := Opened(i).Transition(L.Rejected, "pool_empty", i.now).lab.Saved()]
    {
      var _ := lab.Transition(L.Rejected, "pool_empty", i.now);
      if !i.works(4) {
        return Err(StorageFailed);
      }
      var _ := db.SaveLab(lab);
      r := Err(if i.works(6) then PoolEmpty else StorageFailed);
    }

    method Assign(i: CreateInput, lab: L.LabInstance, p: ProjectId) returns (r: Result<L.Lab>)
      requires lab.Value() == Opened(i) && !L.HasRival(db.labs, lab.Value()) && db.IsRented(p)
      modifies lab, db`labs, db`projects
      ensures db.projects == old(db.projects)
      ensures var rented := Opened(i).AssignProject(p, i.now).lab.Saved();
        if i.works(4) && i.works(5) && i.works(6) then r == Ok(rented) && db.labs == old(db.labs)[i.id := rented]
        else r == Err(StorageFailed)
    {
      var _ := lab.AssignProject(p, i.now);
      assert L.HasRival(db.labs, lab.Value()) == L.HasRival(db.labs, Opened(i));
      if !i.works(4) {
        return Err(StorageFailed);
      }
      var _ := db.SaveLab(lab);
      if !i.works(5) {
        return Err(StorageFailed);
      }
      db.ResaveProject(p);
      if !i.works(6) {
        return Err(StorageFailed);
      }
      r := Ok(lab.Value());
    }

    // Saves a changed aggregate and answers with it.
    method Save(lab: L.LabInstance, stored: bool) returns (r: Result<L.Lab>)
      modifies db`labs, lab
      ensures Reply(db.Tables(), r) == Commit(old(db.Tables()), L.Change(old(lab.Value()), None), stored)
    {
      if !stored {
        return Err(StorageFailed);
      }
      var ok := db.SaveLab(lab);
      r := if ok then Ok(lab.Value()) else Err(StorageFailed);
    }

    method StopLab(s: Subject, id: LabId, now: Time, stored: bool) returns (r: Result<L.Lab>)
      modifies db`labs
      ensures Reply(db.Tables(), r) == LabService.StopLab(old(db.Tables()), s, id, now, stored)
    {
      if id !in db.labs {
        return Err(NotFound);
      }
      var lab := new L.LabInstance.FromRow(db.labs[id]);
      if !Permitted(s, LabDelete, lab.Value()) {
        return Err(Error.Forbidden);
      }
      if lab.state != L.Ready && lab.state != L.Frozen && lab.state != L.State.Failed {
        return Err(InvalidTransition);
      }
      var error := lab.Transition(L.Cleaning, "stop_requested", now);
      if error.Some? {
        return Err(error.value);
      }
      r := Save(lab, stored);
    }

    method FreezeLab(s: Subject, id: LabId, reason: string, seconds: Option<int>, now: Time, stored: bool)
      returns (r: Result<L.Lab>)
      modifies db`labs
      ensures Reply(db.Tables(), r) == LabService.FreezeLab(old(db.Tables()), s, id, reason, seconds, now, stored)
    {
      if id !in db.labs {
        return Err(NotFound);
      }
      var lab := new L.LabInstance.FromRow(db.labs[id]);
      if !Permitted(s, LabFreeze, lab.Value()) {
        return Err(Error.Forbidden);
      }
      if seconds.Some? && s.role == Student {
        return Err(Error.Forbidden);
      }
      var length := FREEZE_DURATION;
      if seconds.Some? {
        length := seconds.value;
      }
      var error := lab.Freeze(s.user, reason, now + length, now);
      if error.Some? {
        return Err(error.value);
      }
      r := Save(lab, stored);
    }

    method UnfreezeLab(s: Subject, id: LabId, now: Time, stored: bool) returns (r: Result<L.Lab>)
      modifies db`labs
      ensures Reply(db.Tables(), r) == LabService.UnfreezeLab(old(db.Tables()), s, id, now, stored)
    {
      if id !in db.labs {
        return Err(NotFound);
      }
      var lab := new L.LabInstance.FromRow(db.labs[id]);
      if !Permitted(s, LabUnfreeze, lab.Value()) {
        return Err(Error.Forbidden);
      }
      var error := lab.Unfreeze(now + CLEANUP_DURATION, now);
      if error.Some? {
        return Err(error.value);
      }
      r := Save(lab, stored);
    }

    method ExtendLab(s: Subject, id: LabId, extendBy: Time, now: Time, stored: bool) returns (r: Result<L.Lab>)
      modifies db`labs
      ensures Reply(db.Tables(), r) == LabService.ExtendLab(old(db.Tables()), s, id, extendBy, now, stored)
    {
      if id !in db.labs {
        return Err(NotFound);
      }
      var lab := new L.LabInstance.FromRow(db.labs[id]);
      if !Permitted(s, LabExtend, lab.Value()) {
        return Err(Error.Forbidden);
      }
      var error := lab.ExtendCleanup(now + extendBy, now);
      if error.Some? {
        return Err(error.value);
      }
      r := Save(lab, stored);
    }
  }
}
