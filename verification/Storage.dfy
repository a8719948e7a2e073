// The tables, and the statements that read and change them.

module Storage {
  import opened Types
  import L = LabDomain
  import P = PoolDomain
  import D = DeployDomain
  import C = CleanupDomain
  import S = LabService

  class Database {
    var labs: map<LabId, L.Lab>
    var projects: C.Projects
    var records: map<LabId, D.Records>
    var vault: D.Vault

    function RecordsOf(l: LabId): D.Records
      reads `records
    {
      if l in records then records[l] else map[]
    }

    method GetOrInit(l: LabId, s: D.Step) returns (r: D.Record)
      ensures r == D.RecordOf(RecordsOf(l), s)
    {
      if l in records && s in records[l] {
        return records[l][s];
      }
      r := D.Record(D.Pending, 0, None);
    }

    method SaveStep(l: LabId, s: D.Step, r: D.Record)
      modifies `records
      ensures RecordsOf(l) == old(RecordsOf(l))[s := r]
      ensures forall m :: m != l ==> RecordsOf(m) == old(RecordsOf(m))
    {
      records := records[l := RecordsOf(l)[s := r]];
    }

    // Saving drains the aggregate's events in the same transaction. The unique
    // index refuses a second active lab of a student in a course.
    method SaveLab(lab: L.LabInstance) returns (ok: bool)
      modifies `labs, lab`pending
      ensures ok <==> !L.Clashes(old(labs), old(lab.Value()))
      ensures labs == if ok then old(labs)[lab.id := old(lab.Value()).Saved()] else old(labs)
      ensures lab.Value() == if ok then old(lab.Value()).Saved() else old(lab.Value())
      ensures old(L.OneActive(labs)) ==> L.OneActive(labs)
    {
      ok := !L.Clashes(labs, lab.Value());
      if ok {
        if L.OneActive(labs) {
          L.StoringKeepsOneActive(labs, lab.Value().Saved());
        }
        var events := lab.PullEvents();
        labs := labs[lab.id := lab.Value()];
      }
    }

    // Rolls the transaction that found these tables back.
    method Rollback(labs: map<LabId, L.Lab>, projects: C.Projects)
      modifies `labs, `projects
      ensures this.labs == labs && this.projects == projects
    {
      this.labs, this.projects := labs, projects;
    }

    method SaveProject(p: P.ProjectAggregate) returns (ok: bool)
      modifies `projects, p`pending
      ensures projects == C.Store(old(projects), old(p.Value()))
      ensures ok <==> P.Stored(old(p.Value())).Ok?
      ensures p.Value() == if ok then old(p.Value()).(pending := []) else old(p.Value())
    {
      match P.Stored(p.Value())
      case Err(_) =>
        ok := false;
      case Ok(row) =>
        projects := projects[p.id := row];
        var events := p.PullEvents();
        ok := true;
    }

    ghost predicate IsRented(p: ProjectId)
      reads `projects
    {
      p in projects && projects[p].id == p && projects[p].state == P.Allocated && P.Loaded(projects[p]).WellFormed()
    }

    // Saving a rented project right after its allocation rewrites the same row.
    method ResaveProject(p: ProjectId)
      requires IsRented(p)
      modifies `projects
      ensures projects == old(projects)
    {
      var project := new P.ProjectAggregate.FromRow(projects[p]);
      var _ := SaveProject(project);
    }

    method PutSecret() returns (id: SecretId)
      modifies `vault
      ensures id == old(vault).next && vault == D.Vault(old(vault).live + {id}, id + 1)
    {
      id := vault.next;
      vault := D.Vault(vault.live + {id}, id + 1);
    }

    method DeleteSecret(id: SecretId)
      modifies `vault
      ensures vault == old(vault).(live := old(vault).live - {id})
    {
      vault := vault.(live := vault.live - {id});
    }

    // The tables the user-facing operations read and write.
    function Tables(): S.Tables
      reads `labs, `projects
    {
      S.Tables(labs, projects)
    }

    // Inserts a new lab; its events move to the outbox with the row. A used id
    // or a second active lab violates a unique index.
    method CreateLab(lab: L.LabInstance) returns (ok: bool)
      modifies `labs, lab`pending
      ensures ok <==> lab.id !in old(labs) && !L.Clashes(old(labs), old(lab.Value()))
      ensures labs == if ok then old(labs)[lab.id := old(lab.Value()).Saved()] else old(labs)
      ensures lab.Value() == if ok then old(lab.Value()).Saved() else old(lab.Value())
    {
      ok := false;
      if lab.id !in labs {
        ok := SaveLab(lab);
      }
    }

    // The statement that rents the longest-free project of a domain: a scan in
    // the order (changedAt, id) that stops at the first row.
    method AllocateOneFree(domain: string, lab: LabId, now: Time) returns (r: Option<ProjectId>)
      requires C.RowsWellFormed(projects)
      modifies `projects
      ensures r.Some? <==> S.PoolHas(old(projects), domain)
      ensures r.None? ==> projects == old(projects)
      ensures r.Some? ==> IsRented(r.value)
      ensures r.Some? ==> var p := r.value;
        && p == S.Candidate(old(projects), domain)
        && projects == old(projects)[p := S.Rented(old(projects)[p], lab, now)]
    {
      r := None;
      var unseen := projects.Keys;
      while unseen != {}
        invariant unseen <= projects.Keys
        invariant r.Some? ==> S.IsFreeIn(projects, domain, r.value) && r.value !in unseen
        invariant forall q | S.IsFreeIn(projects, domain, q) && q !in unseen ::
          r.Some? && S.Earlier(projects[r.value], projects[q])
        decreases unseen
      {
        var q :| q in unseen;
        if S.IsFreeIn(projects, domain, q) && (r.None? || S.Earlier(projects[q], projects[r.value])) {
          r := Some(q);
        }
        unseen := unseen - {q};
      }
      S.PoolHasIffSomeFree(projects, domain);
      if r.Some? {
        S.CandidateIsUnique(projects, domain, r.value);
        assert P.Loaded(projects[r.value]).WellFormed();
        projects := projects[r.value := S.Rented(projects[r.value], lab, now)];
      }
    }
  }
}
