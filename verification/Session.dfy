/** One database session: the tables that the repositories and the tasks assign in place. What the
    workers hold and what they observed are ghost, since no table stores them. */
module Session {
  import opened Records
  import opened Execution
  import opened Store
  import JobTable

  class Session {
    const rows: JobTable.JobTable
    var instances: map<nat, Instance>
    var templates: map<nat, Template>
    var assignments: map<nat, Assignment>
    var workspaces: map<nat, Workspace>
    var members: map<nat, Member>
    var databases: map<nat, Database>
    var allocations: map<nat, nat>
    ghost var workers: map<Claim, Local>
    ghost var secrets: map<nat, string>
    ghost var log: seq<Fact>

    ghost function View(): State
      reads this, rows
    {
      State(rows.Tables(), instances, templates, assignments, workspaces, members, databases, allocations, workers, secrets, log)
    }

    constructor ()
      ensures View() == State(Core(map[], map[], {}, 0), map[], map[], map[], map[], map[], map[], map[], map[], map[], [])
      ensures fresh(rows)
    {
      rows := new JobTable.JobTable();
      instances, templates, assignments, workspaces, members := map[], map[], map[], map[], map[];
      databases, allocations, workers, secrets, log := map[], map[], map[], map[], [];
    }
  }
}
