/**
 * The workflow store: a save is checked against the record the store holds at that moment
 * (src/financial_intelligence/infrastructure/workflow/in_memory_store.py).
 */
module WorkflowStore {
  import opened Outcomes
  import opened Workflows
  import Resume

  datatype StoreError = StoreConflict | TransitionRejected

  datatype StoredCheckpoint = StoredCheckpoint(runId: int, planId: int, companyId: int, version: nat,
                                               data: Resume.Checkpoint)

  predicate SameIdentity(a: Workflow, b: Workflow) {
    a.runId == b.runId && a.requestId == b.requestId && a.companyId == b.companyId && a.planId == b.planId
  }

  /** The verdict on replacing `existing` by `w`. */
  function Admission(existing: Workflow, w: Workflow): Result<(), StoreError> {
    if !SameIdentity(existing, w) then Err(StoreConflict)
    else if w.status != existing.status && w.status !in Allowed(existing.status) then Err(TransitionRejected)
    else if w.version < existing.version then Err(StoreConflict)
    else Ok(())
  }

  function SaveVerdict(workflows: map<int, Workflow>, w: Workflow): Result<(), StoreError> {
    if w.id in workflows then Admission(workflows[w.id], w) else Ok(())
  }

  predicate CheckpointFits(workflows: map<int, Workflow>, checkpoints: map<int, StoredCheckpoint>, id: int,
                           c: StoredCheckpoint) {
    && (id in workflows ==>
          && workflows[id].runId == c.runId
          && workflows[id].planId == c.planId
          && workflows[id].companyId == c.companyId)
    && (id in checkpoints ==> checkpoints[id].version < c.version)
  }

  class InMemoryWorkflowStore {
    var workflows: map<int, Workflow>
    var checkpoints: map<int, StoredCheckpoint>

    constructor ()
      ensures workflows == map[] && checkpoints == map[]
    {
      workflows, checkpoints := map[], map[];
    }

    /** Saves a record exactly when the store's verdict allows it; a refused save changes nothing. */
    method SaveWorkflow(w: Workflow) returns (r: Result<(), StoreError>)
      modifies this`workflows
      ensures r == SaveVerdict(old(workflows), w)
      ensures r.Ok? <==>
                w.id in old(workflows) ==>
                  var existing := old(workflows)[w.id];
                  && w.runId == existing.runId && w.requestId == existing.requestId
                  && w.companyId == existing.companyId && w.planId == existing.planId
                  && (w.status == existing.status || w.status in Allowed(existing.status))
                  && w.version >= existing.version
      ensures workflows == if r.Ok? then old(workflows)[w.id := w] else old(workflows)
    {
      if w.id in workflows {
        var existing := workflows[w.id];
        if existing.runId != w.runId {
          return Err(StoreConflict);
        }
        if existing.requestId != w.requestId {
          return Err(StoreConflict);
        }
        if existing.companyId != w.companyId {
          return Err(StoreConflict);
        }
        if existing.planId != w.planId {
          return Err(StoreConflict);
        }
        if w.status != existing.status {
          if w.status !in Allowed(existing.status) {
            return Err(TransitionRejected);
          }
        }
        if w.version < existing.version {
          return Err(StoreConflict);
        }
      }
      workflows := workflows[w.id := w];
      return Ok(());
    }

    method GetWorkflow(id: int) returns (r: Option<Workflow>)
      ensures r == if id in workflows then Some(workflows[id]) else None
    {
      return if id in workflows then Some(workflows[id]) else None;
    }

    /** Stores a checkpoint of the same run, plan and company with a larger version than the one held. */
    method SaveCheckpoint(id: int, c: StoredCheckpoint) returns (r: Result<(), StoreError>)
      modifies this`checkpoints
      ensures r.Ok? <==> CheckpointFits(workflows, old(checkpoints), id, c)
      ensures r.Ok? <==>
                && (id in workflows ==>
                      var w := workflows[id];
                      w.runId == c.runId && w.planId == c.planId && w.companyId == c.companyId)
                && (id in old(checkpoints) ==> c.version > old(checkpoints)[id].version)
      ensures checkpoints == if r.Ok? then old(checkpoints)[id := c] else old(checkpoints)
    {
      if id in workflows {
        var w := workflows[id];
        if w.runId != c.runId || w.planId != c.planId || w.companyId != c.companyId {
          return Err(StoreConflict);
        }
      }
      if id in checkpoints && c.version <= checkpoints[id].version {
        return Err(StoreConflict);
      }
      checkpoints := checkpoints[id := c];
      return Ok(());
    }
  }
}
