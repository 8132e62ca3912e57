/**
 * Multi-step workflows of the Django back end: an instance walks through
 * its workflow's list of approver roles one approval at a time, and can be
 * rejected at any point.
 */
module Workflows {
  const StatusPending := "pending"
  const StatusCompleted := "completed"
  const StatusRejected := "rejected"

  /** A `WorkflowInstance` row: its workflow, status and the index of the step awaiting approval. */
  datatype Instance = Instance(workflow: int, status: string, currentStep: int)

  /** One approval: the step moves on by one, and the instance completes once no step is left. */
  function Approve(i: Instance, stepCount: nat): (r: Instance)
    ensures r.workflow == i.workflow && r.currentStep == i.currentStep + 1
    ensures r.currentStep >= stepCount ==> r.status == StatusCompleted
    ensures r.currentStep < stepCount ==> r.status == i.status
  {
    var step := i.currentStep + 1;
    i.(currentStep := step, status := if step >= stepCount then StatusCompleted else i.status)
  }

  /** A rejection: only the status changes. */
  function Reject(i: Instance): (r: Instance)
    ensures r.status == StatusRejected
    ensures r.workflow == i.workflow && r.currentStep == i.currentStep
  {
    i.(status := StatusRejected)
  }

  /** `n` approvals in a row. */
  function ApproveTimes(i: Instance, stepCount: nat, n: nat): Instance {
    if n == 0 then i else Approve(ApproveTimes(i, stepCount, n - 1), stepCount)
  }

  /**
   * A fresh instance of a workflow with steps stays pending through the
   * first approvals and completes exactly at the approval of its last step.
   */
  lemma {:induction false} ApprovalsWalkTheSteps(i: Instance, stepCount: nat, n: nat)
    requires i.currentStep == 0 && i.status == StatusPending && stepCount > 0
    ensures ApproveTimes(i, stepCount, n).currentStep == n
    ensures ApproveTimes(i, stepCount, n).status == (if n >= stepCount then StatusCompleted else StatusPending)
  {
    if n > 0 {
      ApprovalsWalkTheSteps(i, stepCount, n - 1);
    }
  }

  /** Approval does not look at the status: a rejected instance is advanced, and its last approval completes it. */
  lemma ApprovalIgnoresRejection(i: Instance, stepCount: nat)
    requires i.status == StatusRejected && i.currentStep + 1 >= stepCount
    ensures Approve(i, stepCount).status == StatusCompleted
  {
  }

  /** A rejection after a rejection changes nothing more. */
  lemma RejectIdempotent(i: Instance)
    ensures Reject(Reject(i)) == Reject(i)
  {
  }

  /** The step lists of the workflows and the instances, by primary key. */
  class WorkflowStore {
    var steps: map<int, seq<string>>
    var instances: map<int, Instance>

    /** Every instance refers to a workflow (the foreign key). */
    predicate Valid()
      reads this
    {
      forall pk :: pk in instances ==> instances[pk].workflow in steps
    }

    constructor(steps: map<int, seq<string>>, instances: map<int, Instance>)
      requires forall pk :: pk in instances ==> instances[pk].workflow in steps
      ensures Valid() && this.steps == steps && this.instances == instances
    {
      this.steps := steps;
      this.instances := instances;
    }

    /** `POST approve`: an unknown id is a 404 and changes nothing; otherwise one approval is saved. */
    method ApproveWorkflow(pk: int) returns (found: bool)
      requires Valid()
      modifies this
      ensures Valid() && steps == old(steps)
      ensures found <==> pk in old(instances)
      ensures !found ==> instances == old(instances)
      ensures found ==> instances == old(instances)[pk := Approve(old(instances)[pk], |steps[old(instances)[pk].workflow]|)]
    {
      if pk !in instances {
        return false;
      }
      var inst := instances[pk];
      inst := inst.(currentStep := inst.currentStep + 1);
      if inst.currentStep >= |steps[inst.workflow]| {
        inst := inst.(status := StatusCompleted);
      }
      instances := instances[pk := inst];
      return true;
    }

    /** `POST reject`: an unknown id is a 404 and changes nothing; otherwise the instance is rejected. */
    method RejectWorkflow(pk: int) returns (found: bool)
      requires Valid()
      modifies this
      ensures Valid() && steps == old(steps)
      ensures found <==> pk in old(instances)
      ensures !found ==> instances == old(instances)
      ensures found ==> instances == old(instances)[pk := Reject(old(instances)[pk])]
    {
      if pk !in instances {
        return false;
      }
      instances := instances[pk := instances[pk].(status := StatusRejected)];
      return true;
    }
  }
}
