/**
 * The clinic's incoming-plan status update: find the first plan whose id is
 * the requested one and, for the action `calculate` or `send`, set its status
 * to `calculated` or `offer_sent`. This module gives the result as a function
 * of the list; `Sessions.Session.UpdatePlanStatus` is the loop that performs
 * it in place.
 */
module Plans {

  import opened Wrappers
  import opened Records
  import Numeric

  /** The status an action assigns; any other action assigns none. */
  function StatusFor(action: string): (st: Option<string>)
    ensures st == Some("calculated") <==> action == "calculate"
    ensures st == Some("offer_sent") <==> action == "send"
    ensures st.None? <==> action != "calculate" && action != "send"
  {
    if action == "calculate" then Some("calculated")
    else if action == "send" then Some("offer_sent")
    else None
  }

  /** The position of the first plan with the given id, if any. */
  function FirstMatch(plans: seq<IncomingPlan>, planID: int): (r: Option<nat>)
    ensures r.Some? ==> r.value < |plans| && plans[r.value].id == planID
    ensures r.Some? ==> forall j :: 0 <= j < r.value ==> plans[j].id != planID
    ensures r.None? <==> forall j :: 0 <= j < |plans| ==> plans[j].id != planID
  {
    if plans == [] then None
    else if plans[0].id == planID then Some(0)
    else match FirstMatch(plans[1..], planID)
      case None => None
      case Some(k) => Some(k + 1)
  }

  /** The plan list after a status action on `planID`. */
  function PlanAction(plans: seq<IncomingPlan>, planID: int, action: string): (r: seq<IncomingPlan>)
    ensures |r| == |plans|
    ensures forall j :: 0 <= j < |r| ==> r[j].(status := plans[j].status) == plans[j]
    ensures forall j :: 0 <= j < |r| && r[j] != plans[j] ==>
              plans[j].id == planID && forall k :: 0 <= k < j ==> plans[k].id != planID
    ensures forall j :: (0 <= j < |r| && plans[j].id == planID && StatusFor(action).Some? &&
                         forall k :: 0 <= k < j ==> plans[k].id != planID) ==>
              r[j].status == StatusFor(action).value
    ensures StatusFor(action).None? || (forall j :: 0 <= j < |plans| ==> plans[j].id != planID) ==> r == plans
  {
    match (FirstMatch(plans, planID), StatusFor(action))
    case (Some(i), Some(status)) => plans[i := plans[i].(status := status)]
    case _ => plans
  }

  /** Repeating an action on the same plan changes nothing more. */
  lemma PlanActionIdempotent(plans: seq<IncomingPlan>, planID: int, action: string)
    ensures PlanAction(PlanAction(plans, planID, action), planID, action) == PlanAction(plans, planID, action)
  {
  }

  /**
   * A plan id that is not a well-formed integer parses to 0 or to a 64-bit
   * bound, so it leaves unchanged every list in which no plan carries one of
   * those three ids.
   */
  lemma MalformedPlanIdLeavesPlansUnchanged(plans: seq<IncomingPlan>, planIdText: string, action: string)
    requires !Numeric.WellFormed(planIdText)
    requires forall j :: 0 <= j < |plans| ==>
               plans[j].id != 0 && plans[j].id != Numeric.MinInt64 && plans[j].id != Numeric.MaxInt64
    ensures PlanAction(plans, Numeric.Atoi(planIdText), action) == plans
  {
    Numeric.AtoiMalformed(planIdText);
  }

  /** No seeded plan carries such an id, so the seeded list is left as it is. */
  lemma MalformedPlanIdLeavesSeedUnchanged(planIdText: string, action: string)
    requires !Numeric.WellFormed(planIdText)
    ensures PlanAction(SeedIncomingPlans, Numeric.Atoi(planIdText), action) == SeedIncomingPlans
  {
    MalformedPlanIdLeavesPlansUnchanged(SeedIncomingPlans, planIdText, action);
  }

  /** On the seeded list, `calculate` on plan 3 changes only that plan's status; plan 4 is not seeded. */
  lemma SeededCalculate()
    ensures PlanAction(SeedIncomingPlans, 3, "calculate") == SeedIncomingPlans[2 := SeedIncomingPlans[2].(status := "calculated")]
    ensures PlanAction(SeedIncomingPlans, 4, "calculate") == SeedIncomingPlans
  {
  }
}
