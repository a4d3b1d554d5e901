/** The Savings Goals widget of src/components/Savings.jsx: the goal list, the contribution
    menu with its goal-completion detector, deletion, the two-goal cap on creating goals, and
    the figures shown per goal. */
module Savings {
  import opened Common

  /** A savings goal as listed by `GET /api/savings/`. */
  datatype Goal = Goal(id: int, title: string, saved: real, target: real)

  /** `goals.find((g) => g.id === id)`: the first goal with that id. */
  function FindGoal(goals: seq<Goal>, id: int): (r: Option<Goal>)
    ensures r.Some? ==> r.value in goals && r.value.id == id
    ensures r.None? <==> forall g :: g in goals ==> g.id != id
    ensures r.Some? ==> exists k :: 0 <= k < |goals| && goals[k] == r.value && forall j :: 0 <= j < k ==> goals[j].id != id
  {
    if goals == [] then None
    else if goals[0].id == id then Some(goals[0])
    else
      var r := FindGoal(goals[1..], id);
      assert forall g :: g in goals ==> g == goals[0] || g in goals[1..];
      assert r.Some? ==> exists k :: 0 <= k < |goals| && goals[k] == r.value && forall j :: 0 <= j < k ==> goals[j].id != id by {
        if r.Some? {
          var k :| 0 <= k < |goals[1..]| && goals[1..][k] == r.value && forall j :: 0 <= j < k ==> goals[1..][j].id != id;
          assert goals[k + 1] == r.value;
          assert forall j :: 0 <= j < k + 1 ==> goals[j].id != id by {
            forall j | 0 <= j < k + 1 ensures goals[j].id != id {
              if j > 0 { assert goals[j] == goals[1..][j - 1]; }
            }
          }
        }
      }
      r
  }

  /** The completion test of `handleAddContribution`: the goal exists before and after, and it
      went from below its target to at or above it. */
  predicate JustCompleted(before: Option<Goal>, after: Option<Goal>): (b: bool)
    ensures b ==> before.Some? && after.Some?
    ensures before.None? || after.None? ==> !b
    ensures before.Some? && after.Some? ==>
              (b <==> before.value.saved < before.value.target && after.value.target <= after.value.saved)
  {
    after.Some? && after.value.saved >= after.value.target
    && before.Some? && before.value.saved < before.value.target
  }

  /** An edge, not a level: a goal that completed on one contribution cannot fire the
      celebration again on the next, and one that was already complete never fires it. */
  lemma CelebrationIsAnEdge(a: Option<Goal>, b: Option<Goal>, c: Option<Goal>)
    ensures JustCompleted(a, b) ==> !JustCompleted(b, c)
    ensures a.Some? && a.value.saved >= a.value.target ==> !JustCompleted(a, b)
    ensures JustCompleted(a, b) ==> a.value.saved < a.value.target && b.value.saved >= b.value.target
  {
  }

  /** The goals without the one deleted: `prev.filter((g) => g.id !== goalId)`. */
  function Without(goals: seq<Goal>, id: int): (r: seq<Goal>)
    ensures |r| <= |goals|
    ensures forall g :: g in r <==> g in goals && g.id != id
  {
    Filter(goals, (g: Goal) => g.id != id)
  }

  /** Deletion keeps the other goals in order: it works piece by piece, and leaves a stretch
      without that id as it is. */
  lemma WithoutKeepsOrder(a: seq<Goal>, b: seq<Goal>, id: int)
    ensures Without(a + b, id) == Without(a, id) + Without(b, id)
    ensures (forall i :: 0 <= i < |a| ==> a[i].id != id) ==> Without(a, id) == a
  {
    FilterAppend(a, b, (g: Goal) => g.id != id);
    if forall i :: 0 <= i < |a| ==> a[i].id != id {
      FilterKeepsAll(a, (g: Goal) => g.id != id);
    }
  }

  /** What a goal row shows: the percentage (`saved / target * 100`, a JavaScript division),
      the bar width capped at 100, the amount left, and whether the goal is achieved. */
  datatype GoalFigures = GoalFigures(percentage: Ratio, barWidth: Ratio, remaining: real, achieved: bool)

  function FiguresOf(g: Goal): (f: GoalFigures)
    ensures f.remaining + g.saved == g.target
    ensures f.achieved <==> g.saved >= g.target
    ensures f.achieved <==> f.remaining <= 0.0
    ensures f.barWidth.Finite? ==> f.barWidth.value <= 100.0
    ensures g.target > 0.0 ==> f.percentage.Finite? && f.percentage.value * g.target == g.saved * 100.0
    ensures g.target > 0.0 && g.saved >= g.target ==> f.barWidth == Finite(100.0)
    ensures f.barWidth == MinWith(f.percentage, 100.0)
    ensures g.target > 0.0 && g.saved < g.target ==> f.barWidth == f.percentage
  {
    var percentage := Scale(Divide(g.saved, g.target), 100.0);
    var remaining := g.target - g.saved;
    FullPercentage(g.saved, g.target);
    GoalFigures(percentage, MinWith(percentage, 100.0), remaining, !(remaining > 0.0))
  }

  lemma FullPercentage(saved: real, target: real)
    ensures target > 0.0 && saved >= target ==> AtLeast(Scale(Divide(saved, target), 100.0), 100.0)
    ensures target > 0.0 && saved < target ==> !AtLeast(Scale(Divide(saved, target), 100.0), 100.0)
  {
    if target > 0.0 {
      var v := Scale(Divide(saved, target), 100.0).value;
      CompareScaled(v, target, saved * 100.0, 100.0);
    }
  }

  /** The Add button's `disabled`: while saving, and while the amount is empty. */
  predicate AddDisabled(contributionLoading: bool, contribution: string) {
    contributionLoading || contribution == ""
  }

  /** The Add button is enabled exactly when no contribution is being saved and an amount
      has been typed. */
  lemma AddEnabledExactly(contributionLoading: bool, contribution: string)
    ensures !AddDisabled(contributionLoading, contribution) <==> !contributionLoading && contribution != ""
    ensures AddDisabled(true, contribution) && AddDisabled(contributionLoading, "")
  {
  }

  /** The settled `POST /api/savings/contribute/`: a 2xx response, an error response with its
      `error` field ("" when absent or empty), an error response whose body is not JSON, or a
      network failure. */
  datatype ContributionReply = Accepted | Rejected(error: string) | RejectedUnreadable | NetworkFailure

  /** The error shown for a failed contribution. */
  function ContributionError(reply: ContributionReply): (e: string)
    requires !reply.Accepted?
    ensures e != ""
    ensures reply.Rejected? && reply.error != "" ==> e == reply.error
    ensures reply.Rejected? && reply.error == "" ==> e == "Failed to add contribution"
    ensures reply.RejectedUnreadable? || reply.NetworkFailure? ==> e == "Network error"
  {
    match reply
    case Rejected(error) => if error != "" then error else "Failed to add contribution"
    case RejectedUnreadable => "Network error"
    case NetworkFailure => "Network error"
  }

  /** The alert for refusing a third goal. */
  const TwoGoalsAlert := "\U{1F6AB} Only 2 savings goals allowed! Try focusing your superpowers on those first! \U{1F9B8}\U{200D}\U{2642}\U{FE0F}"

  class SavingsWidget {
    var goals: seq<Goal>
    var isLoading: bool
    var activeGoal: Option<int>
    var contribution: string
    var contributionError: string
    var contributionLoading: bool
    var completedGoal: Option<Goal>
    var showCelebration: bool
    var alertMsg: string

    constructor ()
      ensures goals == [] && isLoading && activeGoal.None? && contribution == ""
      ensures contributionError == "" && !contributionLoading && completedGoal.None?
      ensures !showCelebration && alertMsg == ""
    {
      goals := [];
      isLoading := true;
      activeGoal := None;
      contribution := "";
      contributionError := "";
      contributionLoading := false;
      completedGoal := None;
      showCelebration := false;
      alertMsg := "";
    }

    /** `fetchSavings`: a 2xx body replaces the goals and is returned; any other outcome keeps
        them and returns nothing (`undefined`). Loading ends either way. */
    method FetchSavings(reply: Fetch<seq<Goal>>) returns (data: Option<seq<Goal>>)
      modifies this
      ensures !isLoading
      ensures data.Some? <==> reply.Ok?
      ensures reply.Ok? ==> goals == reply.payload && data.value == goals
      ensures !reply.Ok? ==> goals == old(goals)
      ensures activeGoal == old(activeGoal) && contribution == old(contribution)
      ensures contributionError == old(contributionError) && contributionLoading == old(contributionLoading)
      ensures completedGoal == old(completedGoal) && showCelebration == old(showCelebration)
      ensures alertMsg == old(alertMsg)
    {
      if reply.Ok? {
        goals := reply.payload;
        data := Some(reply.payload);
      } else {
        data := None;
      }
      isLoading := false;
    }

    /** `handleOpenMenu`: opens one goal's menu with an empty amount and no error. */
    method OpenMenu(goalId: int)
      modifies this
      ensures activeGoal == Some(goalId) && contribution == "" && contributionError == ""
      ensures goals == old(goals) && isLoading == old(isLoading)
      ensures contributionLoading == old(contributionLoading) && completedGoal == old(completedGoal)
      ensures showCelebration == old(showCelebration) && alertMsg == old(alertMsg)
    {
      activeGoal := Some(goalId);
      contribution := "";
      contributionError := "";
    }

    /** Typing an amount. */
    method SetContribution(text: string)
      modifies this
      ensures contribution == text
      ensures goals == old(goals) && isLoading == old(isLoading) && activeGoal == old(activeGoal)
      ensures contributionError == old(contributionError)
      ensures contributionLoading == old(contributionLoading) && completedGoal == old(completedGoal)
      ensures showCelebration == old(showCelebration) && alertMsg == old(alertMsg)
    {
      contribution := text;
    }

    /** The menu's Cancel button. */
    method CloseMenu()
      modifies this
      ensures activeGoal.None?
      ensures goals == old(goals) && isLoading == old(isLoading)
      ensures contribution == old(contribution) && contributionError == old(contributionError)
      ensures contributionLoading == old(contributionLoading) && completedGoal == old(completedGoal)
      ensures showCelebration == old(showCelebration) && alertMsg == old(alertMsg)
    {
      activeGoal := None;
    }

    /** `handleAddContribution(goalId)`. `reply` is the contribution request; `refetch` is the
        `fetchSavings` that follows an accepted one. When that refetch yields nothing, reading
        `updatedGoals.find` throws, and the catch shows "Network error" although the
        contribution was accepted. */
    method AddContribution(goalId: int, reply: ContributionReply, refetch: Fetch<seq<Goal>>)
      modifies this
      ensures !contributionLoading
      ensures reply.Accepted? ==> activeGoal.None? && contribution == "" && !isLoading
      ensures reply.Accepted? ==> goals == (if refetch.Ok? then refetch.payload else old(goals))
      ensures reply.Accepted? ==> contributionError == (if refetch.Ok? then "" else "Network error")
      ensures (reply.Accepted? && refetch.Ok? &&
               JustCompleted(FindGoal(old(goals), goalId), FindGoal(refetch.payload, goalId)))
              ==> showCelebration && completedGoal == FindGoal(refetch.payload, goalId)
      ensures !(reply.Accepted? && refetch.Ok? &&
                JustCompleted(FindGoal(old(goals), goalId), FindGoal(refetch.payload, goalId)))
              ==> showCelebration == old(showCelebration) && completedGoal == old(completedGoal)
      ensures !reply.Accepted? ==> contributionError == ContributionError(reply)
      ensures !reply.Accepted? ==> goals == old(goals) && activeGoal == old(activeGoal)
                                   && contribution == old(contribution) && isLoading == old(isLoading)
      ensures alertMsg == old(alertMsg)
    {
      contributionLoading := true;
      contributionError := "";
      match reply {
        case Accepted =>
          activeGoal := None;
          contribution := "";
          var prevGoal := FindGoal(goals, goalId);
          var updatedGoals := FetchSavings(refetch);
          if updatedGoals.None? {
            contributionError := "Network error";
          } else {
            var newGoal := FindGoal(updatedGoals.value, goalId);
            if JustCompleted(prevGoal, newGoal) {
              completedGoal := newGoal;
              showCelebration := true;
            }
          }
        case Rejected(error) =>
          contributionError := if error != "" then error else "Failed to add contribution";
        case RejectedUnreadable =>
          contributionError := "Network error";
        case NetworkFailure =>
          contributionError := "Network error";
      }
      contributionLoading := false;
    }

    /** Closing the celebration. */
    method CloseCelebration()
      modifies this
      ensures !showCelebration
      ensures goals == old(goals) && isLoading == old(isLoading) && activeGoal == old(activeGoal)
      ensures contribution == old(contribution) && contributionError == old(contributionError)
      ensures contributionLoading == old(contributionLoading) && completedGoal == old(completedGoal)
      ensures alertMsg == old(alertMsg)
    {
      showCelebration := false;
    }

    /** `handleDeleteGoal(goalId)`: a 2xx response removes that goal; a failure keeps the list
        and shows an alert. */
    method DeleteGoal(goalId: int, reply: Fetch<()>)
      modifies this
      ensures reply.Ok? ==> goals == Without(old(goals), goalId) && alertMsg == old(alertMsg)
      ensures reply.NotOk? ==> goals == old(goals) && alertMsg == "Failed to delete goal. Try again."
      ensures reply.Thrown? ==> goals == old(goals) && alertMsg == "Network error. Try again."
      ensures isLoading == old(isLoading) && activeGoal == old(activeGoal)
      ensures contribution == old(contribution) && contributionError == old(contributionError)
      ensures contributionLoading == old(contributionLoading) && completedGoal == old(completedGoal)
      ensures showCelebration == old(showCelebration)
    {
      match reply {
        case Ok(_) =>
          goals := Filter(goals, (g: Goal) => g.id != goalId);
        case NotOk =>
          alertMsg := "Failed to delete goal. Try again.";
        case Thrown =>
          alertMsg := "Network error. Try again.";
      }
    }

    /** The alert timer. */
    method ClearAlert()
      modifies this
      ensures alertMsg == ""
      ensures goals == old(goals) && isLoading == old(isLoading) && activeGoal == old(activeGoal)
      ensures contribution == old(contribution) && contributionError == old(contributionError)
      ensures contributionLoading == old(contributionLoading) && completedGoal == old(completedGoal)
      ensures showCelebration == old(showCelebration)
    {
      alertMsg := "";
    }

    /** `handleAddGoalClick`: refused with an alert from two goals on, otherwise a page load of
        the goal form. */
    method AddGoalClick() returns (nav: Option<Navigation>)
      modifies this
      ensures nav.Some? <==> |goals| < 2
      ensures nav.Some? ==> nav.value == Navigate("/savings-goal", false) && alertMsg == old(alertMsg)
      ensures nav.None? ==> alertMsg == TwoGoalsAlert
      ensures goals == old(goals) && isLoading == old(isLoading) && activeGoal == old(activeGoal)
      ensures contribution == old(contribution) && contributionError == old(contributionError)
      ensures contributionLoading == old(contributionLoading) && completedGoal == old(completedGoal)
      ensures showCelebration == old(showCelebration)
    {
      if |goals| >= 2 {
        alertMsg := TwoGoalsAlert;
        nav := None;
      } else {
        nav := Some(Navigate("/savings-goal", false));
      }
    }
  }
}
