/**
 * The task list (TasksView.tsx): starting a task opens its link and either
 * completes it at once or starts a countdown, and the reward of a timed task can
 * be claimed only once its countdown has reached 0.
 */
module TasksView {
  import opened Wrappers
  import opened Numbers
  import opened Types
  import Ledger

  /** `if (task.timer)`: a timer of 0 is falsy, so such a task completes at once. */
  predicate HasTimer(t: Task) {
    t.timer.Some? && t.timer.value != 0
  }

  /** One tick of the countdown interval (TasksView.tsx:37-43). */
  function NextCountdown(prev: int): (r: int)
    ensures r >= 0
    ensures prev >= 1 ==> r == prev - 1
    ensures prev <= 1 ==> r == 0
  {
    if prev <= 1 then 0 else prev - 1
  }

  /** The countdown after `k` ticks. */
  function CountdownAfter(c: int, k: nat): int
    decreases k
  {
    if k == 0 then c else CountdownAfter(NextCountdown(c), k - 1)
  }

  /** `k` ticks count down by `k`, never below 0. */
  lemma {:induction false} CountdownAfterValue(c: int, k: nat)
    ensures CountdownAfter(c, k) == if k == 0 then c else Max(0, c - k)
    decreases k
  {
    if k > 0 {
      CountdownAfterValue(NextCountdown(c), k - 1);
    }
  }

  /** A countdown started at `t >= 1` is 0 exactly from the `t`-th tick on. */
  lemma CountdownDoneIff(t: int, k: nat)
    requires t >= 1
    ensures CountdownAfter(t, k) == 0 <==> k >= t
  {
    CountdownAfterValue(t, k);
  }

  /** What the row of a task shows on the right (TasksView.tsx:95-116). */
  datatype Button = Completed | Claim(enabled: bool, secondsShown: Option<int>) | Start

  /** `canClaim` (TasksView.tsx:72-73). */
  predicate CanClaim(task: Task, activeTaskId: Option<string>, countdown: int) {
    activeTaskId == Some(task.id) && countdown == 0
  }

  /** A completed task shows a check mark, the task being verified shows the
      claim button (enabled with "Claim" exactly when it can be claimed, else the
      seconds left), and every other task shows "Start". */
  function TaskButton(task: Task, activeTaskId: Option<string>, countdown: int): (r: Button)
    ensures r == Completed <==> task.isCompleted
    ensures r.Start? <==> !task.isCompleted && activeTaskId != Some(task.id)
    ensures r.Claim? ==> (r.enabled <==> CanClaim(task, activeTaskId, countdown))
    ensures r.Claim? ==> (r.secondsShown.None? <==> r.enabled) && (r.secondsShown.Some? ==> r.secondsShown.value == countdown)
  {
    if task.isCompleted then Completed
    else if activeTaskId == Some(task.id) then
      var can := countdown == 0;
      Claim(can, if can then None else Some(countdown))
    else Start
  }

  /** For a task with a 20-second timer the claim button stays disabled through
      the 19th tick and is enabled from the 20th. */
  lemma TwentySecondTimer(task: Task)
    requires !task.isCompleted && task.timer == Some(20)
    ensures !TaskButton(task, Some(task.id), CountdownAfter(20, 19)).enabled
    ensures TaskButton(task, Some(task.id), CountdownAfter(20, 20)).enabled
  {
    CountdownDoneIff(20, 19);
    CountdownDoneIff(20, 20);
  }

  /** After the app completes a task, its row shows the check mark whatever was
      being verified, so it cannot be started or claimed again from this screen. */
  lemma CompletedTaskShowsCheck(u: UserState, id: string, activeTaskId: Option<string>, countdown: int)
    ensures forall i :: 0 <= i < |u.tasks| && u.tasks[i].id == id ==>
              TaskButton(Ledger.CompleteTask(u, id).tasks[i], activeTaskId, countdown) == Completed
  {
    var r := Ledger.CompleteTask(u, id);
    if Ledger.FindTask(u.tasks, id).None? {
      assert forall i :: 0 <= i < |u.tasks| ==> u.tasks[i].id != id;
    } else {
      assert r.tasks == Ledger.MarkCompleted(u.tasks, id);
    }
  }

  /** The screen's own state: which task is being verified and its countdown. */
  class TaskGate {
    var activeTaskId: Option<string>
    var countdown: int

    constructor()
      ensures activeTaskId == None && countdown == 0
    {
      activeTaskId := None;
      countdown := 0;
    }

    /** The button this screen shows for `task`. */
    function ButtonFor(task: Task): Button
      reads this
    {
      TaskButton(task, activeTaskId, countdown)
    }

    /** `startTask` (TasksView.tsx:15-49): nothing for a completed task; a timed
        task becomes the one being verified with its timer as countdown; any other
        task is reported complete at once and the screen's state is untouched.
        The returned id is the `onComplete` call it makes, if any. */
    method StartTask(task: Task) returns (completes: Option<string>)
      modifies this
      ensures task.isCompleted ==> completes == None && unchanged(this)
      ensures !task.isCompleted && HasTimer(task) ==>
                completes == None && activeTaskId == Some(task.id) && countdown == task.timer.value
      ensures !task.isCompleted && !HasTimer(task) ==> completes == Some(task.id) && unchanged(this)
    {
      if task.isCompleted {
        return None;
      }
      if HasTimer(task) {
        activeTaskId := Some(task.id);
        countdown := task.timer.value;
        completes := None;
      } else {
        completes := Some(task.id);
      }
    }

    /** One tick of the countdown interval. */
    method TickCountdown()
      modifies this`countdown
      ensures countdown == NextCountdown(old(countdown))
    {
      countdown := NextCountdown(countdown);
    }

    /** `handleClaimReward` (TasksView.tsx:51-55): reports the task complete and
        clears the verification. */
    method ClaimReward(id: string) returns (completes: string)
      modifies this
      ensures completes == id
      ensures activeTaskId == None && countdown == 0
    {
      completes := id;
      activeTaskId := None;
      countdown := 0;
    }
  }
}
