/**
 * The admin dashboard (AdminDashboard.tsx): a local copy of the configuration
 * and task list edited through text boxes, with the session length shown in
 * minutes but stored in seconds, and saved back to the app on request.
 */
module Admin {
  import opened Wrappers
  import opened Numbers
  import opened Types
  import opened Text

  // ----- session length: minutes on screen, seconds in storage -----

  /** `Math.max(1, Math.round(d / 60))` (AdminDashboard.tsx:24, :35). `Math.round`
      rounds halves up, which is `floor((d + 30) / 60)` for an integer `d`. */
  function MinutesDisplay(d: int): (r: nat)
    ensures r >= 1
    ensures d >= 30 ==> r * 60 - 30 <= d < r * 60 + 30
    ensures d < 90 ==> r == 1
  {
    Max(1, (d + 30) / 60)
  }

  /** `Math.max(1, mins) * 60` (AdminDashboard.tsx:53). */
  function StoreMinutes(mins: int): (r: int)
    ensures r >= 60 && r % 60 == 0
    ensures mins >= 1 ==> r == mins * 60
  {
    Max(1, mins) * 60
  }

  /** Storing a count of minutes and showing it again gives that count (at least one). */
  lemma MinutesRoundTrip(mins: int)
    ensures MinutesDisplay(StoreMinutes(mins)) == Max(1, mins)
  {
    var m := Max(1, mins);
    assert (m * 60 + 30) / 60 == m;
  }

  /** The text the minutes box shows for a stored duration. */
  function MinutesText(d: int): string {
    NatToString(MinutesDisplay(d))
  }

  /** `handleSessionMinutesChange` (AdminDashboard.tsx:48-55) on the local
      configuration: a number sets the duration to that many minutes (at least one),
      in seconds; text that is not a number leaves the configuration as it was. */
  function ApplyMinutesInput(c: AppConfig, val: string): (r: AppConfig)
    ensures ParseInt(val).None? ==> r == c
    ensures ParseInt(val).Some? ==> r == c.(miningDuration := StoreMinutes(ParseInt(val).value))
  {
    match ParseInt(val)
    case None => c
    case Some(mins) => c.(miningDuration := StoreMinutes(mins))
  }

  /** Typing a whole number of minutes, saving and reopening the dashboard shows
      the same number again (or 1 for 0). */
  lemma MinutesTextRoundTrip(c: AppConfig, m: nat)
    ensures MinutesText(ApplyMinutesInput(c, NatToString(m)).miningDuration) == NatToString(Max(1, m))
  {
    ParseIntNatToString(m);
    assert ApplyMinutesInput(c, NatToString(m)).miningDuration == StoreMinutes(m);
    MinutesRoundTrip(m);
  }

  /** `handleGpPerMinChange` (AdminDashboard.tsx:39-46): a finite number becomes
      the rate as typed; anything else leaves the configuration as it was. */
  function ApplyRateInput(c: AppConfig, val: string): (r: AppConfig)
    ensures ParseFloat(val).None? ==> r == c
    ensures ParseFloat(val).Some? ==> r == c.(miningRate := ParseFloat(val).value)
  {
    match ParseFloat(val)
    case None => c
    case Some(n) => c.(miningRate := n)
  }

  /** A whole rate typed in decimal is stored as that number. */
  lemma WholeRateStored(c: AppConfig, n: nat)
    ensures ApplyRateInput(c, NatToString(n)) == c.(miningRate := n as real)
  {
    ParseFloatNatToString(n);
  }

  // ----- the whole-number configuration fields -----

  /** `parseInt(val) || 0`: `NaN` (and 0) become 0. */
  function IntOrZero(val: string): (r: int)
    ensures ParseInt(val).None? ==> r == 0
    ensures ParseInt(val).Some? ==> r == ParseInt(val).value
  {
    ParseInt(val).GetOr(0)
  }

  /** The boxes of AdminDashboard.tsx:144-146 and :234-235. */
  datatype IntField = ReferralReward | MinWithdraw | ExchangeRate | TotalMembers | ActiveNow

  /** Reads one whole-number field of the configuration. */
  function IntFieldOf(c: AppConfig, f: IntField): int {
    match f
    case ReferralReward => c.referralReward
    case MinWithdraw => c.minWithdraw
    case ExchangeRate => c.exchangeRate
    case TotalMembers => c.totalMembers
    case ActiveNow => c.activeNow
  }

  /** Setting one of those fields changes no other. */
  function SetIntField(c: AppConfig, f: IntField, v: int): (r: AppConfig)
    ensures IntFieldOf(r, f) == v
    ensures forall g :: g != f ==> IntFieldOf(r, g) == IntFieldOf(c, g)
    ensures r.miningRate == c.miningRate && r.miningDuration == c.miningDuration
    ensures r.telegramBotToken == c.telegramBotToken && r.adminChatId == c.adminChatId
  {
    match f
    case ReferralReward => c.(referralReward := v)
    case MinWithdraw => c.(minWithdraw := v)
    case ExchangeRate => c.(exchangeRate := v)
    case TotalMembers => c.(totalMembers := v)
    case ActiveNow => c.(activeNow := v)
  }

  /** A whole number typed into a box is stored as that number. */
  lemma IntFieldTyped(c: AppConfig, f: IntField, n: nat)
    ensures IntFieldOf(SetIntField(c, f, IntOrZero(NatToString(n))), f) == n
  {
    ParseIntNatToString(n);
  }

  /** The two credential boxes of AdminDashboard.tsx:221-222. */
  datatype TextField = BotToken | ChatId

  function SetTextField(c: AppConfig, f: TextField, val: string): (r: AppConfig)
    ensures f == BotToken ==> r == c.(telegramBotToken := Some(val))
    ensures f == ChatId ==> r == c.(adminChatId := Some(val))
  {
    match f
    case BotToken => c.(telegramBotToken := Some(val))
    case ChatId => c.(adminChatId := Some(val))
  }

  // ----- the task list -----

  /** The task `addNewTask` appends (AdminDashboard.tsx:67-76), `now` being `Date.now()`. */
  function NewTask(now: nat): (t: Task)
    ensures t.id == "task_" + NatToString(now)
    ensures !t.isCompleted && t.kind == Link && t.reward == 1000 && t.timer == Some(30)
  {
    Task("task_" + NatToString(now), "New Community Task", 1000, Link, false, Some(30), Some(""))
  }

  function AddTask(tasks: seq<Task>, now: nat): (r: seq<Task>)
    ensures |r| == |tasks| + 1 && r[..|tasks|] == tasks && r[|tasks|] == NewTask(now)
  {
    tasks + [NewTask(now)]
  }

  /** `filter(t => t.id !== id)`. */
  function RemoveId(tasks: seq<Task>, id: string): (r: seq<Task>)
    ensures |r| <= |tasks|
    ensures forall i :: 0 <= i < |r| ==> r[i].id != id
    decreases |tasks|
  {
    if tasks == [] then []
    else (if tasks[0].id == id then [] else [tasks[0]]) + RemoveId(tasks[1..], id)
  }

  /** Filtering keeps every task without the id and adds none. */
  lemma {:induction false} RemoveIdKeepsOthers(tasks: seq<Task>, id: string)
    ensures forall t :: t in RemoveId(tasks, id) ==> t in tasks
    ensures forall t :: t in tasks && t.id != id ==> t in RemoveId(tasks, id)
    decreases |tasks|
  {
    if tasks != [] {
      RemoveIdKeepsOthers(tasks[1..], id);
      assert tasks == [tasks[0]] + tasks[1..];
    }
  }

  /** Filtering keeps order: it works piece by piece. */
  lemma {:induction false} RemoveIdAppend(a: seq<Task>, b: seq<Task>, id: string)
    ensures RemoveId(a + b, id) == RemoveId(a, id) + RemoveId(b, id)
    decreases |a|
  {
    if a == [] {
      assert a + b == b;
    } else {
      assert (a + b)[0] == a[0] && (a + b)[1..] == a[1..] + b;
      RemoveIdAppend(a[1..], b, id);
    }
  }

  /** Deleting an id no task has changes nothing. */
  lemma {:induction false} RemoveAbsentId(tasks: seq<Task>, id: string)
    requires forall i :: 0 <= i < |tasks| ==> tasks[i].id != id
    ensures RemoveId(tasks, id) == tasks
    decreases |tasks|
  {
    if tasks != [] {
      RemoveAbsentId(tasks[1..], id);
      assert [tasks[0]] + tasks[1..] == tasks;
    }
  }

  /** `deleteTask` (AdminDashboard.tsx:80-84): only a confirmed deletion happens. */
  function DeleteTask(tasks: seq<Task>, id: string, confirmed: bool): (r: seq<Task>)
    ensures !confirmed ==> r == tasks
    ensures confirmed ==> r == RemoveId(tasks, id)
  {
    if confirmed then RemoveId(tasks, id) else tasks
  }

  /** Deleting a freshly added task restores the list, provided its id was new. */
  lemma DeleteUndoesAdd(tasks: seq<Task>, now: nat)
    requires forall i :: 0 <= i < |tasks| ==> tasks[i].id != NewTask(now).id
    ensures DeleteTask(AddTask(tasks, now), NewTask(now).id, true) == tasks
  {
    var t := NewTask(now);
    RemoveIdAppend(tasks, [t], t.id);
    RemoveAbsentId(tasks, t.id);
    assert RemoveId([t], t.id) == [];
  }

  /** One edit of a task row (AdminDashboard.tsx:169-199); the number boxes carry
      their text, the type selector one of its three options. */
  datatype TaskEdit = Title(title: string) | LinkText(link: string) | Reward(reward: string)
                    | Timer(timer: string) | Kind(kind: TaskKind)

  /** `{ ...t, [field]: value }` for one edit; the reward and timer are `parseInt || 0`. */
  function ApplyEdit(t: Task, e: TaskEdit): (r: Task)
    ensures r.id == t.id && r.isCompleted == t.isCompleted
    ensures e.Title? ==> r == t.(title := e.title)
    ensures e.LinkText? ==> r == t.(link := Some(e.link))
    ensures e.Reward? ==> r == t.(reward := IntOrZero(e.reward))
    ensures e.Timer? ==> r == t.(timer := Some(IntOrZero(e.timer)))
    ensures e.Kind? ==> r == t.(kind := e.kind)
  {
    match e
    case Title(s) => t.(title := s)
    case LinkText(s) => t.(link := Some(s))
    case Reward(s) => t.(reward := IntOrZero(s))
    case Timer(s) => t.(timer := Some(IntOrZero(s)))
    case Kind(k) => t.(kind := k)
  }

  /** `updateTaskField` (AdminDashboard.tsx:86-88): every task with the id gets the
      edit, the others stay as they were, and no id and no position changes. */
  function UpdateTaskField(tasks: seq<Task>, id: string, e: TaskEdit): (r: seq<Task>)
    ensures |r| == |tasks|
    ensures forall i :: 0 <= i < |tasks| ==> r[i].id == tasks[i].id
    ensures forall i :: 0 <= i < |tasks| && tasks[i].id == id ==> r[i] == ApplyEdit(tasks[i], e)
    ensures forall i :: 0 <= i < |tasks| && tasks[i].id != id ==> r[i] == tasks[i]
  {
    seq(|tasks|, i requires 0 <= i < |tasks| => if tasks[i].id == id then ApplyEdit(tasks[i], e) else tasks[i])
  }

  /** Deleting a task discards every edit made to it. */
  lemma {:induction false} EditInvisibleAfterDelete(tasks: seq<Task>, id: string, e: TaskEdit)
    ensures RemoveId(UpdateTaskField(tasks, id, e), id) == RemoveId(tasks, id)
    decreases |tasks|
  {
    if tasks != [] {
      var u := UpdateTaskField(tasks, id, e);
      assert u[1..] == UpdateTaskField(tasks[1..], id, e);
      EditInvisibleAfterDelete(tasks[1..], id, e);
    }
  }

  // ----- the dashboard's state -----

  /** The dashboard's local copies and the minutes box. The rate box's text is not
      modelled (it needs a number-to-text conversion of reals). */
  class AdminPanel {
    var localConfig: AppConfig
    var localTasks: seq<Task>
    var sessionMinutes: string

    constructor(config: AppConfig, tasks: seq<Task>)
      ensures localConfig == config && localTasks == tasks
      ensures sessionMinutes == MinutesText(config.miningDuration)
    {
      localConfig := config;
      localTasks := tasks;
      sessionMinutes := MinutesText(config.miningDuration);
    }

    /** The `useEffect` of AdminDashboard.tsx:28-37: new props replace the local copies. */
    method Sync(config: AppConfig, tasks: seq<Task>)
      modifies this
      ensures localConfig == config && localTasks == tasks
      ensures sessionMinutes == MinutesText(config.miningDuration)
    {
      localConfig := config;
      localTasks := tasks;
      sessionMinutes := MinutesText(config.miningDuration);
    }

    method RateChanged(val: string)
      modifies this`localConfig
      ensures localConfig == ApplyRateInput(old(localConfig), val)
    {
      localConfig := ApplyRateInput(localConfig, val);
    }

    /** The box keeps what was typed, whether or not it is a number. */
    method MinutesChanged(val: string)
      modifies this`localConfig, this`sessionMinutes
      ensures sessionMinutes == val
      ensures localConfig == ApplyMinutesInput(old(localConfig), val)
    {
      sessionMinutes := val;
      localConfig := ApplyMinutesInput(localConfig, val);
    }

    method IntFieldChanged(f: IntField, val: string)
      modifies this`localConfig
      ensures localConfig == SetIntField(old(localConfig), f, IntOrZero(val))
    {
      localConfig := SetIntField(localConfig, f, IntOrZero(val));
    }

    method TextFieldChanged(f: TextField, val: string)
      modifies this`localConfig
      ensures localConfig == SetTextField(old(localConfig), f, val)
    {
      localConfig := SetTextField(localConfig, f, val);
    }

    method AddNewTask(now: nat)
      modifies this`localTasks
      ensures localTasks == AddTask(old(localTasks), now)
    {
      localTasks := AddTask(localTasks, now);
    }

    /** `confirmed` is the user's answer to the confirmation dialog. */
    method DeleteTaskRow(id: string, confirmed: bool)
      modifies this`localTasks
      ensures localTasks == DeleteTask(old(localTasks), id, confirmed)
    {
      localTasks := DeleteTask(localTasks, id, confirmed);
    }

    method EditTask(id: string, e: TaskEdit)
      modifies this`localTasks
      ensures localTasks == UpdateTaskField(old(localTasks), id, e)
    {
      localTasks := UpdateTaskField(localTasks, id, e);
    }

    /** `saveConfig`: hands the local configuration to the app. */
    method SaveConfig() returns (c: AppConfig)
      ensures c == localConfig
    {
      c := localConfig;
    }

    /** `saveTasks`: hands the local task list to the app. */
    method SaveTasks() returns (ts: seq<Task>)
      ensures ts == localTasks
    {
      ts := localTasks;
    }
  }
}
