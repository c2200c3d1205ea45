/**
 * The `setUser`/`setConfig` updaters of App.tsx that are not about the mining
 * session: merging the backend's `/api/config` and `/api/me` answers into local
 * state, crediting a completed task, direct point updates, and the referral total.
 */
module Ledger {
  import opened Wrappers
  import opened Types

  // ----- configuration merges (`{ ...prev, ...res.config }`) -----

  /** A configuration object from the backend: every field may be absent. */
  datatype ConfigPatch = ConfigPatch(
    miningRate: Option<real>,
    miningDuration: Option<int>,
    referralReward: Option<int>,
    minWithdraw: Option<int>,
    exchangeRate: Option<int>,
    totalMembers: Option<int>,
    activeNow: Option<int>,
    telegramBotToken: Option<string>,
    adminChatId: Option<string>)

  const EmptyPatch: ConfigPatch := ConfigPatch(None, None, None, None, None, None, None, None, None)

  /** Every field of `c`, as a patch. */
  function FullPatch(c: AppConfig): ConfigPatch {
    ConfigPatch(Some(c.miningRate), Some(c.miningDuration), Some(c.referralReward),
                Some(c.minWithdraw), Some(c.exchangeRate), Some(c.totalMembers),
                Some(c.activeNow), c.telegramBotToken, c.adminChatId)
  }

  /** Object spread: the patch's fields win, absent ones keep their previous value. */
  function MergeConfig(prev: AppConfig, p: ConfigPatch): AppConfig {
    AppConfig(
      p.miningRate.GetOr(prev.miningRate),
      p.miningDuration.GetOr(prev.miningDuration),
      p.referralReward.GetOr(prev.referralReward),
      p.minWithdraw.GetOr(prev.minWithdraw),
      p.exchangeRate.GetOr(prev.exchangeRate),
      p.totalMembers.GetOr(prev.totalMembers),
      p.activeNow.GetOr(prev.activeNow),
      if p.telegramBotToken.Some? then p.telegramBotToken else prev.telegramBotToken,
      if p.adminChatId.Some? then p.adminChatId else prev.adminChatId)
  }

  /** Applying a patch twice is applying it once; an empty patch keeps everything. */
  lemma MergeConfigIdempotent(prev: AppConfig, p: ConfigPatch)
    ensures MergeConfig(MergeConfig(prev, p), p) == MergeConfig(prev, p)
    ensures MergeConfig(prev, EmptyPatch) == prev
  {
  }

  /** A patch that carries every field replaces the configuration whatever it was;
      an optional field the patch lacks is still kept from before. */
  lemma MergeFullPatchReplaces(prev: AppConfig, next: AppConfig)
    requires next.telegramBotToken.Some? && next.adminChatId.Some?
    ensures MergeConfig(prev, FullPatch(next)) == next
  {
  }

  /** A patch changes exactly the fields it carries: each field it has wins, each
      field it lacks keeps its previous value. */
  lemma MergeConfigFieldwise(prev: AppConfig, p: ConfigPatch)
    ensures var r := MergeConfig(prev, p);
            && (p.miningRate.None? ==> r.miningRate == prev.miningRate)
            && (p.miningRate.Some? ==> r.miningRate == p.miningRate.value)
            && (p.miningDuration.None? ==> r.miningDuration == prev.miningDuration)
            && (p.miningDuration.Some? ==> r.miningDuration == p.miningDuration.value)
            && (p.referralReward.None? ==> r.referralReward == prev.referralReward)
            && (p.referralReward.Some? ==> r.referralReward == p.referralReward.value)
            && (p.minWithdraw.None? ==> r.minWithdraw == prev.minWithdraw)
            && (p.minWithdraw.Some? ==> r.minWithdraw == p.minWithdraw.value)
            && (p.exchangeRate.None? ==> r.exchangeRate == prev.exchangeRate)
            && (p.exchangeRate.Some? ==> r.exchangeRate == p.exchangeRate.value)
            && (p.totalMembers.None? ==> r.totalMembers == prev.totalMembers)
            && (p.totalMembers.Some? ==> r.totalMembers == p.totalMembers.value)
            && (p.activeNow.None? ==> r.activeNow == prev.activeNow)
            && (p.activeNow.Some? ==> r.activeNow == p.activeNow.value)
            && (p.telegramBotToken.None? ==> r.telegramBotToken == prev.telegramBotToken)
            && (p.telegramBotToken.Some? ==> r.telegramBotToken == p.telegramBotToken)
            && (p.adminChatId.None? ==> r.adminChatId == prev.adminChatId)
            && (p.adminChatId.Some? ==> r.adminChatId == p.adminChatId)
  {
  }

  /** The answer of `GET /api/config`. */
  datatype ConfigResponse = ConfigResponse(ok: bool, config: Option<ConfigPatch>)

  /** App.tsx:84-85: merge only an `ok` answer that carries a configuration. */
  function ApplyConfigResponse(prev: AppConfig, res: ConfigResponse): (r: AppConfig)
    ensures !res.ok || res.config.None? ==> r == prev
    ensures res.ok && res.config.Some? ==> r == MergeConfig(prev, res.config.value)
  {
    if res.ok && res.config.Some? then MergeConfig(prev, res.config.value) else prev
  }

  // ----- `/api/me` merges -----

  /** The answer of `GET /api/me`: `points` is `None` when absent or not a number,
      `referrals` is `None` when it is not an array. */
  datatype MeResponse = MeResponse(points: Option<real>, referrals: Option<seq<Referral>>, config: Option<ConfigPatch>)

  /** App.tsx:111-116, on load: username, points and referrals all come from the
      answer; a missing balance reads as 0 and a non-array referral list as empty. */
  function MergeMeOnLoad(prev: UserState, username: string, me: MeResponse): (r: UserState)
    ensures r.username == username
    ensures r.points == (if me.points.Some? then me.points.value else 0.0)
    ensures r.referrals == (if me.referrals.Some? then me.referrals.value else [])
    ensures r.tasks == prev.tasks && r.miningSession == prev.miningSession
  {
    prev.(username := username, points := me.points.GetOr(0.0), referrals := me.referrals.GetOr([]))
  }

  /** App.tsx:118-119: the same answer may also carry a configuration. */
  function MergeMeConfig(prev: AppConfig, me: MeResponse): (r: AppConfig)
    ensures me.config.None? ==> r == prev
    ensures me.config.Some? ==> r == MergeConfig(prev, me.config.value)
  {
    if me.config.Some? then MergeConfig(prev, me.config.value) else prev
  }

  /** App.tsx:157-161, the second start-up sync: a number replaces the balance,
      an array replaces the referrals; anything else keeps the local value.
      `None` is a null answer, which changes nothing. */
  function MergeMeSync(prev: UserState, data: Option<MeResponse>): (r: UserState)
    ensures data.None? ==> r == prev
    ensures data.Some? && data.value.points.Some? ==> r.points == data.value.points.value
    ensures data.Some? && data.value.points.None? ==> r.points == prev.points
    ensures data.Some? && data.value.referrals.Some? ==> r.referrals == data.value.referrals.value
    ensures data.Some? && data.value.referrals.None? ==> r.referrals == prev.referrals
    ensures r.username == prev.username && r.tasks == prev.tasks && r.miningSession == prev.miningSession
  {
    match data
    case None => prev
    case Some(me) => prev.(points := me.points.GetOr(prev.points), referrals := me.referrals.GetOr(prev.referrals))
  }

  /** App.tsx:231, after a mining credit: `Number(me.points || prev.points)`, so a
      balance of 0 from the backend is falsy and leaves the local balance in place. */
  function MergeMeAfterEarn(prev: UserState, me: MeResponse): (r: UserState)
    ensures me.points.Some? && me.points.value != 0.0 ==> r.points == me.points.value
    ensures me.points.None? || me.points.value == 0.0 ==> r.points == prev.points
    ensures r.referrals == if me.referrals.Some? then me.referrals.value else prev.referrals
    ensures r.username == prev.username && r.tasks == prev.tasks && r.miningSession == prev.miningSession
  {
    var pts := if me.points.Some? && me.points.value != 0.0 then me.points.value else prev.points;
    prev.(points := pts, referrals := me.referrals.GetOr(prev.referrals))
  }

  /** The backend's balance replaces the local one; it is never added to it: two
      local states that differ only in balance end with the same balance. */
  lemma ReconcileReplacesNotAdds(a: UserState, b: UserState, username: string, me: MeResponse)
    requires me.points.Some? && me.points.value != 0.0
    ensures MergeMeOnLoad(a, username, me).points == MergeMeOnLoad(b, username, me).points == me.points.value
    ensures MergeMeSync(a, Some(me)).points == MergeMeSync(b, Some(me)).points == me.points.value
    ensures MergeMeAfterEarn(a, me).points == MergeMeAfterEarn(b, me).points == me.points.value
  {
  }

  /** A zero balance from the backend is not taken after a credit, though it is on load. */
  lemma ZeroBalanceIgnoredAfterEarn(prev: UserState, username: string, me: MeResponse)
    requires me.points == Some(0.0) && prev.points != 0.0
    ensures MergeMeAfterEarn(prev, me).points == prev.points
    ensures MergeMeOnLoad(prev, username, me).points == 0.0
  {
  }

  /** App.tsx:100: without Telegram or a backend the placeholder name becomes "Guest". */
  function GuestFallback(prev: UserState): (r: UserState)
    ensures r.username == if prev.username == "Loading..." then "Guest" else prev.username
    ensures r == prev.(username := r.username)
  {
    prev.(username := if prev.username == "Loading..." then "Guest" else prev.username)
  }

  // ----- task completion and direct credits -----

  /** `tasks.find(t => t.id === id)`: the first task with that id. */
  function FindTask(tasks: seq<Task>, id: string): (r: Option<Task>)
    ensures r.None? <==> forall i :: 0 <= i < |tasks| ==> tasks[i].id != id
    ensures r.Some? ==> exists i :: 0 <= i < |tasks| && tasks[i] == r.value && r.value.id == id
                                  && forall j :: 0 <= j < i ==> tasks[j].id != id
  {
    if tasks == [] then None
    else if tasks[0].id == id then Some(tasks[0])
    else
      var r := FindTask(tasks[1..], id);
      assert forall i :: 1 <= i < |tasks| ==> tasks[i] == tasks[1..][i - 1];
      r
  }

  /** `tasks.map(t => t.id === id ? { ...t, isCompleted: true } : t)`. */
  function MarkCompleted(tasks: seq<Task>, id: string): (r: seq<Task>)
    ensures |r| == |tasks|
    ensures forall i :: 0 <= i < |tasks| && tasks[i].id == id ==> r[i].isCompleted && r[i].(isCompleted := false) == tasks[i].(isCompleted := false)
    ensures forall i :: 0 <= i < |tasks| && tasks[i].id != id ==> r[i] == tasks[i]
  {
    seq(|tasks|, i requires 0 <= i < |tasks| => if tasks[i].id == id then tasks[i].(isCompleted := true) else tasks[i])
  }

  /** `handleCompleteTask` (App.tsx:251-258): an unknown id changes nothing; a known
      one marks that task completed and adds the reward of the first task with
      that id. It does not look at `isCompleted`. */
  function CompleteTask(u: UserState, id: string): (r: UserState)
    ensures FindTask(u.tasks, id).None? ==> r == u
    ensures FindTask(u.tasks, id).Some? ==>
              r.points == u.points + FindTask(u.tasks, id).value.reward as real
              && r.tasks == MarkCompleted(u.tasks, id)
    ensures r.username == u.username && r.referrals == u.referrals && r.miningSession == u.miningSession
  {
    match FindTask(u.tasks, id)
    case None => u
    case Some(t) => u.(tasks := MarkCompleted(u.tasks, id), points := u.points + t.reward as real)
  }

  /** The reward of a task whose id is unique goes to that task alone. */
  lemma CompleteTaskUniqueId(u: UserState, k: nat)
    requires k < |u.tasks|
    requires forall i :: 0 <= i < |u.tasks| && i != k ==> u.tasks[i].id != u.tasks[k].id
    ensures var r := CompleteTask(u, u.tasks[k].id);
            && r.points == u.points + u.tasks[k].reward as real
            && |r.tasks| == |u.tasks|
            && r.tasks[k] == u.tasks[k].(isCompleted := true)
            && forall i :: 0 <= i < |u.tasks| && i != k ==> r.tasks[i] == u.tasks[i]
  {
    var t := FindTask(u.tasks, u.tasks[k].id);
    var j :| 0 <= j < |u.tasks| && u.tasks[j] == t.value && t.value.id == u.tasks[k].id
             && forall m :: 0 <= m < j ==> u.tasks[m].id != u.tasks[k].id;
    assert j == k;
  }

  /** After marking, the first task with the id is the same task, now completed. */
  lemma {:induction false} FindAfterMark(tasks: seq<Task>, id: string)
    requires FindTask(tasks, id).Some?
    ensures FindTask(MarkCompleted(tasks, id), id) == Some(FindTask(tasks, id).value.(isCompleted := true))
    decreases |tasks|
  {
    var m := MarkCompleted(tasks, id);
    if tasks[0].id != id {
      assert m[0] == tasks[0];
      assert m[1..] == MarkCompleted(tasks[1..], id);
      FindAfterMark(tasks[1..], id);
    }
  }

  /** Without a guard of its own, completing the same task twice credits it twice. */
  lemma CompleteTaskTwiceCreditsTwice(u: UserState, id: string)
    requires FindTask(u.tasks, id).Some?
    ensures CompleteTask(CompleteTask(u, id), id).points
         == u.points + 2.0 * FindTask(u.tasks, id).value.reward as real
  {
    FindAfterMark(u.tasks, id);
  }

  /** The reason string a task credit is sent with. */
  function TaskReason(id: string): string {
    "task:" + id
  }

  /** The `/api/earn` request `handleCompleteTask` sends: only for a known id and a linked client. */
  function TaskEarnRequest(u: UserState, id: string, backend: Backend): (r: Option<EarnRequest>)
    ensures r.Some? <==> FindTask(u.tasks, id).Some? && backend.Linked()
    ensures r.Some? ==> r.value.amount == FindTask(u.tasks, id).value.reward as real
                        && r.value.reason == TaskReason(id) && Some(r.value.tgId) == backend.tgId
  {
    match FindTask(u.tasks, id)
    case None => None
    case Some(t) => if backend.Linked() then Some(EarnRequest(backend.tgId.value, t.reward as real, TaskReason(id))) else None
  }

  /** `handleUpdatePoints`: adds `amount` and changes nothing else. */
  function UpdatePoints(u: UserState, amount: real): (r: UserState)
    ensures r.points - u.points == amount
    ensures r == u.(points := r.points)
  {
    u.(points := u.points + amount)
  }

  // ----- referral total (App.tsx:315) -----

  /** `referrals.reduce((acc, curr) => acc + curr.earned, 0)`, a left fold. */
  function TotalEarned(rs: seq<Referral>): real
    decreases |rs|
  {
    if rs == [] then 0.0 else TotalEarned(rs[..|rs| - 1]) + rs[|rs| - 1].earned
  }

  /** The total of a concatenation is the sum of the totals. */
  lemma {:induction false} TotalEarnedAppend(a: seq<Referral>, b: seq<Referral>)
    ensures TotalEarned(a + b) == TotalEarned(a) + TotalEarned(b)
    decreases |b|
  {
    if b != [] {
      assert (a + b)[..|a + b| - 1] == a + b[..|b| - 1];
      TotalEarnedAppend(a, b[..|b| - 1]);
    } else {
      assert a + b == a;
    }
  }

  /** With no negative earnings the total bounds every single referral's earnings. */
  lemma {:induction false} TotalEarnedBounds(rs: seq<Referral>)
    requires forall i :: 0 <= i < |rs| ==> rs[i].earned >= 0.0
    ensures TotalEarned(rs) >= 0.0
    ensures forall i :: 0 <= i < |rs| ==> rs[i].earned <= TotalEarned(rs)
    decreases |rs|
  {
    if rs != [] {
      var init := rs[..|rs| - 1];
      TotalEarnedBounds(init);
      assert forall i :: 0 <= i < |init| ==> init[i] == rs[i];
    }
  }
}
