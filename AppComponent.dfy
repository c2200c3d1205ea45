/**
 * The `App` component (App.tsx): the user and configuration it holds, the
 * admin-entrance flags and tap counter, and the handlers that change them, each
 * applying one of the transition functions of `Mining`, `Ledger` and `AdminAccess`.
 * Requests to the backend are returned to the caller instead of being sent, and
 * backend answers are passed in.
 */
module AppComponent {
  import opened Wrappers
  import opened Types
  import Mining
  import Ledger
  import AdminAccess

  /** What the Telegram WebApp reports about the user; empty strings are falsy. */
  datatype TelegramUser = TelegramUser(id: Option<int>, username: string, firstName: string, lastName: string)

  /** The name `getTelegramUser` derives (App.tsx:49): the username, else the
      first name (or "User") followed by the last name when there is one. */
  function LoadName(t: TelegramUser): (r: string)
    ensures t.username != "" ==> r == t.username
    ensures t.username == "" && t.lastName == "" ==> r == (if t.firstName != "" then t.firstName else "User")
    ensures t.username == "" && t.lastName != "" ==> r == (if t.firstName != "" then t.firstName else "User") + " " + t.lastName
  {
    if t.username != "" then t.username
    else (if t.firstName != "" then t.firstName else "User") + (if t.lastName != "" then " " + t.lastName else "")
  }

  /** The name the second start-up effect derives (App.tsx:140): the username,
      else the first name, else "GlowUser"; the last name is not used. */
  function SyncName(t: TelegramUser): (r: string)
    ensures t.username != "" ==> r == t.username
    ensures t.username == "" ==> r == if t.firstName != "" then t.firstName else "GlowUser"
  {
    if t.username != "" then t.username else if t.firstName != "" then t.firstName else "GlowUser"
  }

  /** The two start-up effects agree on the name exactly when the user has a
      username, or a first name and no last name. */
  lemma NamesAgreeIff(t: TelegramUser)
    ensures LoadName(t) == SyncName(t) <==> t.username != "" || (t.firstName != "" && t.lastName == "")
  {
    if t.username == "" {
      if t.firstName == "" {
        assert LoadName(t)[..4] == "User";
        assert SyncName(t)[..4] == "Glow";
      } else if t.lastName != "" {
        assert |LoadName(t)| > |SyncName(t)|;
      }
    }
  }

  class App {
    /** Where the backend URL comes from; `deployment.AppUrl()` is the app's `BACKEND_URL`. */
    const deployment: Deployment
    var user: UserState
    var config: AppConfig
    var isAdminOpen: bool
    var isPinModalOpen: bool
    var pinInput: string
    var clickCount: nat

    /** The session shape is consistent and the tap counter is below 8. */
    ghost predicate Valid()
      reads this
    {
      Mining.Consistent(user.miningSession) && clickCount < AdminAccess.TapsToOpen
    }

    /** A first start, with nothing saved in local storage. */
    constructor(deployment: Deployment)
      ensures Valid()
      ensures this.deployment == deployment
      ensures user == InitialState && config == DefaultConfig
      ensures !isAdminOpen && !isPinModalOpen && pinInput == "" && clickCount == 0
    {
      this.deployment := deployment;
      user := InitialState;
      config := DefaultConfig;
      isAdminOpen := false;
      isPinModalOpen := false;
      pinInput := "";
      clickCount := 0;
    }

    // ----- mining -----

    /** `handleStartMining` (App.tsx:240-245). */
    method StartMining(now: int)
      requires Valid()
      modifies this`user
      ensures Valid()
      ensures user == Mining.StartMining(old(user), now)
    {
      user := Mining.StartMining(user, now);
    }

    /** One poll of the mining engine (App.tsx:217-236): the new user state, and the
        `/api/earn` request it sends, if any, for the Telegram id `tgId`. */
    method MiningTick(now: int, tgId: Option<int>) returns (earn: Option<EarnRequest>)
      requires Valid()
      modifies this`user
      ensures Valid()
      ensures user == Mining.Tick(old(user), config, now)
      ensures earn == Mining.CompletionEarnRequest(old(user), config, now, Backend(tgId, deployment.AppUrl()))
    {
      earn := Mining.CompletionEarnRequest(user, config, now, Backend(tgId, deployment.AppUrl()));
      user := Mining.Tick(user, config, now);
    }

    /** The answer to that request's follow-up `/api/me` (App.tsx:231). */
    method EarnReconciled(me: Ledger.MeResponse)
      requires Valid()
      modifies this`user
      ensures Valid()
      ensures user == Ledger.MergeMeAfterEarn(old(user), me)
    {
      user := Ledger.MergeMeAfterEarn(user, me);
    }

    // ----- tasks and points -----

    /** `handleCompleteTask` (App.tsx:251-267). */
    method CompleteTask(id: string, tgId: Option<int>) returns (earn: Option<EarnRequest>)
      requires Valid()
      modifies this`user
      ensures Valid()
      ensures user == Ledger.CompleteTask(old(user), id)
      ensures earn == Ledger.TaskEarnRequest(old(user), id, Backend(tgId, deployment.AppUrl()))
    {
      earn := Ledger.TaskEarnRequest(user, id, Backend(tgId, deployment.AppUrl()));
      user := Ledger.CompleteTask(user, id);
    }

    /** `handleUpdatePoints` (App.tsx:247-249). */
    method UpdatePoints(amount: real)
      requires Valid()
      modifies this`user
      ensures Valid()
      ensures user == Ledger.UpdatePoints(old(user), amount)
    {
      user := Ledger.UpdatePoints(user, amount);
    }

    /** `onUpdateTasks` from the admin dashboard (App.tsx:340). */
    method UpdateTasks(tasks: seq<Task>)
      requires Valid()
      modifies this`user
      ensures Valid()
      ensures user == old(user).(tasks := tasks)
    {
      user := user.(tasks := tasks);
    }

    /** The referral total handed to the referral screen (App.tsx:315). */
    function ReferralTotal(): real
      reads this
    {
      Ledger.TotalEarned(user.referrals)
    }

    // ----- start-up synchronisation -----

    /** The `/api/config` answer (App.tsx:83-86). */
    method ConfigLoaded(res: Ledger.ConfigResponse)
      modifies this`config
      ensures config == Ledger.ApplyConfigResponse(old(config), res)
    {
      config := Ledger.ApplyConfigResponse(config, res);
    }

    /** Not opened from Telegram, or no backend (App.tsx:98-101). */
    method LoadWithoutBackend()
      requires Valid()
      modifies this`user
      ensures Valid()
      ensures user == Ledger.GuestFallback(old(user))
    {
      user := Ledger.GuestFallback(user);
    }

    /** The `/api/me` answer after registering (App.tsx:110-120). */
    method UserLoaded(t: TelegramUser, me: Ledger.MeResponse)
      requires Valid()
      modifies this`user, this`config
      ensures Valid()
      ensures user == Ledger.MergeMeOnLoad(old(user), LoadName(t), me)
      ensures config == Ledger.MergeMeConfig(old(config), me)
    {
      user := Ledger.MergeMeOnLoad(user, LoadName(t), me);
      config := Ledger.MergeMeConfig(config, me);
    }

    /** A failed load keeps everything but takes the Telegram name (App.tsx:121-124). */
    method LoadFailed(t: TelegramUser)
      requires Valid()
      modifies this`user
      ensures Valid()
      ensures user == old(user).(username := LoadName(t))
    {
      user := user.(username := LoadName(t));
    }

    /** The second effect's name sync (App.tsx:142-145); without an id it does nothing. */
    method NameSynced(t: TelegramUser)
      requires Valid()
      modifies this`user
      ensures Valid()
      ensures t.id.None? || t.id.value == 0 ==> user == old(user)
      ensures t.id.Some? && t.id.value != 0 ==> user == old(user).(username := SyncName(t))
    {
      if t.id.Some? && t.id.value != 0 {
        user := user.(username := SyncName(t));
      }
    }

    /** The second effect's `/api/me` merge (App.tsx:155-161). */
    method MeSynced(data: Option<Ledger.MeResponse>)
      requires Valid()
      modifies this`user
      ensures Valid()
      ensures user == Ledger.MergeMeSync(old(user), data)
    {
      user := Ledger.MergeMeSync(user, data);
    }

    // ----- configuration -----

    /** `updateConfig` (App.tsx:201-212): the new configuration is taken locally
        whether or not saving it to the backend succeeds. */
    method UpdateConfig(next: AppConfig)
      modifies this`config
      ensures config == next
    {
      config := next;
    }

    // ----- the admin entrance -----

    /** `handleAdminTrigger` (App.tsx:176-187). */
    method AdminTrigger()
      requires Valid()
      modifies this`clickCount, this`isPinModalOpen
      ensures Valid()
      ensures var r := AdminAccess.AdminTap(old(clickCount));
              clickCount == r.count && isPinModalOpen == (old(isPinModalOpen) || r.opensPin)
    {
      var r := AdminAccess.AdminTap(clickCount);
      clickCount := r.count;
      if r.opensPin {
        isPinModalOpen := true;
      }
    }

    /** Two seconds without a tap reset the counter (App.tsx:183-185). */
    method TapTimerExpired()
      requires Valid()
      modifies this`clickCount
      ensures Valid()
      ensures clickCount == 0
    {
      clickCount := 0;
    }

    method SetPinInput(s: string)
      modifies this`pinInput
      ensures pinInput == s
    {
      pinInput := s;
    }

    /** "Cancel" in the PIN dialog (App.tsx:331). */
    method CancelPin()
      modifies this`isPinModalOpen, this`pinInput
      ensures !isPinModalOpen && pinInput == ""
    {
      isPinModalOpen := false;
      pinInput := "";
    }

    /** `handlePinSubmit` (App.tsx:189-198). */
    method PinSubmit()
      modifies this`isAdminOpen, this`isPinModalOpen, this`pinInput
      ensures AdminAccess.PinGate(isAdminOpen, isPinModalOpen, pinInput)
              == AdminAccess.PinSubmit(AdminAccess.PinGate(old(isAdminOpen), old(isPinModalOpen), old(pinInput)))
    {
      var g := AdminAccess.PinSubmit(AdminAccess.PinGate(isAdminOpen, isPinModalOpen, pinInput));
      isAdminOpen := g.isAdminOpen;
      isPinModalOpen := g.isPinModalOpen;
      pinInput := g.pinInput;
    }
  }
}
