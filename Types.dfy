/**
 * The application's records: tasks, referrals, the economic configuration and
 * the user's state with its mining session, and the start-up values of each.
 */
module Types {
  import opened Wrappers

  datatype TaskKind = Video | Link | Telegram

  /** `timer` and `link` are optional in the source; `timer` counts seconds. */
  datatype Task = Task(
    id: string,
    title: string,
    reward: int,
    kind: TaskKind,
    isCompleted: bool,
    timer: Option<int>,
    link: Option<string>)

  datatype Referral = Referral(id: string, username: string, earned: real, date: string)

  /** `miningRate` is credited per second of `miningDuration`, which is in seconds. */
  datatype AppConfig = AppConfig(
    miningRate: real,
    miningDuration: int,
    referralReward: int,
    minWithdraw: int,
    exchangeRate: int,
    totalMembers: int,
    activeNow: int,
    telegramBotToken: Option<string>,
    adminChatId: Option<string>)

  /** `startTime` is a millisecond timestamp. */
  datatype MiningSession = MiningSession(isActive: bool, startTime: Option<int>)

  datatype UserState = UserState(
    username: string,
    points: real,
    referrals: seq<Referral>,
    tasks: seq<Task>,
    miningSession: MiningSession)

  /** Where the client stands towards the backend: the Telegram user id (`None`
      or `0` when the page is not opened from Telegram) and the backend's base URL. */
  datatype Backend = Backend(tgId: Option<int>, url: string) {
    /** The `tgId && BACKEND_URL` test the source puts before every request. */
    predicate Linked() {
      tgId.Some? && tgId.value != 0 && url != ""
    }
  }

  /** `.replace(/\/$/, '')`: one trailing '/' is cut off, if there is one. */
  function StripTrailingSlash(s: string): (r: string)
    ensures |s| > 0 && s[|s| - 1] == '/' ==> r + "/" == s
    ensures (|s| == 0 || s[|s| - 1] != '/') ==> r == s
  {
    if |s| > 0 && s[|s| - 1] == '/' then s[..|s| - 1] else s
  }

  /** The two places a base URL can be configured: the run-time injection
      `window._ENV_.BACKEND_URL` and the build-time `VITE_BACKEND_URL` ("" when unset). */
  datatype Deployment = Deployment(injectedUrl: string, viteUrl: string) {
    /** The app's `BACKEND_URL` (App.tsx:16): the injected URL, else the Vite one. */
    function AppUrl(): string {
      StripTrailingSlash(if injectedUrl != "" then injectedUrl else viteUrl)
    }

    /** The payout dialog's own `BACKEND_URL` (WithdrawModal.tsx:6): the injected URL only. */
    function ModalUrl(): string {
      StripTrailingSlash(injectedUrl)
    }
  }

  /** The app and the payout dialog use the same URL exactly when one is injected
      at run time, or the Vite URL is empty once its trailing '/' is cut. */
  lemma UrlsAgreeIff(d: Deployment)
    ensures d.AppUrl() == d.ModalUrl() <==> d.injectedUrl != "" || StripTrailingSlash(d.viteUrl) == ""
  {
    if d.injectedUrl == "" {
      assert d.ModalUrl() == "";
    }
  }

  /** The body of a `POST /api/earn` request. */
  datatype EarnRequest = EarnRequest(tgId: int, amount: real, reason: string)

  const IdleSession: MiningSession := MiningSession(false, None)

  const DefaultConfig: AppConfig := AppConfig(
    miningRate := 0.05,
    miningDuration := 3600,
    referralReward := 500,
    minWithdraw := 10000,
    exchangeRate := 1000,
    totalMembers := 14502,
    activeNow := 842,
    telegramBotToken := Some(""),
    adminChatId := Some(""))

  const DefaultTasks: seq<Task> := [
    Task("v1", "Watch Crypto News Ad", 500, Video, false, Some(20), Some("AD_CODE_123")),
    Task("t1", "Join GlowMine Official", 1000, Telegram, false, None, Some("https://t.me/GlowMine")),
    Task("l1", "Visit Partner Site", 300, Link, false, Some(20), Some("https://google.com"))
  ]

  const InitialState: UserState := UserState("Loading...", 0.0, [], DefaultTasks, IdleSession)
}
