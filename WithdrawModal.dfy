/**
 * The payout dialog (WithdrawModal.tsx): the amount and address it accepts, the
 * `POST /api/withdraw` request it sends, and its form / success / error steps.
 */
module Withdraw {
  import opened Wrappers
  import opened Types
  import opened Text

  datatype Step = Form | Success | Error

  /** `isValid` (WithdrawModal.tsx:23). A `NaN` amount fails every comparison, and
      the address length is counted in UTF-16 code units. Valid input needs a
      balance at least the minimum and an address of at least six characters. */
  function IsValid(amount: string, address: string, minWithdraw: int, balance: real): (r: bool)
    ensures r ==> minWithdraw as real <= balance
    ensures r ==> |Trim(address)| >= 6
  {
    var a := ParseFloat(amount);
    a.Some? && a.value >= minWithdraw as real && Utf16Length(Trim(address)) > 10 && a.value <= balance
  }

  /** With a balance below the minimum no amount at all is accepted. */
  lemma BalanceBelowMinimumNeverValid(amount: string, address: string, minWithdraw: int, balance: real)
    requires balance < minWithdraw as real
    ensures !IsValid(amount, address, minWithdraw, balance)
  {
  }

  /** Text with no leading number (it parses to `NaN`) is never accepted. */
  lemma NotANumberRejected(amount: string, address: string, minWithdraw: int, balance: real)
    requires var u := Unsigned(amount).0;
             LeadingDigits(u) == 0 && !(|u| >= 2 && u[0] == '.' && IsDigit(u[1]))
    ensures !IsValid(amount, address, minWithdraw, balance)
  {
  }

  /** White space around the address does not count towards its length. */
  lemma AddressPaddingIgnored(amount: string, p: string, address: string, q: string, minWithdraw: int, balance: real)
    requires AllWhite(p) && AllWhite(q)
    ensures IsValid(amount, p + address + q, minWithdraw, balance) == IsValid(amount, address, minWithdraw, balance)
  {
    TrimIgnoresPadding(p, address, q);
  }

  /** A whole amount typed in decimal is accepted exactly when it lies between the
      minimum and the balance and the address is long enough. */
  lemma WholeAmountValid(n: nat, address: string, minWithdraw: int, balance: real)
    ensures IsValid(NatToString(n), address, minWithdraw, balance) <==>
              minWithdraw <= n && n as real <= balance && Utf16Length(Trim(address)) > 10
  {
    ParseFloatNatToString(n);
  }

  /** The length test counts code units, as JavaScript does: an address of six
      characters outside the Basic Multilingual Plane (six emoji, say) is twelve
      code units long, and so long enough. */
  lemma WideCharactersCountTwice(n: nat, address: string, minWithdraw: int, balance: real)
    requires |address| == 6 && forall i :: 0 <= i < |address| ==> address[i] as int > 0xFFFF
    requires minWithdraw <= n && n as real <= balance
    ensures IsValid(NatToString(n), address, minWithdraw, balance)
  {
    assert !IsWhite(address[0]) && !IsWhite(address[5]);
    TrimUnpadded(address);
    assert Utf16Length(Trim(address)) == 12;
    WholeAmountValid(n, address, minWithdraw, balance);
  }

  /** The body of a `POST /api/withdraw` request; `None` for a `NaN` amount. */
  datatype WithdrawRequest = WithdrawRequest(tgId: int, amount: Option<real>, address: string)

  /** What `fetch` did: answered with `r.ok`, or threw. */
  datatype FetchOutcome = Responded(ok: bool) | Threw

  /** The request sent, if any, and the boolean `sendWithdrawRequest` resolves to. */
  datatype SendResult = SendResult(request: Option<WithdrawRequest>, ok: bool)

  /** `sendWithdrawRequest` (WithdrawModal.tsx:25-40): nothing is sent without a
      Telegram id or without the dialog's own backend URL (`Deployment.ModalUrl`);
      a sent request succeeds exactly when the backend answers with an ok status,
      and a thrown `fetch` counts as failure. */
  function SendWithdrawRequest(tgId: Option<int>, d: Deployment, outcome: FetchOutcome, amount: string, address: string): (r: SendResult)
    ensures r.request.Some? <==> Backend(tgId, d.ModalUrl()).Linked()
    ensures r.request.Some? ==> r.request.value == WithdrawRequest(tgId.value, ParseFloat(amount), address)
    ensures r.ok <==> Backend(tgId, d.ModalUrl()).Linked() && outcome == Responded(true)
  {
    if tgId.None? || tgId.value == 0 then SendResult(None, false)
    else if d.ModalUrl() == "" then SendResult(None, false)
    else
      var req := WithdrawRequest(tgId.value, ParseFloat(amount), address);
      match outcome
      case Responded(ok) => SendResult(Some(req), ok)
      case Threw => SendResult(Some(req), false)
  }

  /** A deployment that sets only `VITE_BACKEND_URL` links the app, which sends its
      `/api/earn` requests, but not the payout dialog: every payout fails without
      a request, whatever the backend would have answered. */
  lemma ViteOnlyDeploymentCannotWithdraw(tgId: Option<int>, d: Deployment, outcome: FetchOutcome, amount: string, address: string)
    requires tgId.Some? && tgId.value != 0
    requires d.injectedUrl == "" && d.AppUrl() != ""
    ensures Backend(tgId, d.AppUrl()).Linked()
    ensures SendWithdrawRequest(tgId, d, outcome, amount, address) == SendResult(None, false)
  {
    assert d.ModalUrl() == "";
  }

  /** The dialog's state. `balance` and `minWithdraw` are its props, which the
      app re-renders with the current `user.points` and `config.minWithdraw`
      (App.tsx:339) while the dialog is open. `pending` is the result of the
      submission whose 800 ms timeout has yet to show it (the `ok` that timeout's
      closure captures), `None` when no timeout is pending. */
  class WithdrawForm {
    var balance: real
    var minWithdraw: int
    var address: string
    var amount: string
    var step: Step
    var isSubmitting: bool
    var pending: Option<SendResult>

    constructor(balance: real, minWithdraw: int)
      ensures this.balance == balance && this.minWithdraw == minWithdraw
      ensures address == "" && amount == "" && step == Form && !isSubmitting && pending == None
    {
      this.balance := balance;
      this.minWithdraw := minWithdraw;
      address := "";
      amount := "";
      step := Form;
      isSubmitting := false;
      pending := None;
    }

    /** `isValid` (WithdrawModal.tsx:23), recomputed from the current props and input. */
    predicate InputValid()
      reads this
    {
      IsValid(amount, address, minWithdraw, balance)
    }

    /** The "Verify & Payout" button is enabled (WithdrawModal.tsx:117): never
        while a submission runs, and only for a balance that reaches the minimum
        and an address of at least six characters. */
    predicate SubmitEnabled(): (r: bool)
      reads this
      ensures r ==> !isSubmitting && minWithdraw as real <= balance && |Trim(address)| >= 6
    {
      InputValid() && !isSubmitting
    }

    /** A re-render with new props: a mining credit or a config answer changed
        the balance or the minimum while the dialog is open. */
    method PropsChanged(b: real, m: int)
      modifies this`balance, this`minWithdraw
      ensures balance == b && minWithdraw == m
    {
      balance := b;
      minWithdraw := m;
    }

    method SetAddress(a: string)
      modifies this`address
      ensures address == a
    {
      address := a;
    }

    method SetAmount(a: string)
      modifies this`amount
      ensures amount == a
    {
      amount := a;
    }

    /** The first half of `handleSubmit` (WithdrawModal.tsx:42-46): input that is
        invalid against the current props does nothing; otherwise the dialog shows
        it is submitting, the request is sent with the current amount and address,
        and its outcome waits for the timeout. */
    method BeginSubmit(tgId: Option<int>, d: Deployment, outcome: FetchOutcome) returns (sent: Option<SendResult>)
      modifies this`isSubmitting, this`pending
      ensures !old(InputValid()) ==> sent == None && isSubmitting == old(isSubmitting) && pending == old(pending)
      ensures old(InputValid()) ==> isSubmitting && sent == Some(SendWithdrawRequest(tgId, d, outcome, amount, address))
      ensures old(InputValid()) ==> pending == sent
    {
      if !InputValid() {
        return None;
      }
      isSubmitting := true;
      sent := Some(SendWithdrawRequest(tgId, d, outcome, amount, address));
      pending := sent;
    }

    /** The delayed second half (WithdrawModal.tsx:47-50): the pending request's
        outcome becomes the result step. */
    method FinishSubmit()
      requires pending.Some?
      modifies this`step, this`isSubmitting, this`pending
      ensures step == (if old(pending.value.ok) then Success else Error)
      ensures !isSubmitting && pending == None
    {
      step := if pending.value.ok then Success else Error;
      isSubmitting := false;
      pending := None;
    }

    /** "Retry Handshake" (WithdrawModal.tsx:173) goes back to the form, keeping the input. */
    method Retry()
      modifies this`step
      ensures step == Form
    {
      step := Form;
    }
  }

  /** A credit that lifts the balance to a whole amount turns a payout the
      dialog refused into one it accepts. */
  lemma CreditMakesAmountValid(n: nat, minWithdraw: int, before: real, after: real, address: string)
    requires minWithdraw <= n && before < n as real <= after
    requires Utf16Length(Trim(address)) > 10
    ensures !IsValid(NatToString(n), address, minWithdraw, before)
    ensures IsValid(NatToString(n), address, minWithdraw, after)
  {
    WholeAmountValid(n, address, minWithdraw, before);
    WholeAmountValid(n, address, minWithdraw, after);
  }

  /** On the dialog itself, validity follows the live props: with the same
      input typed, the button is enabled before and after a re-render exactly as
      `IsValid` judges the input against the props of that moment. Together with
      `CreditMakesAmountValid`, a credit that arrives with the dialog open
      enables a payout the dialog refused before. */
  method ValidityFollowsProps(amount: string, address: string, minWithdraw: int, before: real, after: real)
      returns (enabledBefore: bool, enabledAfter: bool)
    ensures enabledBefore == IsValid(amount, address, minWithdraw, before)
    ensures enabledAfter == IsValid(amount, address, minWithdraw, after)
  {
    var form := new WithdrawForm(before, minWithdraw);
    form.SetAmount(amount);
    form.SetAddress(address);
    assert form.amount == amount && form.address == address && !form.isSubmitting;
    assert form.balance == before && form.minWithdraw == minWithdraw;
    enabledBefore := form.SubmitEnabled();
    form.PropsChanged(after, minWithdraw);
    assert form.amount == amount && form.address == address && !form.isSubmitting;
    assert form.balance == after && form.minWithdraw == minWithdraw;
    enabledAfter := form.SubmitEnabled();
  }
}
