/**
 * The hidden admin entrance of App.tsx: eight taps on the balance open a PIN
 * dialog, and the fixed key "2025" opens the admin dashboard.
 */
module AdminAccess {

  const AdminPin: string := "2025"
  const TapsToOpen: nat := 8

  /** The tap counter after one tap, and whether that tap opened the PIN dialog
      (App.tsx:178-181): the eighth tap opens it and resets the counter. */
  datatype TapResult = TapResult(count: nat, opensPin: bool)

  function AdminTap(count: nat): (r: TapResult)
    requires count < TapsToOpen
    ensures r.count < TapsToOpen
    ensures r.opensPin <==> count == TapsToOpen - 1
    ensures !r.opensPin ==> r.count == count + 1
  {
    if count + 1 >= TapsToOpen then TapResult(0, true) else TapResult(count + 1, false)
  }

  /** `k` taps in a row, none of them two seconds after the previous one: the
      final counter and how many times the dialog was opened. */
  function Taps(count: nat, k: nat): (nat, nat)
    requires count < TapsToOpen
    decreases k
  {
    if k == 0 then (count, 0)
    else
      var r := AdminTap(count);
      var (c, shown) := Taps(r.count, k - 1);
      (c, shown + if r.opensPin then 1 else 0)
  }

  /** From a reset counter, every eighth tap opens the dialog and the counter
      holds the number of taps since then, so it never reaches 8. */
  lemma {:induction false} TapsFromCount(count: nat, k: nat)
    requires count < TapsToOpen
    ensures Taps(count, k) == ((count + k) % TapsToOpen, (count + k) / TapsToOpen)
    decreases k
  {
    if k > 0 {
      var r := AdminTap(count);
      TapsFromCount(r.count, k - 1);
      if r.opensPin {
        assert count + k == TapsToOpen + (k - 1);
      }
    }
  }

  /** Seven quick taps do not open the dialog; the eighth does. */
  lemma EighthTapOpens()
    ensures Taps(0, 7) == (7, 0)
    ensures Taps(0, 8) == (0, 1)
  {
    TapsFromCount(0, 7);
    TapsFromCount(0, 8);
  }

  /** The admin flags and the PIN text box. */
  datatype PinGate = PinGate(isAdminOpen: bool, isPinModalOpen: bool, pinInput: string)

  /** `handlePinSubmit` (App.tsx:189-198): the input is cleared either way, and only
      the exact key opens the dashboard and closes the dialog. */
  function PinSubmit(g: PinGate): (r: PinGate)
    ensures r.pinInput == ""
    ensures r.isAdminOpen <==> g.isAdminOpen || g.pinInput == AdminPin
    ensures g.pinInput == AdminPin ==> !r.isPinModalOpen
    ensures g.pinInput != AdminPin ==> r.isPinModalOpen == g.isPinModalOpen && r.isAdminOpen == g.isAdminOpen
  {
    if g.pinInput == AdminPin then PinGate(true, false, "") else g.(pinInput := "")
  }

  /** A wrong key leaves no trace of what was typed: any two wrong keys end in the same state. */
  lemma WrongPinsIndistinguishable(g: PinGate, a: string, b: string)
    requires a != AdminPin && b != AdminPin
    ensures PinSubmit(g.(pinInput := a)) == PinSubmit(g.(pinInput := b)) == g.(pinInput := "")
  {
  }
}
