/**
 * `register`: idempotent account creation with a signup bonus, a fresh
 * referral code, and a bonus for the inviter named by a referral code.
 */
module Registration {
  import opened Results
  import opened Money
  import opened Ledger

  /** Starting balance of every new account. */
  const SignupBonus: real := 25.0

  /** Credit paid to the inviter of a new account. */
  const ReferralBonus: real := 25.0

  /** Answer of `register`. */
  datatype Registered = Registered(balance: Amount, refCode: string, wasNew: bool, wasBonus: bool)

  /**
   * The code-generation loop: keep drawing random codes until one is held by
   * no account. `draws` are the random tokens in the order they are drawn;
   * the loop needs some draw to be unused in order to stop.
   */
  method PickRefCode(w: World, draws: seq<string>) returns (code: string, attempts: nat)
    requires exists k :: 0 <= k < |draws| && !CodeTaken(w, draws[k])
    ensures attempts < |draws| && code == draws[attempts]
    ensures !CodeTaken(w, code)
    ensures forall k :: 0 <= k < attempts ==> CodeTaken(w, draws[k])
  {
    attempts := 0;
    while CodeTaken(w, draws[attempts])
      invariant attempts < |draws|
      invariant forall k :: 0 <= k < attempts ==> CodeTaken(w, draws[k])
      invariant exists k :: attempts <= k < |draws| && !CodeTaken(w, draws[k])
      decreases |draws| - attempts
    {
      attempts := attempts + 1;
    }
    code := draws[attempts];
  }

  /** The inviter a supplied referral code resolves to; an absent or empty code resolves to nobody. */
  function ResolveInviter(w: World, refCode: Option<string>): (r: Option<nat>)
    ensures r.Some? <==> refCode.Some? && refCode.value != "" && CodeTaken(w, refCode.value)
    ensures r.Some? ==> r.value < |w.accounts| && w.accounts[r.value].refCode == refCode.value
  {
    if refCode.Some? && refCode.value != "" then FindByRefCode(w, refCode.value) else None
  }

  /** All rows of `before` survive at the same positions, except that row `j` may differ in its balance. */
  ghost predicate RowsKept(before: seq<Account>, after: seq<Account>, j: int)
  {
    |before| <= |after|
    && forall k :: 0 <= k < |before| && k != j ==> after[k] == before[k]
  }

  /**
   * `register`. An existing identity gets its current data back and nothing
   * changes. Otherwise a new row with the signup bonus and `newCode` (the
   * result of the code-generation loop) is appended, and a resolving
   * referral code credits the inviter and records one referral fact.
   */
  function Register(w: World, tid: TelegramId, refCode: Option<string>, newCode: string): (r: (World, Registered))
    requires !HasUser(w, tid) ==> !CodeTaken(w, newCode)
    ensures HasUser(w, tid) ==>
      var a := w.accounts[FindUser(w, tid).value];
      r == (w, Registered(a.balance, a.refCode, false, false))
    ensures !HasUser(w, tid) ==>
      var (w', out) := r;
      var n := |w.accounts|;
      && out.wasNew
      && (out.wasBonus <==> refCode.Some? && refCode.value != "" && CodeTaken(w, refCode.value))
      && |w'.accounts| == n + 1
      && w'.accounts[n] == Account(tid, SignupBonus, newCode,
                                   if out.wasBonus then Some(w.accounts[FindByRefCode(w, refCode.value).value].telegramId) else None,
                                   None, None, 0.0)
      && out == Registered(SignupBonus, newCode, true, out.wasBonus)
      && w'.upgrades == w.upgrades && w'.catalog == w.catalog && w'.owned == w.owned
      && w'.transactions == w.transactions
      && (!out.wasBonus ==>
            && w'.accounts[..n] == w.accounts
            && w'.referrals == w.referrals
            && TotalBalance(w'.accounts) == TotalBalance(w.accounts) + SignupBonus)
      && (out.wasBonus ==>
            var j := FindByRefCode(w, refCode.value).value;
            && RowsKept(w.accounts, w'.accounts, j)
            && w'.accounts[j] == w.accounts[j].(balance := w.accounts[j].balance + ReferralBonus)
            && w'.referrals == w.referrals + [Referral(w.accounts[j].telegramId, tid)]
            && TotalBalance(w'.accounts) == TotalBalance(w.accounts) + SignupBonus + ReferralBonus)
  {
    match FindUser(w, tid)
    case Some(i) =>
      var a := w.accounts[i];
      (w, Registered(a.balance, a.refCode, false, false))
    case None =>
      var inviter := ResolveInviter(w, refCode);
      var inviterId := if inviter.Some? then Some(w.accounts[inviter.value].telegramId) else None;
      var created := Account(tid, SignupBonus, newCode, inviterId, None, None, 0.0);
      var rows := w.accounts + [created];
      TotalAfterAppend(w.accounts, created);
      match inviter
      case None =>
        (w.(accounts := rows), Registered(SignupBonus, newCode, true, false))
      case Some(j) =>
        var inv := rows[j];
        TotalAfterUpdate(rows, j, inv.(balance := inv.balance + ReferralBonus));
        (w.(accounts := rows[j := inv.(balance := inv.balance + ReferralBonus)],
            referrals := w.referrals + [Referral(inv.telegramId, tid)]),
         Registered(SignupBonus, newCode, true, true))
  }

  /** Registration keeps identities and referral codes unique and money non-negative. */
  lemma {:induction false} RegisterKeepsValid(w: World, tid: TelegramId, refCode: Option<string>, newCode: string)
    requires Valid(w)
    requires !HasUser(w, tid) ==> !CodeTaken(w, newCode)
    ensures Valid(Register(w, tid, refCode, newCode).0)
  {
    if !HasUser(w, tid) {
      var inviter := ResolveInviter(w, refCode);
      var inviterId := if inviter.Some? then Some(w.accounts[inviter.value].telegramId) else None;
      var created := Account(tid, SignupBonus, newCode, inviterId, None, None, 0.0);
      var w1 := w.(accounts := w.accounts + [created]);
      AppendKeepsValid(w, created);
      if inviter.Some? {
        var j := inviter.value;
        UpdateKeepsValid(w1, j, w1.accounts[j].(balance := w1.accounts[j].balance + ReferralBonus));
      }
    }
  }

  /** Registering the same identity twice changes nothing the second time. */
  lemma {:induction false} RegisterIdempotent(w: World, tid: TelegramId, refCode: Option<string>, newCode: string,
                           refCode2: Option<string>, newCode2: string)
    requires Valid(w)
    requires !HasUser(w, tid) ==> !CodeTaken(w, newCode)
    ensures var w' := Register(w, tid, refCode, newCode).0;
            Register(w', tid, refCode2, newCode2).0 == w'
            && !Register(w', tid, refCode2, newCode2).1.wasNew
            && !Register(w', tid, refCode2, newCode2).1.wasBonus
  {
    var w' := Register(w, tid, refCode, newCode).0;
    if !HasUser(w, tid) {
      assert w'.accounts[|w.accounts|].telegramId == tid;
    }
  }
}
