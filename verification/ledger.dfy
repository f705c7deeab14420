/**
 * The ledger store: the world of accounts, upgrade levels, owned cards,
 * transactions and referral facts that every handler reads and updates.
 * Rows are identified by the account's external identity (its telegram id),
 * which is unique and never changes.
 */
module Ledger {
  import opened Results
  import opened Money
  import opened Pricing

  /** Seconds since an arbitrary epoch; the handlers' `now`. */
  type Time = int

  /** The external identity key of an account. */
  type TelegramId = string

  type CardId = int

  datatype Account = Account(
    telegramId: TelegramId,
    balance: Amount,
    refCode: string,
    refBy: Option<TelegramId>,
    lastMiningAt: Option<Time>,
    lockedUntil: Option<Time>,
    pendingClaim: Amount)

  /** A shop item; its price is a whole number of coins. */
  datatype Card = Card(name: string, price: int)

  /** One completed peer-to-peer transfer, recorded with kind "transfer". */
  datatype Transaction = Transaction(from: TelegramId, to: TelegramId, amount: Amount, timestamp: Time, kind: string)

  /** `inviter` was credited for bringing in `referred`. */
  datatype Referral = Referral(inviter: TelegramId, referred: TelegramId)

  datatype World = World(
    accounts: seq<Account>,
    upgrades: map<(TelegramId, UpgradeKind), nat>,
    catalog: map<CardId, Card>,
    owned: set<(TelegramId, CardId)>,
    transactions: seq<Transaction>,
    referrals: seq<Referral>)

  /** The handlers' negative answers (`ok: false` with an error message). */
  datatype Error =
    | UserNotFound
    | MiningInProgress(lockedUntil: Time)
    | ClaimFirst(pendingClaim: Amount)
    | NothingToClaim
    | MiningNotFinished
    | UserOrCardNotFound
    | AlreadyOwned
    | NotEnoughSab
    | UnknownUpgradeType
    | InvalidReward
    | InvalidData
    | NotEnoughBalance

  /** Index of the first row satisfying `p` (a query's `.first()`). */
  function FindFirst<T>(rows: seq<T>, p: T -> bool): (r: Option<nat>)
    ensures r.Some? ==> r.value < |rows| && p(rows[r.value])
    ensures r.Some? ==> forall j :: 0 <= j < r.value ==> !p(rows[j])
    ensures r.None? <==> forall j :: 0 <= j < |rows| ==> !p(rows[j])
  {
    if |rows| == 0 then None
    else if p(rows[0]) then Some(0)
    else match FindFirst(rows[1..], p)
      case None => None
      case Some(k) => Some(k + 1)
  }

  /** `User.query.filter_by(telegram_id=tid).first()` */
  function FindUser(w: World, tid: TelegramId): (r: Option<nat>)
    ensures r.Some? ==> r.value < |w.accounts| && w.accounts[r.value].telegramId == tid
    ensures r.None? <==> forall j :: 0 <= j < |w.accounts| ==> w.accounts[j].telegramId != tid
  {
    FindFirst(w.accounts, (a: Account) => a.telegramId == tid)
  }

  /** `User.query.filter_by(ref_code=code).first()` */
  function FindByRefCode(w: World, code: string): (r: Option<nat>)
    ensures r.Some? ==> r.value < |w.accounts| && w.accounts[r.value].refCode == code
    ensures r.None? <==> forall j :: 0 <= j < |w.accounts| ==> w.accounts[j].refCode != code
  {
    FindFirst(w.accounts, (a: Account) => a.refCode == code)
  }

  predicate HasUser(w: World, tid: TelegramId)
  {
    FindUser(w, tid).Some?
  }

  predicate CodeTaken(w: World, code: string)
  {
    FindByRefCode(w, code).Some?
  }

  /** Current level of an upgrade type; a missing row means level 0. */
  function Level(w: World, tid: TelegramId, k: UpgradeKind): nat
  {
    if (tid, k) in w.upgrades then w.upgrades[(tid, k)] else 0
  }

  /** Identity keys are unique across rows. */
  ghost predicate UniqueIds(accts: seq<Account>)
  {
    forall i, j :: 0 <= i < j < |accts| ==> accts[i].telegramId != accts[j].telegramId
  }

  /** Referral codes are unique across rows. */
  ghost predicate UniqueCodes(accts: seq<Account>)
  {
    forall i, j :: 0 <= i < j < |accts| ==> accts[i].refCode != accts[j].refCode
  }

  /** Money fields are never negative. */
  ghost predicate NonNegative(accts: seq<Account>)
  {
    forall i :: 0 <= i < |accts| ==> accts[i].balance >= 0.0 && accts[i].pendingClaim >= 0.0
  }

  /** The invariants every handler keeps. */
  ghost predicate Valid(w: World)
  {
    UniqueIds(w.accounts) && UniqueCodes(w.accounts) && NonNegative(w.accounts)
  }

  /** In a valid world an identity names exactly one row. */
  lemma FindUserExact(w: World, tid: TelegramId, i: nat)
    requires Valid(w) && i < |w.accounts|
    ensures FindUser(w, tid) == Some(i) <==> w.accounts[i].telegramId == tid
  {
  }

  /** Sum of all balances. */
  function TotalBalance(accts: seq<Account>): real
  {
    if |accts| == 0 then 0.0 else TotalBalance(accts[..|accts| - 1]) + accts[|accts| - 1].balance
  }

  /** Replacing one row changes the total by exactly the change in that row's balance. */
  lemma {:induction false} TotalAfterUpdate(accts: seq<Account>, i: nat, a: Account)
    requires i < |accts|
    ensures TotalBalance(accts[i := a]) == TotalBalance(accts) - accts[i].balance + a.balance
  {
    var n := |accts| - 1;
    var u := accts[i := a];
    if i == n {
      assert u[..n] == accts[..n];
    } else {
      assert u[..n] == accts[..n][i := a];
      TotalAfterUpdate(accts[..n], i, a);
    }
  }

  /** Appending a row adds its balance to the total. */
  lemma TotalAfterAppend(accts: seq<Account>, a: Account)
    ensures TotalBalance(accts + [a]) == TotalBalance(accts) + a.balance
  {
    assert (accts + [a])[..|accts|] == accts;
  }

  /** Replacing the row at `i` with a row of the same identity and referral code keeps the world valid. */
  lemma UpdateKeepsValid(w: World, i: nat, a: Account)
    requires Valid(w) && i < |w.accounts|
    requires a.telegramId == w.accounts[i].telegramId && a.refCode == w.accounts[i].refCode
    requires a.balance >= 0.0 && a.pendingClaim >= 0.0
    ensures Valid(w.(accounts := w.accounts[i := a]))
  {
  }

  /** Replacing a row by one with the same identity leaves every identity lookup as it was. */
  lemma {:induction false} FindUserAfterUpdate(w: World, i: nat, a: Account, tid: TelegramId)
    requires i < |w.accounts| && a.telegramId == w.accounts[i].telegramId
    ensures FindUser(w.(accounts := w.accounts[i := a]), tid) == FindUser(w, tid)
  {
    var w' := w.(accounts := w.accounts[i := a]);
    assert forall j :: 0 <= j < |w.accounts| ==> w'.accounts[j].telegramId == w.accounts[j].telegramId;
    FirstMatchUnique(w.accounts, w'.accounts, tid);
  }

  /** Two row sequences with the same identities in the same places agree on every lookup. */
  lemma {:induction false} FirstMatchUnique(xs: seq<Account>, ys: seq<Account>, tid: TelegramId)
    requires |xs| == |ys|
    requires forall j :: 0 <= j < |xs| ==> xs[j].telegramId == ys[j].telegramId
    ensures FindFirst(xs, (a: Account) => a.telegramId == tid) == FindFirst(ys, (a: Account) => a.telegramId == tid)
    decreases |xs|
  {
    if |xs| > 0 && xs[0].telegramId != tid {
      FirstMatchUnique(xs[1..], ys[1..], tid);
    }
  }

  /** Appending a row with a new identity, an unused code and no negative money keeps the world valid. */
  lemma {:induction false} AppendKeepsValid(w: World, a: Account)
    requires Valid(w) && !HasUser(w, a.telegramId) && !CodeTaken(w, a.refCode)
    requires a.balance >= 0.0 && a.pendingClaim >= 0.0
    ensures Valid(w.(accounts := w.accounts + [a]))
  {
    var rows := w.accounts + [a];
    assert forall k :: 0 <= k < |w.accounts| ==> rows[k] == w.accounts[k];
  }
}
