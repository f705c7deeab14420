/**
 * The economy API as one step function over requests, and the invariants
 * every sequence of requests keeps: balances and pending claims stay
 * non-negative, identities and referral codes stay unique, upgrade levels
 * never fall, and ownership facts, transactions and referral facts are only
 * ever added to.
 */
module Economy {
  import opened Results
  import opened Money
  import opened Pricing
  import opened Ledger
  import opened Mining
  import opened Registration
  import opened Shop
  import opened Transfer

  /** A state-changing request. */
  datatype Request =
    | RegisterReq(tid: TelegramId, refCode: Option<string>, newCode: string)
    | StartMiningReq(tid: TelegramId)
    | MiningStatusReq(tid: TelegramId)
    | ClaimReq(tid: TelegramId)
    | BuyCardReq(tid: TelegramId, cardId: CardId)
    | BuyUpgradeReq(tid: TelegramId, kindName: string)
    | AddGameRewardReq(tid: TelegramId, reward: Amount)
    | SendReq(from: TelegramId, to: TelegramId, amount: Amount)

  /** A registration's code must be the outcome of the code-generation loop. */
  predicate Admissible(w: World, req: Request)
  {
    req.RegisterReq? ==> (!HasUser(w, req.tid) ==> !CodeTaken(w, req.newCode))
  }

  /** The world after serving one request at time `now`; a refused request changes nothing. */
  function Step(w: World, req: Request, now: Time): World
    requires Admissible(w, req)
  {
    match req
    case RegisterReq(tid, code, newCode) => Register(w, tid, code, newCode).0
    case StartMiningReq(tid) => WorldAfter(StartMining(w, tid, now), w)
    case MiningStatusReq(tid) => WorldAfter(MiningStatus(w, tid, now), w)
    case ClaimReq(tid) => WorldAfter(Claim(w, tid, now), w)
    case BuyCardReq(tid, card) => WorldAfter(BuyCard(w, tid, card), w)
    case BuyUpgradeReq(tid, kind) => WorldAfter(BuyUpgrade(w, tid, kind), w)
    case AddGameRewardReq(tid, reward) => WorldAfter(AddGameReward(w, tid, reward), w)
    case SendReq(from, to, amount) => WorldAfter(Send(w, from, to, amount, now), w)
  }

  function WorldAfter<T>(r: Result<(World, T), Error>, w: World): World
  {
    if r.Ok? then r.value.0 else w
  }

  /** Two rows agree on the fields fixed at creation. */
  predicate SameKeys(a: Account, b: Account)
  {
    a.telegramId == b.telegramId && a.refCode == b.refCode && a.refBy == b.refBy
  }

  /** No account disappears or changes its identity, code or inviter. */
  ghost predicate KeysKept(w: World, w': World)
  {
    |w.accounts| <= |w'.accounts|
    && forall k :: 0 <= k < |w.accounts| ==> SameKeys(w.accounts[k], w'.accounts[k])
  }

  /** No upgrade level falls. */
  ghost predicate LevelsKept(w: World, w': World)
  {
    forall t, k :: Level(w, t, k) <= Level(w', t, k)
  }

  /** What one request may do to the parts of the world that only grow. */
  ghost predicate Grows(w: World, w': World)
  {
    && KeysKept(w, w')
    && LevelsKept(w, w')
    && w.owned <= w'.owned
    && w'.catalog == w.catalog
    && w.transactions <= w'.transactions
    && w.referrals <= w'.referrals
  }

  /** A step that rewrites one row's money and mining fields, and at most adds ownership, only grows the world. */
  lemma RowStepGrows(w: World, w': World, i: nat)
    requires i < |w.accounts| == |w'.accounts| && w'.accounts == w.accounts[i := w'.accounts[i]]
    requires SameKeys(w.accounts[i], w'.accounts[i])
    requires w'.upgrades == w.upgrades && w'.catalog == w.catalog && w.owned <= w'.owned
    requires w'.transactions == w.transactions && w'.referrals == w.referrals
    ensures Grows(w, w')
  {
  }

  lemma {:induction false} MiningStepGrows(w: World, req: Request, now: Time)
    requires Valid(w) && (req.StartMiningReq? || req.MiningStatusReq? || req.ClaimReq?)
    ensures Valid(Step(w, req, now)) && Grows(w, Step(w, req, now))
  {
    MiningKeepsValid(w, req.tid, now);
    var w' := Step(w, req, now);
    if w' != w {
      var i := FindUser(w, req.tid).value;
      assert OnlyRowChanged(w, w', i);
      RowStepGrows(w, w', i);
    }
  }

  lemma {:induction false} RegisterStepGrows(w: World, req: Request, now: Time)
    requires Valid(w) && req.RegisterReq? && Admissible(w, req)
    ensures Valid(Step(w, req, now)) && Grows(w, Step(w, req, now))
  {
    RegisterKeepsValid(w, req.tid, req.refCode, req.newCode);
    var (w', out) := Register(w, req.tid, req.refCode, req.newCode);
    if !HasUser(w, req.tid) {
      assert KeysKept(w, w') by {
        forall k | 0 <= k < |w.accounts|
          ensures SameKeys(w.accounts[k], w'.accounts[k])
        {
          if out.wasBonus {
            assert RowsKept(w.accounts, w'.accounts, FindByRefCode(w, req.refCode.value).value);
          } else {
            assert w'.accounts[..|w.accounts|] == w.accounts;
            assert w'.accounts[k] == w'.accounts[..|w.accounts|][k];
          }
        }
      }
      assert w'.upgrades == w.upgrades;
    }
  }

  lemma {:induction false} BuyCardStepGrows(w: World, req: Request, now: Time)
    requires Valid(w) && req.BuyCardReq?
    ensures Valid(Step(w, req, now)) && Grows(w, Step(w, req, now))
  {
    var r := BuyCard(w, req.tid, req.cardId);
    if r.Ok? {
      var w' := r.value.0;
      var i := FindUser(w, req.tid).value;
      UpdateKeepsValid(w, i, w'.accounts[i]);
      assert w' == w.(accounts := w.accounts[i := w'.accounts[i]], owned := w'.owned);
      RowStepGrows(w, w', i);
    }
  }

  lemma {:induction false} BuyUpgradeStepGrows(w: World, req: Request, now: Time)
    requires Valid(w) && req.BuyUpgradeReq?
    ensures Valid(Step(w, req, now)) && Grows(w, Step(w, req, now))
  {
    var r := BuyUpgrade(w, req.tid, req.kindName);
    if r.Ok? {
      var w' := r.value.0;
      var i := FindUser(w, req.tid).value;
      var w1 := w.(accounts := w'.accounts);
      UpdateKeepsValid(w, i, w'.accounts[i]);
      RowStepGrows(w, w1, i);
      assert LevelsKept(w, w');
    }
  }

  lemma {:induction false} RewardStepGrows(w: World, req: Request, now: Time)
    requires Valid(w) && req.AddGameRewardReq?
    ensures Valid(Step(w, req, now)) && Grows(w, Step(w, req, now))
  {
    var r := AddGameReward(w, req.tid, req.reward);
    if r.Ok? {
      var w' := r.value.0;
      var i := FindUser(w, req.tid).value;
      UpdateKeepsValid(w, i, w'.accounts[i]);
      RowStepGrows(w, w', i);
    }
  }

  /** A transfer changes only balances. */
  lemma MoveKeepsKeys(rows: seq<Account>, s: nat, d: nat, amount: Amount)
    requires s < |rows| && d < |rows|
    ensures forall k :: 0 <= k < |rows| ==> SameKeys(rows[k], Move(rows, s, d, amount)[k])
  {
  }

  lemma {:induction false} SendStepGrows(w: World, req: Request, now: Time)
    requires Valid(w) && req.SendReq?
    ensures Valid(Step(w, req, now)) && Grows(w, Step(w, req, now))
  {
    if Send(w, req.from, req.to, req.amount, now).Ok? {
      SendKeepsValid(w, req.from, req.to, req.amount, now);
      var w' := Step(w, req, now);
      var s := FindUser(w, req.from).value;
      var d := FindUser(w, req.to).value;
      MoveKeepsKeys(w.accounts, s, d, req.amount);
      assert KeysKept(w, w');
      assert w'.upgrades == w.upgrades;
    }
  }

  /** One request keeps the world valid and only lets it grow. */
  lemma {:induction false} StepInvariant(w: World, req: Request, now: Time)
    requires Valid(w) && Admissible(w, req)
    ensures Valid(Step(w, req, now))
    ensures Grows(w, Step(w, req, now))
  {
    match req
    case RegisterReq(_, _, _) => RegisterStepGrows(w, req, now);
    case StartMiningReq(_) => MiningStepGrows(w, req, now);
    case MiningStatusReq(_) => MiningStepGrows(w, req, now);
    case ClaimReq(_) => MiningStepGrows(w, req, now);
    case BuyCardReq(_, _) => BuyCardStepGrows(w, req, now);
    case BuyUpgradeReq(_, _) => BuyUpgradeStepGrows(w, req, now);
    case AddGameRewardReq(_, _) => RewardStepGrows(w, req, now);
    case SendReq(_, _, _) => SendStepGrows(w, req, now);
  }

  /** Serves requests in order, each at its own time. */
  function Run(w: World, reqs: seq<(Request, Time)>): World
    requires RunAdmissible(w, reqs)
    decreases |reqs|
  {
    if |reqs| == 0 then w else Run(Step(w, reqs[0].0, reqs[0].1), reqs[1..])
  }

  /** Every registration in the run receives a code nobody holds at that moment. */
  predicate RunAdmissible(w: World, reqs: seq<(Request, Time)>)
    decreases |reqs|
  {
    |reqs| == 0 || (Admissible(w, reqs[0].0) && RunAdmissible(Step(w, reqs[0].0, reqs[0].1), reqs[1..]))
  }

  /**
   * After any sequence of requests from a valid world, no balance or pending
   * claim is negative, identities and codes are unique, and levels,
   * ownership, transactions and referral facts have only grown.
   */
  lemma {:induction false} RunInvariant(w: World, reqs: seq<(Request, Time)>)
    requires Valid(w) && RunAdmissible(w, reqs)
    ensures Valid(Run(w, reqs))
    ensures Grows(w, Run(w, reqs))
    decreases |reqs|
  {
    if |reqs| > 0 {
      var w1 := Step(w, reqs[0].0, reqs[0].1);
      StepInvariant(w, reqs[0].0, reqs[0].1);
      RunInvariant(w1, reqs[1..]);
    }
  }

  /** A world with no accounts and nothing recorded, over a given card catalog. */
  function Empty(catalog: map<CardId, Card>): (w: World)
    ensures Valid(w)
  {
    World([], map[], catalog, {}, [], [])
  }

  /** Balances are never negative after any sequence of requests from an empty world. */
  lemma {:induction false} BalancesNeverNegative(catalog: map<CardId, Card>, reqs: seq<(Request, Time)>, k: nat)
    requires RunAdmissible(Empty(catalog), reqs)
    requires k < |Run(Empty(catalog), reqs).accounts|
    ensures Run(Empty(catalog), reqs).accounts[k].balance >= 0.0
  {
    RunInvariant(Empty(catalog), reqs);
  }
}
