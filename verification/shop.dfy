/**
 * Spending and earning outside mining: `buy_card`, `buy_upgrade`,
 * `add_game_reward`, and the upgrade listing of `get_upgrades`.
 */
module Shop {
  import opened Results
  import opened Money
  import opened Pricing
  import opened Ledger

  /** Current effect value of an upgrade type at a level. */
  function Effect(k: UpgradeKind, lvl: nat): real
  {
    match k
    case Speed => SpeedEffect(lvl)
    case Income => IncomeEffect(lvl)
    case Multiplier => MultiplierEffect(lvl)
  }

  /** `buy_card`: pay a card's price once and own it for good. */
  function BuyCard(w: World, tid: TelegramId, cardId: CardId): (r: Result<(World, Amount), Error>)
    ensures !HasUser(w, tid) || cardId !in w.catalog ==> r == Err(UserOrCardNotFound)
    ensures HasUser(w, tid) && cardId in w.catalog ==>
      var i := FindUser(w, tid).value;
      var a := w.accounts[i];
      var price := w.catalog[cardId].price as real;
      && ((tid, cardId) in w.owned ==> r == Err(AlreadyOwned))
      && ((tid, cardId) !in w.owned && a.balance < price ==> r == Err(NotEnoughSab))
      && (r.Ok? <==> (tid, cardId) !in w.owned && a.balance >= price)
      && (r.Ok? ==>
            var (w', newBalance) := r.value;
            && |w'.accounts| == |w.accounts|
            && w'.accounts == w.accounts[i := a.(balance := newBalance)]
            && newBalance == a.balance - price >= 0.0
            && w'.owned == w.owned + {(tid, cardId)}
            && w' == w.(accounts := w'.accounts, owned := w'.owned)
            && TotalBalance(w'.accounts) == TotalBalance(w.accounts) - price)
  {
    match FindUser(w, tid)
    case None => Err(UserOrCardNotFound)
    case Some(i) =>
      if cardId !in w.catalog then Err(UserOrCardNotFound)
      else
        var a := w.accounts[i];
        var price := w.catalog[cardId].price as real;
        if (tid, cardId) in w.owned then Err(AlreadyOwned)
        else if a.balance < price then Err(NotEnoughSab)
        else
          var a' := a.(balance := a.balance - price);
          TotalAfterUpdate(w.accounts, i, a');
          Ok((w.(accounts := w.accounts[i := a'], owned := w.owned + {(tid, cardId)}), a'.balance))
  }

  /** Buying a card a second time is refused, whatever the balance. */
  lemma {:induction false} NoDoublePurchase(w: World, tid: TelegramId, cardId: CardId)
    requires BuyCard(w, tid, cardId).Ok?
    ensures BuyCard(BuyCard(w, tid, cardId).value.0, tid, cardId) == Err(AlreadyOwned)
  {
    var i := FindUser(w, tid).value;
    var w' := BuyCard(w, tid, cardId).value.0;
    FindUserAfterUpdate(w, i, w'.accounts[i], tid);
    assert FindUser(w'.(owned := w.owned), tid) == FindUser(w, tid);
  }

  /** Answer of a successful `buy_upgrade`. */
  datatype Bought = Bought(newBalance: Amount, kind: string, level: nat)

  /** `buy_upgrade`: pay the price of the current level and go up exactly one level. */
  function BuyUpgrade(w: World, tid: TelegramId, kindName: string): (r: Result<(World, Bought), Error>)
    ensures !HasUser(w, tid) ==> r == Err(UserNotFound)
    ensures HasUser(w, tid) && ParseKind(kindName).None? ==> r == Err(UnknownUpgradeType)
    ensures HasUser(w, tid) && ParseKind(kindName).Some? ==>
      var i := FindUser(w, tid).value;
      var a := w.accounts[i];
      var k := ParseKind(kindName).value;
      var price := Price(k, Level(w, tid, k)) as real;
      && (a.balance < price ==> r == Err(NotEnoughSab))
      && (r.Ok? <==> a.balance >= price)
      && (r.Ok? ==>
            var (w', out) := r.value;
            && w'.accounts == w.accounts[i := a.(balance := out.newBalance)]
            && out.newBalance == a.balance - price >= 0.0
            && Level(w', tid, k) == Level(w, tid, k) + 1 == out.level
            && out.kind == kindName
            && (forall t, k' :: (t, k') != (tid, k) ==> Level(w', t, k') == Level(w, t, k'))
            && w'.upgrades.Keys == w.upgrades.Keys + {(tid, k)}
            && w' == w.(accounts := w'.accounts, upgrades := w'.upgrades))
  {
    match FindUser(w, tid)
    case None => Err(UserNotFound)
    case Some(i) =>
      match ParseKind(kindName)
      case None => Err(UnknownUpgradeType)
      case Some(k) =>
        var a := w.accounts[i];
        var lvl := Level(w, tid, k);
        var price := Price(k, lvl) as real;
        if a.balance < price then Err(NotEnoughSab)
        else
          var a' := a.(balance := a.balance - price);
          var w' := w.(accounts := w.accounts[i := a'], upgrades := w.upgrades[(tid, k) := lvl + 1]);
          Ok((w', Bought(a'.balance, kindName, lvl + 1)))
  }

  /** After a purchase the same upgrade costs strictly more than it just did. */
  lemma {:induction false} UpgradeGetsDearer(w: World, tid: TelegramId, kindName: string)
    requires BuyUpgrade(w, tid, kindName).Ok?
    ensures var k := ParseKind(kindName).value;
            var w' := BuyUpgrade(w, tid, kindName).value.0;
            Price(k, Level(w', tid, k)) > Price(k, Level(w, tid, k))
  {
    var k := ParseKind(kindName).value;
    PriceStep(k, Level(w, tid, k));
  }

  /** `add_game_reward`: credit a positive game reward. */
  function AddGameReward(w: World, tid: TelegramId, reward: Amount): (r: Result<(World, Amount), Error>)
    ensures !HasUser(w, tid) ==> r == Err(UserNotFound)
    ensures HasUser(w, tid) ==>
      var i := FindUser(w, tid).value;
      var a := w.accounts[i];
      && (reward <= 0.0 ==> r == Err(InvalidReward))
      && (r.Ok? <==> reward > 0.0)
      && (r.Ok? ==>
            var (w', newBalance) := r.value;
            && w' == w.(accounts := w.accounts[i := a.(balance := newBalance)])
            && newBalance == a.balance + reward > a.balance
            && TotalBalance(w'.accounts) == TotalBalance(w.accounts) + reward)
  {
    match FindUser(w, tid)
    case None => Err(UserNotFound)
    case Some(i) =>
      if reward <= 0.0 then Err(InvalidReward)
      else
        var a' := w.accounts[i].(balance := w.accounts[i].balance + reward);
        TotalAfterUpdate(w.accounts, i, a');
        Ok((w.(accounts := w.accounts[i := a']), a'.balance))
  }

  /** One entry of `get_upgrades`. */
  datatype UpgradeInfo = UpgradeInfo(kind: string, level: nat, nextPrice: nat, effect: real)

  /** `get_upgrades`: every catalog type with its level, next price and current effect. */
  function ListUpgrades(w: World, tid: TelegramId): (r: Result<seq<UpgradeInfo>, Error>)
    ensures !HasUser(w, tid) <==> r == Err(UserNotFound)
    ensures r.Ok? ==> |r.value| == 3
    ensures r.Ok? ==> r.value[0].kind == "speed" && r.value[1].kind == "income" && r.value[2].kind == "multiplier"
    ensures r.Ok? ==> forall e :: e in r.value ==>
              && ParseKind(e.kind).Some?
              && e.level == Level(w, tid, ParseKind(e.kind).value)
              && e.nextPrice == Price(ParseKind(e.kind).value, e.level)
              && e.effect == Effect(ParseKind(e.kind).value, e.level)
  {
    if !HasUser(w, tid) then Err(UserNotFound)
    else
      var info := (k: UpgradeKind) =>
        var lvl := Level(w, tid, k);
        UpgradeInfo(Tag(k), lvl, Price(k, lvl), Effect(k, lvl));
      Ok([info(Speed), info(Income), info(Multiplier)])
  }

  /** The price `get_upgrades` shows is the price `buy_upgrade` charges. */
  lemma ListedPriceIsCharged(w: World, tid: TelegramId, e: UpgradeInfo)
    requires ListUpgrades(w, tid).Ok? && e in ListUpgrades(w, tid).value
    ensures var i := FindUser(w, tid).value;
            w.accounts[i].balance >= e.nextPrice as real ==>
              && BuyUpgrade(w, tid, e.kind).Ok?
              && BuyUpgrade(w, tid, e.kind).value.1.newBalance == w.accounts[i].balance - e.nextPrice as real
              && BuyUpgrade(w, tid, e.kind).value.1.level == e.level + 1
  {
  }
}
