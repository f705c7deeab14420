/**
 * The mining state machine: `start_mining`, `mining_status` and `claim`.
 * A cycle runs Idle -> Locked -> Expired -> Claimable -> Idle; the step from
 * Expired to Claimable happens lazily, the first time the status is read
 * after the lock has run out, and prices the reward from the balance and
 * upgrade levels of that moment.
 */
module Mining {
  import opened Results
  import opened Money
  import opened Pricing
  import opened Ledger

  /** Answer of a successful `start_mining`. */
  datatype Started = Started(lockedUntil: Time, pendingClaim: Amount, balance: Amount)

  /** Answer of `mining_status`. */
  datatype Status = Status(locked: bool, secondsLeft: int, balance: Amount, pendingClaim: Amount)

  datatype Phase =
    | Idle       // no lock, or nothing left to compute or claim
    | Locked     // the lock lies in the future
    | Expired    // the lock has run out but no reward has been computed yet
    | Claimable  // a positive reward waits and the lock is not in the future

  /** The lock is set and lies strictly after `now`. */
  predicate LockActive(a: Account, now: Time)
  {
    a.lockedUntil.Some? && a.lockedUntil.value > now
  }

  function PhaseOf(a: Account, now: Time): Phase
  {
    if LockActive(a, now) then Locked
    else if a.pendingClaim > 0.0 then Claimable
    else if a.lockedUntil.Some? && a.pendingClaim == 0.0 then Expired
    else Idle
  }

  /** Every row other than `i`, and every other part of the world, is as before. */
  ghost predicate OnlyRowChanged(w: World, w': World, i: nat)
  {
    i < |w.accounts| && |w'.accounts| == |w.accounts|
    && w' == w.(accounts := w.accounts[i := w'.accounts[i]])
  }

  /** `start_mining`: lock the account for the duration its speed level gives. */
  function StartMining(w: World, tid: TelegramId, now: Time): (r: Result<(World, Started), Error>)
    ensures !HasUser(w, tid) ==> r == Err(UserNotFound)
    ensures HasUser(w, tid) ==>
      var i := FindUser(w, tid).value;
      var a := w.accounts[i];
      && (LockActive(a, now) ==> r == Err(MiningInProgress(a.lockedUntil.value)))
      && (!LockActive(a, now) && a.pendingClaim > 0.0 ==> r == Err(ClaimFirst(a.pendingClaim)))
      && (r.Ok? <==> PhaseOf(a, now) in {Idle, Expired})
      && (r.Ok? ==>
            var (w', out) := r.value;
            && OnlyRowChanged(w, w', i)
            && var a' := w'.accounts[i];
            && a' == a.(lastMiningAt := Some(now), lockedUntil := Some(out.lockedUntil), pendingClaim := 0.0)
            && now + 8640 <= out.lockedUntil <= now + BaseMiningTime
            && out.lockedUntil == now + MiningDuration(Level(w, tid, Speed))
            && out.pendingClaim == 0.0 && out.balance == a.balance
            && PhaseOf(a', now) == Locked)
  {
    match FindUser(w, tid)
    case None => Err(UserNotFound)
    case Some(i) =>
      var a := w.accounts[i];
      if LockActive(a, now) then Err(MiningInProgress(a.lockedUntil.value))
      else if a.pendingClaim > 0.0 then Err(ClaimFirst(a.pendingClaim))
      else
        var until := now + MiningDuration(Level(w, tid, Speed));
        var a' := a.(lastMiningAt := Some(now), lockedUntil := Some(until), pendingClaim := 0.0);
        var w' := w.(accounts := w.accounts[i := a']);
        Ok((w', Started(until, 0.0, a.balance)))
  }

  /** The reward the account would be offered if its status were read now. */
  function RewardFor(w: World, tid: TelegramId, a: Account): Amount
    requires a.balance >= 0.0
  {
    MiningReward(a.balance, Level(w, tid, Income), Level(w, tid, Multiplier))
  }

  /** `mining_status`: report the lock and, on the first read after expiry, price the reward. */
  function MiningStatus(w: World, tid: TelegramId, now: Time): (r: Result<(World, Status), Error>)
    ensures !HasUser(w, tid) ==> r == Err(UserNotFound)
    ensures HasUser(w, tid) ==> r.Ok?
    ensures r.Ok? ==>
      var i := FindUser(w, tid).value;
      var a := w.accounts[i];
      var (w', out) := r.value;
      && OnlyRowChanged(w, w', i)
      && w'.accounts[i] == a.(pendingClaim := w'.accounts[i].pendingClaim)
      && TotalBalance(w'.accounts) == TotalBalance(w.accounts)
      && out.balance == a.balance
      && out.pendingClaim == w'.accounts[i].pendingClaim
      && (out.locked <==> LockActive(a, now))
      && (out.locked ==> w' == w && out.secondsLeft == a.lockedUntil.value - now > 0)
      && (!out.locked ==> out.secondsLeft == 0)
      && (PhaseOf(a, now) != Expired ==> w' == w)
      && (PhaseOf(a, now) == Expired && a.balance >= 0.0 ==>
            w'.accounts[i].pendingClaim == RewardFor(w, tid, a))
  {
    match FindUser(w, tid)
    case None => Err(UserNotFound)
    case Some(i) =>
      var a := w.accounts[i];
      if LockActive(a, now) then
        Ok((w, Status(true, a.lockedUntil.value - now, a.balance, a.pendingClaim)))
      else if a.lockedUntil.Some? && a.pendingClaim == 0.0 then
        var reward := Round2(RawReward(a.balance, Level(w, tid, Income), Level(w, tid, Multiplier)));
        var a' := a.(pendingClaim := reward);
        var w' := w.(accounts := w.accounts[i := a']);
        TotalAfterUpdate(w.accounts, i, a');
        Ok((w', Status(false, 0, a.balance, reward)))
      else
        Ok((w, Status(false, 0, a.balance, a.pendingClaim)))
  }

  /** `claim`: pay the pending reward into the balance and return to Idle. */
  function Claim(w: World, tid: TelegramId, now: Time): (r: Result<(World, Amount), Error>)
    ensures !HasUser(w, tid) ==> r == Err(UserNotFound)
    ensures HasUser(w, tid) ==>
      var i := FindUser(w, tid).value;
      var a := w.accounts[i];
      && (a.pendingClaim <= 0.0 ==> r == Err(NothingToClaim))
      && (a.pendingClaim > 0.0 && LockActive(a, now) ==> r == Err(MiningNotFinished))
      && (r.Ok? <==> PhaseOf(a, now) == Claimable)
      && (r.Ok? ==>
            var (w', newBalance) := r.value;
            && OnlyRowChanged(w, w', i)
            && w'.accounts[i] == a.(balance := newBalance, pendingClaim := 0.0, lockedUntil := None)
            && newBalance == a.balance + a.pendingClaim
            && TotalBalance(w'.accounts) == TotalBalance(w.accounts) + a.pendingClaim
            && PhaseOf(w'.accounts[i], now) == Idle)
  {
    match FindUser(w, tid)
    case None => Err(UserNotFound)
    case Some(i) =>
      var a := w.accounts[i];
      if a.pendingClaim <= 0.0 then Err(NothingToClaim)
      else if LockActive(a, now) then Err(MiningNotFinished)
      else
        var a' := a.(balance := a.balance + a.pendingClaim, pendingClaim := 0.0, lockedUntil := None);
        TotalAfterUpdate(w.accounts, i, a');
        Ok((w.(accounts := w.accounts[i := a']), a'.balance))
  }

  /** Starting, reading the status and claiming all keep the world valid. */
  lemma {:induction false} MiningKeepsValid(w: World, tid: TelegramId, now: Time)
    requires Valid(w)
    ensures StartMining(w, tid, now).Ok? ==> Valid(StartMining(w, tid, now).value.0)
    ensures MiningStatus(w, tid, now).Ok? ==> Valid(MiningStatus(w, tid, now).value.0)
    ensures Claim(w, tid, now).Ok? ==> Valid(Claim(w, tid, now).value.0)
  {
    if HasUser(w, tid) {
      var i := FindUser(w, tid).value;
      var a := w.accounts[i];
      assert a.balance >= 0.0 && a.pendingClaim >= 0.0;
      if StartMining(w, tid, now).Ok? {
        UpdateKeepsValid(w, i, StartMining(w, tid, now).value.0.accounts[i]);
      }
      UpdateKeepsValid(w, i, MiningStatus(w, tid, now).value.0.accounts[i]);
      if Claim(w, tid, now).Ok? {
        UpdateKeepsValid(w, i, Claim(w, tid, now).value.0.accounts[i]);
      }
    }
  }

  /** A claim that succeeded cannot be repeated: the next claim finds nothing, whenever it comes. */
  lemma {:induction false} NoDoubleClaim(w: World, tid: TelegramId, now: Time, later: Time)
    requires Claim(w, tid, now).Ok?
    ensures Claim(Claim(w, tid, now).value.0, tid, later) == Err(NothingToClaim)
  {
    var i := FindUser(w, tid).value;
    var w' := Claim(w, tid, now).value.0;
    FindUserAfterUpdate(w, i, w'.accounts[i], tid);
  }

  /**
   * After a claim no status read can price a new reward: the lock is gone,
   * so only a fresh `start_mining` begins another cycle.
   */
  lemma {:induction false} NoRewardWithoutNewCycle(w: World, tid: TelegramId, now: Time, later: Time)
    requires Claim(w, tid, now).Ok?
    ensures var w' := Claim(w, tid, now).value.0;
            MiningStatus(w', tid, later) == Ok((w', Status(false, 0, w'.accounts[FindUser(w, tid).value].balance, 0.0)))
  {
    var i := FindUser(w, tid).value;
    var w' := Claim(w, tid, now).value.0;
    FindUserAfterUpdate(w, i, w'.accounts[i], tid);
  }

  /**
   * One whole cycle. Before the lock runs out the status reports the time
   * left and nothing can be claimed; at or after expiry the first status read
   * prices the reward from the balance and levels of that moment, and when
   * that reward is positive a later claim pays exactly it.
   */
  lemma {:induction false} MiningCycle(w: World, tid: TelegramId, t0: Time, t1: Time, t2: Time)
    requires StartMining(w, tid, t0).Ok?
    requires t1 <= t2
    ensures
      var i := FindUser(w, tid).value;
      var a := w.accounts[i];
      var (w1, started) := StartMining(w, tid, t0).value;
      var until := started.lockedUntil;
      && (t1 < until ==>
            && MiningStatus(w1, tid, t1) == Ok((w1, Status(true, until - t1, a.balance, 0.0)))
            && Claim(w1, tid, t1) == Err(NothingToClaim))
      && (t1 >= until && a.balance >= 0.0 ==>
            var (w2, st) := MiningStatus(w1, tid, t1).value;
            && st.pendingClaim == RewardFor(w, tid, a)
            && (st.pendingClaim > 0.0 ==>
                  Claim(w2, tid, t2).Ok? && Claim(w2, tid, t2).value.1 == a.balance + st.pendingClaim))
  {
    var i := FindUser(w, tid).value;
    var a := w.accounts[i];
    var (w1, started) := StartMining(w, tid, t0).value;
    FindUserAfterUpdate(w, i, w1.accounts[i], tid);
    assert FindUser(w1, tid) == Some(i);
    assert Level(w1, tid, Income) == Level(w, tid, Income);
    if t1 >= started.lockedUntil && a.balance >= 0.0 {
      var (w2, st) := MiningStatus(w1, tid, t1).value;
      FindUserAfterUpdate(w1, i, w2.accounts[i], tid);
      assert FindUser(w2, tid) == Some(i);
    }
  }
}
