/**
 * The amount guards of `add_game_reward` and `send` evaluated on Python
 * floats, which besides finite values include infinities and NaN. Every
 * comparison with NaN is false, so a guard written as "reject when
 * amount <= 0" lets NaN through.
 */
module FloatGuards {

  datatype PyFloat = Finite(v: real) | PosInf | NegInf | NaN

  /** Python's `a <= b`. */
  predicate Le(a: PyFloat, b: PyFloat)
  {
    match (a, b)
    case (NaN, _) => false
    case (_, NaN) => false
    case (NegInf, _) => true
    case (_, PosInf) => true
    case (PosInf, _) => false
    case (_, NegInf) => false
    case (Finite(x), Finite(y)) => x <= y
  }

  /** Python's `a < b`. */
  predicate Lt(a: PyFloat, b: PyFloat)
  {
    Le(a, b) && !Le(b, a)
  }

  /** Python's `a + b`. */
  function Add(a: PyFloat, b: PyFloat): PyFloat
  {
    match (a, b)
    case (NaN, _) => NaN
    case (_, NaN) => NaN
    case (PosInf, NegInf) => NaN
    case (NegInf, PosInf) => NaN
    case (PosInf, _) => PosInf
    case (_, PosInf) => PosInf
    case (NegInf, _) => NegInf
    case (_, NegInf) => NegInf
    case (Finite(x), Finite(y)) => Finite(x + y)
  }

  /** Python's `a - b`. */
  function Sub(a: PyFloat, b: PyFloat): PyFloat
  {
    Add(a, match b
           case Finite(y) => Finite(-y)
           case PosInf => NegInf
           case NegInf => PosInf
           case NaN => NaN)
  }

  /** A balance as it must be: a finite, non-negative number. */
  predicate SoundBalance(b: PyFloat)
  {
    b.Finite? && b.v >= 0.0
  }

  /** `add_game_reward` as written: refuse when `reward <= 0`, else add. */
  function RewardAsWritten(balance: PyFloat, reward: PyFloat): (r: PyFloat)
    ensures Le(reward, Finite(0.0)) ==> r == balance
    ensures SoundBalance(balance) ==> (r == balance <==> Le(reward, Finite(0.0)))
  {
    if Le(reward, Finite(0.0)) then balance else Add(balance, reward)
  }

  /** A NaN reward passes the guard and destroys the balance. */
  lemma NaNRewardCorruptsBalance(b: real)
    requires b >= 0.0
    ensures !Le(NaN, Finite(0.0))
    ensures RewardAsWritten(Finite(b), NaN) == NaN
    ensures SoundBalance(Finite(b)) && !SoundBalance(RewardAsWritten(Finite(b), NaN))
  {
  }

  /** An infinite reward passes the guard too and makes the balance infinite. */
  lemma InfRewardCorruptsBalance(b: real)
    requires b >= 0.0
    ensures !Le(PosInf, Finite(0.0))
    ensures RewardAsWritten(Finite(b), PosInf) == PosInf
    ensures SoundBalance(Finite(b)) && !SoundBalance(RewardAsWritten(Finite(b), PosInf))
  {
  }

  /** `add_game_reward` with the intended guard: only a finite positive reward is credited. */
  function RewardGuarded(balance: PyFloat, reward: PyFloat): (r: PyFloat)
    requires SoundBalance(balance)
    ensures SoundBalance(r)
    ensures reward.Finite? && reward.v > 0.0 ==> r == Finite(balance.v + reward.v)
    ensures !(reward.Finite? && reward.v > 0.0) ==> r == balance
  {
    if reward.Finite? && reward.v > 0.0 then Add(balance, reward) else balance
  }

  /** `send` as written: refuse when `amount <= 0` or `sender < amount`, else move the amount. */
  function SendAsWritten(sender: PyFloat, receiver: PyFloat, amount: PyFloat): (r: (PyFloat, PyFloat))
    ensures Le(amount, Finite(0.0)) || Lt(sender, amount) ==> r == (sender, receiver)
    ensures SoundBalance(sender) && SoundBalance(receiver) ==>
              (r == (sender, receiver) <==> Le(amount, Finite(0.0)) || Lt(sender, amount))
  {
    if Le(amount, Finite(0.0)) || Lt(sender, amount) then (sender, receiver)
    else (Sub(sender, amount), Add(receiver, amount))
  }

  /**
   * What a `send` request leaves in the database: a refusal, the two new
   * balances committed together with the transfer row, or a failed commit
   * that stores nothing and surfaces as a server error.
   */
  datatype SendOutcome = Refused | Committed(sender: PyFloat, receiver: PyFloat) | ServerError

  /**
   * The database stores a NaN as NULL. The balance column accepts NULL, but
   * the transfer row's amount column is NOT NULL, so inserting the row with
   * a NaN amount fails the commit and rolls back both balance updates.
   */
  predicate AmountStorable(amount: PyFloat)
  {
    !amount.NaN?
  }

  /** `send` as written, through the commit of the balances and the transfer row. */
  function SendCommitAsWritten(sender: PyFloat, receiver: PyFloat, amount: PyFloat): (o: SendOutcome)
    ensures o == Refused <==> Le(amount, Finite(0.0)) || Lt(sender, amount)
    ensures o == ServerError <==> o != Refused && !AmountStorable(amount)
    ensures o.Committed? ==> (o.sender, o.receiver) == SendAsWritten(sender, receiver, amount)
    ensures SoundBalance(sender) && SoundBalance(receiver) && o.Committed? ==>
              amount.Finite? && 0.0 < amount.v <= sender.v &&
              SoundBalance(o.sender) && SoundBalance(o.receiver)
  {
    if Le(amount, Finite(0.0)) || Lt(sender, amount) then Refused
    else if !AmountStorable(amount) then ServerError
    else
      var (s', d') := SendAsWritten(sender, receiver, amount);
      Committed(s', d')
  }

  /**
   * A NaN amount passes both guards of `send`, so it is not refused as
   * invalid data. Both balances turn NaN in memory, but the NaN amount cannot
   * be stored in the transfer row, so the commit fails: the request ends in a
   * server error and no balance changes.
   */
  lemma NaNPassesSendGuards(s: real, d: real)
    requires s >= 0.0 && d >= 0.0
    ensures !Le(NaN, Finite(0.0)) && !Lt(Finite(s), NaN)
    ensures SendAsWritten(Finite(s), Finite(d), NaN) == (NaN, NaN)
    ensures SendCommitAsWritten(Finite(s), Finite(d), NaN) == ServerError
  {
  }

  /** `send` with the intended guard: only a finite positive amount the sender covers moves. */
  function SendGuarded(sender: PyFloat, receiver: PyFloat, amount: PyFloat): (r: (PyFloat, PyFloat))
    requires SoundBalance(sender) && SoundBalance(receiver)
    ensures SoundBalance(r.0) && SoundBalance(r.1)
    ensures r.0.v + r.1.v == sender.v + receiver.v
    ensures amount.Finite? && 0.0 < amount.v <= sender.v ==>
              r == (Finite(sender.v - amount.v), Finite(receiver.v + amount.v))
    ensures !(amount.Finite? && 0.0 < amount.v <= sender.v) ==> r == (sender, receiver)
  {
    if amount.Finite? && 0.0 < amount.v <= sender.v then (Sub(sender, amount), Add(receiver, amount))
    else (sender, receiver)
  }

  /** `send` with the intended guard, through the commit: a bad amount is refused, never a server error. */
  function SendCommitGuarded(sender: PyFloat, receiver: PyFloat, amount: PyFloat): (o: SendOutcome)
    requires SoundBalance(sender) && SoundBalance(receiver)
    ensures o != ServerError
    ensures o == Refused <==> !(amount.Finite? && 0.0 < amount.v <= sender.v)
    ensures o.Committed? ==>
              && SoundBalance(o.sender) && SoundBalance(o.receiver)
              && o.sender.v + o.receiver.v == sender.v + receiver.v
              && (o.sender, o.receiver) == SendGuarded(sender, receiver, amount)
  {
    if amount.Finite? && 0.0 < amount.v <= sender.v then
      var (s', d') := SendGuarded(sender, receiver, amount);
      Committed(s', d')
    else Refused
  }

  /** On finite inputs the intended guards and the written ones agree. */
  lemma GuardsAgreeOnFinite(s: real, d: real, x: real)
    requires s >= 0.0 && d >= 0.0
    ensures RewardGuarded(Finite(s), Finite(x)) == RewardAsWritten(Finite(s), Finite(x))
    ensures SendGuarded(Finite(s), Finite(d), Finite(x)) == SendAsWritten(Finite(s), Finite(d), Finite(x))
    ensures SendCommitGuarded(Finite(s), Finite(d), Finite(x)) == SendCommitAsWritten(Finite(s), Finite(d), Finite(x))
  {
  }
}
