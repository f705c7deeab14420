/**
 * Peer-to-peer transfers (`send`) and the paged transfer history
 * (`history`).
 */
module Transfer {
  import opened Results
  import opened Money
  import opened Ledger

  /**
   * Debits row `s` and then credits row `d`. The receiver is read after the
   * debit, so when both are the same row the two changes cancel out.
   */
  function Move(rows: seq<Account>, s: nat, d: nat, amount: Amount): (r: seq<Account>)
    requires s < |rows| && d < |rows|
    ensures |r| == |rows|
    ensures forall k :: 0 <= k < |rows| && k != s && k != d ==> r[k] == rows[k]
    ensures s != d ==> r[s] == rows[s].(balance := rows[s].balance - amount)
    ensures s != d ==> r[d] == rows[d].(balance := rows[d].balance + amount)
    ensures s == d ==> r == rows
    ensures TotalBalance(r) == TotalBalance(rows)
  {
    var debited := rows[s := rows[s].(balance := rows[s].balance - amount)];
    var credited := debited[d := debited[d].(balance := debited[d].balance + amount)];
    TotalAfterUpdate(rows, s, debited[s]);
    TotalAfterUpdate(debited, d, credited[d]);
    if s == d then
      assert credited[s] == rows[s];
      credited
    else
      credited
  }

  /** `send`: move `amount` from one account to another and log one transaction. */
  function Send(w: World, from: TelegramId, to: TelegramId, amount: Amount, now: Time): (r: Result<(World, Amount), Error>)
    ensures from == "" || to == "" || amount <= 0.0 ==> r == Err(InvalidData)
    ensures from != "" && to != "" && amount > 0.0 && (!HasUser(w, from) || !HasUser(w, to)) ==> r == Err(UserNotFound)
    ensures from != "" && to != "" && amount > 0.0 && HasUser(w, from) && HasUser(w, to) ==>
      var s := FindUser(w, from).value;
      var d := FindUser(w, to).value;
      && (w.accounts[s].balance < amount ==> r == Err(NotEnoughBalance))
      && (r.Ok? <==> w.accounts[s].balance >= amount)
      && (r.Ok? ==>
            var (w', newBalance) := r.value;
            && w'.accounts == Move(w.accounts, s, d, amount)
            && (forall k :: 0 <= k < |w.accounts| && k != s && k != d ==> w'.accounts[k] == w.accounts[k])
            && (s != d ==> w'.accounts[s] == w.accounts[s].(balance := w.accounts[s].balance - amount))
            && (s != d ==> w'.accounts[d] == w.accounts[d].(balance := w.accounts[d].balance + amount))
            && (s == d ==> w'.accounts == w.accounts)
            && newBalance == w'.accounts[s].balance >= 0.0
            && TotalBalance(w'.accounts) == TotalBalance(w.accounts)
            && w'.transactions == w.transactions + [Transaction(from, to, amount, now, "transfer")]
            && w' == w.(accounts := w'.accounts, transactions := w'.transactions))
  {
    if from == "" || to == "" || amount <= 0.0 then Err(InvalidData)
    else match (FindUser(w, from), FindUser(w, to))
      case (None, _) => Err(UserNotFound)
      case (_, None) => Err(UserNotFound)
      case (Some(s), Some(d)) =>
        if w.accounts[s].balance < amount then Err(NotEnoughBalance)
        else
          Ok((w.(accounts := Move(w.accounts, s, d, amount),
                 transactions := w.transactions + [Transaction(from, to, amount, now, "transfer")]),
              Move(w.accounts, s, d, amount)[s].balance))
  }

  /** A transfer keeps identities and referral codes unique and money non-negative. */
  lemma {:induction false} SendKeepsValid(w: World, from: TelegramId, to: TelegramId, amount: Amount, now: Time)
    requires Valid(w) && Send(w, from, to, amount, now).Ok?
    ensures Valid(Send(w, from, to, amount, now).value.0)
  {
    var s := FindUser(w, from).value;
    var d := FindUser(w, to).value;
    MoveKeepsValid(w, s, d, amount);
  }

  /** Moving an amount the sender covers keeps the world valid. */
  lemma MoveKeepsValid(w: World, s: nat, d: nat, amount: Amount)
    requires Valid(w) && s < |w.accounts| && d < |w.accounts|
    requires 0.0 < amount <= w.accounts[s].balance
    ensures Valid(w.(accounts := Move(w.accounts, s, d, amount)))
  {
    var rows := Move(w.accounts, s, d, amount);
    forall k | 0 <= k < |rows|
      ensures rows[k].telegramId == w.accounts[k].telegramId && rows[k].refCode == w.accounts[k].refCode
      ensures rows[k].balance >= 0.0 && rows[k].pendingClaim >= 0.0
    {
      assert w.accounts[k].balance >= 0.0 && w.accounts[k].pendingClaim >= 0.0;
    }
  }

  /** Rows shown per history page. */
  const PerPage: nat := 10

  datatype Direction = Out | In

  /** One history line: direction relative to the viewer, amount, time and counterpart. */
  datatype HistoryItem = HistoryItem(direction: Direction, amount: Amount, timestamp: Time, peer: TelegramId)

  datatype HistoryPage = HistoryPage(items: seq<HistoryItem>, page: int, pages: nat)

  predicate Involves(t: Transaction, tid: TelegramId)
  {
    t.from == tid || t.to == tid
  }

  /** The viewer's transactions, newest log entry first. */
  function NewestFirst(txs: seq<Transaction>, tid: TelegramId): (r: seq<Transaction>)
    ensures |r| <= |txs|
    ensures forall t :: t in r <==> t in txs && Involves(t, tid)
    ensures forall t :: multiset(r)[t] == if Involves(t, tid) then multiset(txs)[t] else 0
  {
    if |txs| == 0 then []
    else
      var last := txs[|txs| - 1];
      var rest := NewestFirst(txs[..|txs| - 1], tid);
      assert txs == txs[..|txs| - 1] + [last];
      assert multiset(txs) == multiset(txs[..|txs| - 1]) + multiset{last};
      assert forall t :: t in txs <==> t in txs[..|txs| - 1] || t == last;
      if Involves(last, tid) then [last] + rest else rest
  }

  /** Timestamps never decrease along the log. */
  ghost predicate Chronological(txs: seq<Transaction>)
  {
    forall i, j :: 0 <= i < j < |txs| ==> txs[i].timestamp <= txs[j].timestamp
  }

  /** Timestamps never increase along the list. */
  ghost predicate NewestToOldest(txs: seq<Transaction>)
  {
    forall i, j :: 0 <= i < j < |txs| ==> txs[i].timestamp >= txs[j].timestamp
  }

  /**
   * When the log was written with a clock that never runs backwards, the
   * newest-entry-first list is ordered by descending timestamp, which is the
   * order the history query asks for.
   */
  lemma {:induction false} NewestFirstIsDescending(txs: seq<Transaction>, tid: TelegramId)
    requires Chronological(txs)
    ensures NewestToOldest(NewestFirst(txs, tid))
  {
    if |txs| > 0 {
      var init := txs[..|txs| - 1];
      NewestFirstIsDescending(init, tid);
      var rest := NewestFirst(init, tid);
      forall t | t in rest
        ensures t.timestamp <= txs[|txs| - 1].timestamp
      {
        var k :| 0 <= k < |init| && init[k] == t;
      }
    }
  }

  /** A log entry as the viewer sees it; a self-transfer reads as outgoing. */
  function View(t: Transaction, tid: TelegramId): HistoryItem
  {
    if t.from == tid then HistoryItem(Out, t.amount, t.timestamp, t.to)
    else HistoryItem(In, t.amount, t.timestamp, t.from)
  }

  /** Number of pages needed for `total` rows. */
  function PageCount(total: nat): (pages: nat)
    ensures pages * PerPage >= total
    ensures pages > 0 ==> (pages - 1) * PerPage < total
  {
    (total + PerPage - 1) / PerPage
  }

  /** Rows skipped before a page; a negative offset behaves as zero in the database. */
  function Offset(page: int): nat
  {
    if (page - 1) * PerPage < 0 then 0 else (page - 1) * PerPage
  }

  /** The rows after `offset`, at most one page of them, as the viewer sees them. */
  function Window(all: seq<Transaction>, tid: TelegramId, offset: nat): (items: seq<HistoryItem>)
    ensures |items| == if offset >= |all| then 0 else if offset + PerPage <= |all| then PerPage else |all| - offset
    ensures forall k :: 0 <= k < |items| ==> offset + k < |all| && items[k] == View(all[offset + k], tid)
  {
    var lo := if offset < |all| then offset else |all|;
    var hi := if lo + PerPage < |all| then lo + PerPage else |all|;
    seq(hi - lo, k requires 0 <= k < hi - lo => View(all[lo + k], tid))
  }

  /** `history`: one page of the viewer's transfers, newest first, and the page count. */
  function History(w: World, tid: TelegramId, page: int): (r: Result<HistoryPage, Error>)
    ensures !HasUser(w, tid) <==> r == Err(UserNotFound)
    ensures r.Ok? ==>
      var all := NewestFirst(w.transactions, tid);
      && r.value.page == page
      && r.value.pages == PageCount(|all|)
      && |r.value.items| <= PerPage
      && (forall k :: 0 <= k < |r.value.items| ==>
            Offset(page) + k < |all| && r.value.items[k] == View(all[Offset(page) + k], tid))
      && (Offset(page) + PerPage <= |all| ==> |r.value.items| == PerPage)
      && (Offset(page) < |all| < Offset(page) + PerPage ==> |r.value.items| == |all| - Offset(page))
      && (Offset(page) >= |all| ==> r.value.items == [])
  {
    if !HasUser(w, tid) then Err(UserNotFound)
    else
      var all := NewestFirst(w.transactions, tid);
      Ok(HistoryPage(Window(all, tid, Offset(page)), page, PageCount(|all|)))
  }

  /** Every one of the viewer's transfers is shown exactly once, on the page its position gives. */
  lemma {:induction false} EveryTransferOnItsPage(w: World, tid: TelegramId, n: nat)
    requires HasUser(w, tid) && n < |NewestFirst(w.transactions, tid)|
    ensures var page := n / PerPage + 1;
            && page <= History(w, tid, page).value.pages
            && History(w, tid, page).value.items[n % PerPage] == View(NewestFirst(w.transactions, tid)[n], tid)
  {
    var page := n / PerPage + 1;
    var all := NewestFirst(w.transactions, tid);
    var off := PagePosition(n);
    var items := Window(all, tid, off);
    assert items[n % PerPage] == View(all[n], tid);
    assert History(w, tid, page).value == HistoryPage(items, page, PageCount(|all|));
  }

  /** Position `n` lies on page `n / PerPage + 1`, at slot `n % PerPage`. */
  lemma PagePosition(n: nat) returns (off: nat)
    ensures off == Offset(n / PerPage + 1) && off + n % PerPage == n && n % PerPage < PerPage
    ensures n / PerPage + 1 <= PageCount(n + 1)
  {
    off := n / PerPage * PerPage;
  }
}
