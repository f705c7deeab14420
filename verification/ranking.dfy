/**
 * `leaderboard`: the hundred richest accounts, richest first, each with its
 * place and a trophy label.
 */
module Ranking {
  import opened Money
  import opened Ledger

  /** Most rows shown on the board. */
  const BoardSize: nat := 100

  datatype BoardRow = BoardRow(telegramId: TelegramId, balance: Amount, place: nat, trophy: string)

  ghost predicate RichestFirst(s: seq<Account>)
  {
    forall i, j :: 0 <= i < j < |s| ==> s[i].balance >= s[j].balance
  }

  /** Puts one account into a richest-first list. */
  function Insert(a: Account, s: seq<Account>): (r: seq<Account>)
    requires RichestFirst(s)
    ensures RichestFirst(r)
    ensures multiset(r) == multiset(s) + multiset{a}
    ensures |r| == |s| + 1
    ensures r[0] == a || (|s| > 0 && r[0] == s[0])
  {
    if |s| == 0 then [a]
    else if a.balance >= s[0].balance then [a] + s
    else
      var rest := Insert(a, s[1..]);
      assert s == [s[0]] + s[1..];
      assert rest[0].balance <= s[0].balance;
      [s[0]] + rest
  }

  /** `ORDER BY balance DESC`: the accounts, richest first. */
  function SortByBalance(s: seq<Account>): (r: seq<Account>)
    ensures RichestFirst(r)
    ensures multiset(r) == multiset(s)
    ensures |r| == |s|
  {
    if |s| == 0 then []
    else
      assert s == s[..|s| - 1] + [s[|s| - 1]];
      Insert(s[|s| - 1], SortByBalance(s[..|s| - 1]))
  }

  /** Decimal digits of a natural number. */
  function NatToString(n: nat): (r: string)
    ensures |r| > 0
    ensures forall k :: 0 <= k < |r| ==> '0' <= r[k] <= '9'
    decreases n
  {
    var d := ['0' + (n % 10) as char];
    if n < 10 then d else NatToString(n / 10) + d
  }

  /** Reads decimal digits back into a number. */
  function ParseNat(s: string): nat
    requires forall k :: 0 <= k < |s| ==> '0' <= s[k] <= '9'
  {
    if |s| == 0 then 0
    else 10 * ParseNat(s[..|s| - 1]) + (s[|s| - 1] - '0') as nat
  }

  /** Printing a place and reading it back gives the same place. */
  lemma {:induction false} ParsePrinted(n: nat)
    ensures ParseNat(NatToString(n)) == n
  {
    var r := NatToString(n);
    if n >= 10 {
      ParsePrinted(n / 10);
      assert r[..|r| - 1] == NatToString(n / 10);
    }
  }

  /** Medal for the first three places, `#<place>` below them. */
  function Trophy(place: nat): string
  {
    if place == 1 then "\U{1F947}"
    else if place == 2 then "\U{1F948}"
    else if place == 3 then "\U{1F949}"
    else "#" + NatToString(place)
  }

  /** Different places never share a trophy label. */
  lemma {:induction false} TrophiesDistinct(p: nat, q: nat)
    requires p != q
    ensures Trophy(p) != Trophy(q)
  {
    var medal := (n: nat) => 1 <= n <= 3;
    if !medal(p) && !medal(q) {
      if Trophy(p) == Trophy(q) {
        assert NatToString(p) == Trophy(p)[1..];
        assert NatToString(q) == Trophy(q)[1..];
        ParsePrinted(p);
        ParsePrinted(q);
      }
    } else if medal(p) && !medal(q) {
      assert Trophy(p)[0] != '#' == Trophy(q)[0];
    } else if !medal(p) && medal(q) {
      assert Trophy(q)[0] != '#' == Trophy(p)[0];
    }
  }

  /** The board line for the account at 0-based position `k`. */
  function BoardLine(a: Account, k: nat): (row: BoardRow)
    ensures row.telegramId == a.telegramId && row.place == k + 1
  {
    BoardRow(a.telegramId, Round2(a.balance), k + 1, Trophy(k + 1))
  }

  /** `leaderboard`: the richest hundred with places counted from one. */
  function Leaderboard(accts: seq<Account>): (board: seq<BoardRow>)
    ensures |board| == if |accts| < BoardSize then |accts| else BoardSize
    ensures forall k :: 0 <= k < |board| ==> board[k] == BoardLine(SortByBalance(accts)[k], k)
  {
    var sorted := SortByBalance(accts);
    var n := if |sorted| < BoardSize then |sorted| else BoardSize;
    seq(n, k requires 0 <= k < n => BoardLine(sorted[k], k))
  }

  /** Row k of the board carries place k+1, that place's trophy, and the (k+1)-th richest balance rounded to cents. */
  lemma BoardRowsNumbered(accts: seq<Account>, k: nat)
    requires k < |Leaderboard(accts)|
    ensures Leaderboard(accts)[k].place == k + 1
    ensures Leaderboard(accts)[k].trophy == Trophy(k + 1)
    ensures Leaderboard(accts)[k].balance == Round2(SortByBalance(accts)[k].balance)
  {
  }

  /**
   * The board lists real accounts, richest first, and nobody left off the
   * board is richer than anyone on it.
   */
  lemma BoardIsTop(accts: seq<Account>)
    ensures var sorted := SortByBalance(accts);
            && multiset(sorted) == multiset(accts)
            && (forall k :: 0 <= k < |Leaderboard(accts)| ==>
                  Leaderboard(accts)[k].telegramId == sorted[k].telegramId)
            && (forall i, j :: 0 <= i < j < |sorted| ==> sorted[i].balance >= sorted[j].balance)
            && (forall i, j :: 0 <= i < |Leaderboard(accts)| <= j < |sorted| ==> sorted[i].balance >= sorted[j].balance)
  {
  }
}
