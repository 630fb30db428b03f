/** The recent-transactions panel: which entries it shows, in what order, and how each is labelled. */
module TransactionsList {
  import opened Wrappers
  import opened UserTypes
  import opened Seqs
  import DatabaseService

  datatype Listing = NoTransactions | Entries(items: seq<Transaction>)

  function Min(a: nat, b: nat): nat
  {
    if a <= b then a else b
  }

  /** `transactions.slice().reverse().slice(0, 5)`, or the placeholder for a missing or empty list. */
  function Recent(transactions: Option<seq<Transaction>>): (r: Listing)
    ensures r.NoTransactions? <==> transactions.None? || |transactions.value| == 0
    ensures r.Entries? ==> |r.items| == Min(5, |transactions.value|)
    ensures r.Entries? ==> forall k :: 0 <= k < |r.items| ==>
      r.items[k] == transactions.value[|transactions.value| - 1 - k]
  {
    if transactions.None? || |transactions.value| == 0 then NoTransactions
    else
      var txs := transactions.value;
      ReverseAll(txs);
      Entries(Reverse(txs)[..Min(5, |txs|)])
  }

  /** Put back in list order, the shown entries are the list's final stretch. */
  lemma RecentIsLastFive(txs: seq<Transaction>)
    requires |txs| > 0
    ensures var shown := Recent(Some(txs)).items;
            Reverse(shown) == txs[|txs| - |shown|..]
  {
    var shown := Recent(Some(txs)).items;
    ReverseAll(shown);
    assert forall k :: 0 <= k < |shown| ==> Reverse(shown)[k] == txs[|txs| - |shown|..][k];
  }

  /** The title of an entry; an absent recipient prints as "undefined". */
  function Label(tx: Transaction): (s: string)
    ensures tx.kind == Deposit ==> s == "Deposit"
    ensures tx.kind == Withdrawal ==> s == "Withdrawal"
    ensures tx.kind == Transfer ==>
      s == "Transfer to " + (if tx.recipientAccount.Some? then tx.recipientAccount.value else "undefined")
  {
    if tx.kind == Deposit then "Deposit"
    else if tx.kind == Withdrawal then "Withdrawal"
    else "Transfer to " + tx.recipientAccount.GetOr("undefined")
  }

  /** Each of the three labels belongs to exactly one type. */
  lemma LabelsDistinguishTypes(a: Transaction, b: Transaction)
    requires Label(a) == Label(b)
    ensures a.kind == b.kind
  {
    var la, lb := Label(a), Label(b);
    if a.kind == Transfer || b.kind == Transfer {
      assert la[0] == lb[0];
    }
  }

  /** The sign before the amount. */
  function Sign(tx: Transaction): (c: char)
    ensures c == '+' <==> tx.kind == Deposit
    ensures c == '-' <==> tx.kind != Deposit
  {
    if tx.kind == Deposit then '+' else '-'
  }

  /** The sign shown agrees with the way the entry moved the balance when it was recorded. */
  lemma SignMatchesBalanceEffect(tx: Transaction)
    requires tx.amount > 0
    ensures Sign(tx) == '+' <==> DatabaseService.SignedAmount(tx) > 0
    ensures Sign(tx) == '-' <==> DatabaseService.SignedAmount(tx) < 0
  {
  }
}
