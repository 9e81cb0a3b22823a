/**
 * The party ledger of `src/pages/Ledger.tsx`: debit and credit totals, the
 * closing balance with its Dr/Cr label, and the debit and credit columns.
 */
module LedgerPage {
  import opened Wrappers
  import Lists

  datatype EntryType = Debit | Credit

  /** One ledger line. The running `balance` is given with the entry, not computed. */
  datatype LedgerEntry = LedgerEntry(
    id: string, date: string, entryType: EntryType, description: string,
    reference: string, amount: int, balance: int)

  predicate IsDebit(e: LedgerEntry) { e.entryType == Debit }
  predicate IsCredit(e: LedgerEntry) { e.entryType == Credit }
  function Amount(e: LedgerEntry): int { e.amount }

  /** `totalDebit`: the amounts of the debit entries. */
  function TotalDebit(entries: seq<LedgerEntry>): int
  {
    Lists.Sum(Lists.Filter(entries, IsDebit), Amount)
  }

  /** `totalCredit`: the amounts of the credit entries. */
  function TotalCredit(entries: seq<LedgerEntry>): int
  {
    Lists.Sum(Lists.Filter(entries, IsCredit), Amount)
  }

  /** `closingBalance`: what the party owes, debits less credits. */
  function ClosingBalance(entries: seq<LedgerEntry>): int
  {
    TotalDebit(entries) - TotalCredit(entries)
  }

  /** An entry's effect on the balance: a debit adds its amount, a credit takes it away. */
  function Signed(e: LedgerEntry): int
  {
    if e.entryType == Debit then e.amount else -e.amount
  }

  /**
   * Every entry is a debit or a credit, so the two totals add up to all
   * amounts, and the closing balance is the sum of the signed amounts.
   */
  lemma {:induction false} ClosingBalanceIsSignedSum(entries: seq<LedgerEntry>)
    ensures TotalDebit(entries) + TotalCredit(entries) == Lists.Sum(entries, Amount)
    ensures ClosingBalance(entries) == Lists.Sum(entries, Signed)
  {
    Lists.SumPartition(entries, IsDebit, IsCredit, Amount);
    if entries != [] {
      ClosingBalanceIsSignedSum(entries[1..]);
    }
  }

  datatype Side = Dr | Cr

  /** The closing balance as shown: its magnitude and a side, 'Dr' only for a positive balance. */
  datatype ClosingDisplay = ClosingDisplay(magnitude: nat, side: Side)

  function ShowClosing(closing: int): (d: ClosingDisplay)
    ensures d.side == Dr <==> closing > 0
    ensures d.magnitude == if closing < 0 then -closing else closing
  {
    ClosingDisplay(if closing < 0 then -closing else closing, if closing > 0 then Dr else Cr)
  }

  /** The two amount columns of a row: each shows the amount or stays empty. */
  datatype Row = Row(debit: Option<int>, credit: Option<int>)

  function RowOf(e: LedgerEntry): (r: Row)
    ensures r.debit.Some? <==> e.entryType == Debit
    ensures r.credit.Some? <==> e.entryType == Credit
    ensures r.debit.Some? != r.credit.Some?
    ensures r.debit.Some? ==> r.debit.value == e.amount
    ensures r.credit.Some? ==> r.credit.value == e.amount
  {
    Row(if e.entryType == Debit then Some(e.amount) else None,
        if e.entryType == Credit then Some(e.amount) else None)
  }
}
