/**
 * The accounts page of `src/pages/Accounts.tsx`: cash, bank and overall
 * totals, and the sign shown before each transaction.
 */
module AccountsPage {
  import Lists

  datatype AccountType = Cash | Bank

  datatype Account = Account(id: string, name: string, accountType: AccountType, balance: int, lastTransaction: string)

  datatype TransactionType = Income | Expense

  datatype Transaction = Transaction(
    id: string, date: string, transactionType: TransactionType, description: string,
    account: string, amount: int)

  predicate IsCash(a: Account) { a.accountType == Cash }
  predicate IsBank(a: Account) { a.accountType == Bank }
  function Balance(a: Account): int { a.balance }

  /** `totalCash`: balances of the cash accounts. */
  function TotalCash(accounts: seq<Account>): int
  {
    Lists.Sum(Lists.Filter(accounts, IsCash), Balance)
  }

  /** `totalBank`: balances of the bank accounts. */
  function TotalBank(accounts: seq<Account>): int
  {
    Lists.Sum(Lists.Filter(accounts, IsBank), Balance)
  }

  /** `totalBalance`. */
  function TotalBalance(accounts: seq<Account>): int
  {
    TotalCash(accounts) + TotalBank(accounts)
  }

  /**
   * Every account is cash or bank, so the total balance is the balance of
   * every account, and the cash total counts only cash accounts; with no
   * accounts all three totals are 0.
   */
  lemma TotalBalanceCoversAll(accounts: seq<Account>)
    ensures TotalBalance(accounts) == Lists.Sum(accounts, Balance)
    ensures TotalCash(accounts) == Lists.SumWhere(accounts, IsCash, Balance)
    ensures accounts == [] ==> TotalCash(accounts) == 0 && TotalBank(accounts) == 0 && TotalBalance(accounts) == 0
  {
    Lists.SumPartition(accounts, IsCash, IsBank, Balance);
    Lists.SumFilter(accounts, IsCash, Balance);
  }

  /** The sign before a transaction's amount. */
  function SignPrefix(t: Transaction): (sign: char)
    ensures sign == '+' <==> t.transactionType == Income
    ensures sign == '-' <==> t.transactionType == Expense
  {
    match t.transactionType
    case Income => '+'
    case Expense => '-'
  }
}
