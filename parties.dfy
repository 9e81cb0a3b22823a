/**
 * The parties page of `src/pages/Parties.tsx`: the `Party` record, the
 * search and type filter, and the receivable and payable totals.
 */
module PartiesPage {
  import opened Strings
  import Lists

  datatype PartyType = Customer | Supplier
  datatype BalanceType = Receivable | Payable

  /** A customer or supplier. Balances are whole rupees. */
  datatype Party = Party(
    id: string, name: string, gst: string, contactPerson: string, contact: string,
    address: string, state: string, dist: string, city: string, pincode: string,
    openingBalance: int, currentBalance: int, isActive: bool,
    partyType: PartyType, email: string, balanceType: BalanceType)

  /** The type dropdown: every party, or one type. */
  datatype TypeFilter = AllTypes | OnlyType(partyType: PartyType)

  /**
   * The search box: name or email contain the query ignoring case, or the
   * contact number contains it exactly as typed.
   */
  predicate MatchesSearch(p: Party, query: string)
  {
    IncludesIgnoringCase(p.name, query) || IncludesIgnoringCase(p.email, query) || Includes(p.contact, query)
  }

  predicate MatchesType(p: Party, selected: TypeFilter)
  {
    selected == AllTypes || p.partyType == selected.partyType
  }

  predicate PartyMatches(p: Party, query: string, selected: TypeFilter)
  {
    MatchesSearch(p, query) && MatchesType(p, selected)
  }

  /** `filteredParties`: exactly the matching parties, in their original order. */
  function FilteredParties(parties: seq<Party>, query: string, selected: TypeFilter): (r: seq<Party>)
    ensures |r| <= |parties| && |r| == Lists.Count(parties, (p: Party) => PartyMatches(p, query, selected))
    ensures forall i :: 0 <= i < |r| ==> PartyMatches(r[i], query, selected)
    ensures forall i :: 0 <= i < |parties| && PartyMatches(parties[i], query, selected) ==> parties[i] in r
    ensures Lists.Subsequence(r, parties)
  {
    Lists.Filter(parties, p => PartyMatches(p, query, selected))
  }

  /** An empty search with every type selected shows every party. */
  lemma EmptyFilterKeepsAll(parties: seq<Party>)
    ensures FilteredParties(parties, "", AllTypes) == parties
  {
    forall i | 0 <= i < |parties|
      ensures PartyMatches(parties[i], "", AllTypes)
    {
      EmptyQueryMatches(parties[i].name);
    }
  }

  predicate IsReceivable(p: Party) { p.balanceType == Receivable }
  predicate IsPayable(p: Party) { p.balanceType == Payable }

  function CurrentBalance(p: Party): int { p.currentBalance }

  /** `totalReceivable`: current balances of the receivable parties shown. */
  function TotalReceivable(shown: seq<Party>): int
  {
    Lists.Sum(Lists.Filter(shown, IsReceivable), CurrentBalance)
  }

  /** `totalPayable`: current balances of the payable parties shown. */
  function TotalPayable(shown: seq<Party>): int
  {
    Lists.Sum(Lists.Filter(shown, IsPayable), CurrentBalance)
  }

  /**
   * Every party is either receivable or payable, so the two totals add up
   * to the current balance of everything shown; the receivable total only
   * counts receivable parties.
   */
  lemma TotalsPartition(shown: seq<Party>)
    ensures TotalReceivable(shown) + TotalPayable(shown) == Lists.Sum(shown, CurrentBalance)
    ensures TotalReceivable(shown) == Lists.SumWhere(shown, IsReceivable, CurrentBalance)
  {
    Lists.SumPartition(shown, IsReceivable, IsPayable, CurrentBalance);
    Lists.SumFilter(shown, IsReceivable, CurrentBalance);
  }
}
