/**
 * The profit-sharing page (ProfitSharing.tsx): the partners' total
 * percentage, the guard on the calculate button, the two warnings, and the
 * order of the calculation history.
 */
module ProfitSharingPage {
  import opened Domain
  import opened Aggregation
  import opened Sorting

  /** The calculate button is disabled (ProfitSharing.tsx:234). */
  predicate CalculateDisabled(partners: seq<Partner>) {
    |partners| == 0 || PercentageTotal(partners) != 100.0
  }

  /** The red warning under the partner table shows (ProfitSharing.tsx:204-208). */
  predicate ShowsTableWarning(partners: seq<Partner>) {
    PercentageTotal(partners) != 100.0 && |partners| > 0
  }

  /** The hint under the calculate button shows (ProfitSharing.tsx:239-243). */
  predicate ShowsCalculateHint(partners: seq<Partner>) {
    PercentageTotal(partners) != 100.0
  }

  /** The total adds each partner's percentage once, a missing one as 0. */
  lemma {:induction false} PercentageTotalAppend(partners: seq<Partner>, p: Partner)
    ensures PercentageTotal(partners + [p]) == PercentageTotal(partners) + p.percentage.GetOr(0.0)
  {
    RealSumByAppend(partners, [p], PercentageOf);
  }

  /**
   * How the three conditions relate: the table warning implies both others;
   * without partners the button is disabled and the hint shows with no
   * table warning; with partners the button is disabled exactly when the
   * warning shows.
   */
  lemma GuardsAgree(partners: seq<Partner>)
    ensures ShowsTableWarning(partners) ==> CalculateDisabled(partners) && ShowsCalculateHint(partners)
    ensures |partners| == 0 ==> CalculateDisabled(partners) && ShowsCalculateHint(partners) && !ShowsTableWarning(partners)
    ensures |partners| > 0 ==> (CalculateDisabled(partners) <==> ShowsTableWarning(partners))
    ensures !CalculateDisabled(partners) <==> |partners| > 0 && !ShowsCalculateHint(partners)
  {
    if |partners| == 0 {
      assert PercentageTotal(partners) == 0.0;
    }
  }

  /**
   * A calculation the button lets through splits the whole profit, provided
   * every partner has a percentage (a missing one counts 0 in the guard but
   * gives no amount on the server).
   */
  lemma EnabledCalculationSplitsProfit(partners: seq<Partner>, profit: int)
    requires !CalculateDisabled(partners)
    requires forall k :: 0 <= k < |partners| ==> partners[k].percentage.Some?
    ensures ShareTotal(Shares(profit, partners)) == profit as real
  {
    SharesSumToProfit(profit, partners);
  }

  function MonthOfRecord(ps: ProfitSharing): string {
    ps.month
  }

  /** `profitSharings.sort((a, b) => b.month.localeCompare(a.month))`: latest month first, in place. */
  method SortHistory(history: array<ProfitSharing>)
    modifies history
    ensures Descending(history[..], MonthOfRecord)
    ensures multiset(history[..]) == multiset(old(history[..]))
  {
    SortDescending(history, MonthOfRecord);
  }
}
