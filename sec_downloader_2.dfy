/** Version 2 of `SECBankDataExtractor` (sec_downloader_2.py): 52 target
    metrics with their US-GAAP tag lists, the per-company extractor, and the
    tier table of the "Metrics_Dictionary" sheet. */
module SecDownloader2 {
  import opened Common
  import opened Ordering
  import opened Xbrl

  /** `gaap_mapping`: each target metric with its tags in priority order. */
  const GaapMapping: Mapping := [
    ("NetIncome", ["NetIncomeLoss", "ProfitLoss", "NetIncomeLossAvailableToCommonStockholdersBasic", "IncomeLossFromContinuingOperations"]),
    ("TotalRevenue", ["Revenues", "RevenueFromContractWithCustomerExcludingAssessedTax", "InterestAndDividendIncomeOperating", "TotalRevenues"]),
    ("NetInterestIncome", ["InterestIncomeExpenseNet", "NetInterestIncome", "InterestIncomeExpenseAfterProvisionForLoanLoss"]),
    ("ReturnOnEquity", ["ReturnOnAverageEquity", "ReturnOnEquity"]),
    ("ReturnOnAssets", ["ReturnOnAverageAssets", "ReturnOnAssets"]),
    ("EarningsPerShare", ["EarningsPerShareBasic", "IncomeLossFromContinuingOperationsPerBasicShare"]),
    ("EarningsPerShareDiluted", ["EarningsPerShareDiluted", "IncomeLossFromContinuingOperationsPerDilutedShare"]),
    ("TotalAssets", ["Assets", "AssetsCurrent", "AssetsNoncurrent"]),
    ("ShareholdersEquity", ["StockholdersEquity", "StockholdersEquityIncludingPortionAttributableToNoncontrollingInterest", "EquityAttributableToParent"]),
    ("TotalDeposits", ["Deposits", "DepositsTotal", "InterestBearingDeposits", "NoninterestBearingDeposits"]),
    ("TotalLoans", ["LoansAndLeasesReceivableNetOfAllowance", "LoansAndLeasesReceivableGross", "LoansReceivableNet"]),
    ("BookValuePerShare", ["BookValuePerShare", "StockholdersEquityPerShare"]),
    ("TangibleBookValuePerShare", ["TangibleBookValuePerShare"]),
    ("Tier1CapitalRatio", ["Tier1CapitalRatio", "CapitalAdequacyTier1CapitalRatio"]),
    ("ProvisionForLoanLosses", ["ProvisionForLoanAndLeaseLosses", "ProvisionForCreditLosses", "ProvisionForDoubtfulAccounts"]),
    ("AllowanceForLoanLosses", ["AllowanceForLoanAndLeaseLosses", "AllowanceForCreditLossesFinancingReceivables"]),
    ("NonPerformingLoans", ["LoansAndLeasesReceivableNonaccrual", "NonperformingLoans"]),
    ("ChargeOffs", ["LoansAndLeasesReceivableChargeOffs", "ChargeOffsLoansAndLeases"]),
    ("LoanLossReserveRatio", ["LoanLossReserveRatio"]),
    ("NonPerformingAssetRatio", ["NonperformingAssetRatio"]),
    ("InterestIncome", ["InterestAndFeeIncomeLoansAndLeases", "InterestIncomeOperating", "InterestAndDividendIncomeOperating", "InterestIncomeLoansAndLeases"]),
    ("InterestExpense", ["InterestExpense", "InterestExpenseDeposits", "InterestExpenseDebt", "InterestExpenseBorrowings"]),
    ("NonInterestIncome", ["NoninterestIncome", "RevenuesExcludingInterestAndDividends", "FeesAndCommissions"]),
    ("NonInterestExpense", ["NoninterestExpense", "OperatingExpenses", "GeneralAndAdministrativeExpense"]),
    ("OperatingExpenses", ["OperatingExpenses", "CostsAndExpenses", "OperatingCostsAndExpenses"]),
    ("PersonnelExpense", ["LaborAndRelatedExpense", "EmployeeRelatedExpense", "SalariesAndWages"]),
    ("OccupancyExpense", ["OccupancyNet", "OccupancyAndEquipmentExpense"]),
    ("EfficiencyRatio", ["EfficiencyRatio"]),
    ("NetInterestMargin", ["NetInterestMargin"]),
    ("CostOfFunds", ["CostOfFunds"]),
    ("AssetTurnover", ["AssetTurnover"]),
    ("OperatingLeverage", ["OperatingLeverage"]),
    ("TotalRevenueGrowth", ["RevenueGrowthRate"]),
    ("LoanGrowth", ["LoanGrowthRate"]),
    ("DepositGrowth", ["DepositGrowthRate"]),
    ("TangibleEquityRatio", ["TangibleEquityRatio"]),
    ("LeverageRatio", ["LeverageRatio", "DebtToEquityRatio"]),
    ("TradingRevenue", ["TradingGainsLosses", "TradingAccountProfitLoss", "SecuritiesGainLoss"]),
    ("InvestmentBankingRevenue", ["InvestmentBankingRevenue", "UnderwritingIncome"]),
    ("TrustAndInvestmentFees", ["TrustFeesRevenue", "InvestmentManagementAndTrustFees"]),
    ("ServiceCharges", ["ServiceChargesOnDepositAccounts", "ServiceCharges"]),
    ("CardRevenue", ["CreditCardIncome", "CreditCardFees"]),
    ("CommonEquityTier1Ratio", ["CommonEquityTier1CapitalRatio", "Tier1CommonCapitalRatio"]),
    ("TotalCapitalRatio", ["TotalCapitalRatio", "CapitalAdequacyTotalCapitalRatio"]),
    ("RiskWeightedAssets", ["RiskWeightedAssets"]),
    ("LeverageCapitalRatio", ["LeverageRatio", "CapitalAdequacyLeverageRatio"]),
    ("LiquidityRatio", ["LiquidityRatio", "LiquidityCoverageRatio"]),
    ("TradingAssets", ["TradingSecuritiesDebt", "TradingSecuritiesEquity", "TradingSecurities"]),
    ("AvailableForSaleSecurities", ["AvailableForSaleSecuritiesDebtSecurities", "MarketableSecuritiesAvailableForSale"]),
    ("HeldToMaturitySecurities", ["HeldToMaturitySecurities", "DebtSecuritiesHeldToMaturity"]),
    ("Goodwill", ["Goodwill"]),
    ("IntangibleAssets", ["IntangibleAssetsNetExcludingGoodwill", "FiniteLivedIntangibleAssetsNet"])
  ]

  /** `self.target_metrics`, in priority order (the mapping's keys, in the
      same order). */
  const TargetMetrics: seq<string> := [
    "NetIncome",
    "TotalRevenue",
    "NetInterestIncome",
    "ReturnOnEquity",
    "ReturnOnAssets",
    "EarningsPerShare",
    "EarningsPerShareDiluted",
    "TotalAssets",
    "ShareholdersEquity",
    "TotalDeposits",
    "TotalLoans",
    "BookValuePerShare",
    "TangibleBookValuePerShare",
    "Tier1CapitalRatio",
    "ProvisionForLoanLosses",
    "AllowanceForLoanLosses",
    "NonPerformingLoans",
    "ChargeOffs",
    "LoanLossReserveRatio",
    "NonPerformingAssetRatio",
    "InterestIncome",
    "InterestExpense",
    "NonInterestIncome",
    "NonInterestExpense",
    "OperatingExpenses",
    "PersonnelExpense",
    "OccupancyExpense",
    "EfficiencyRatio",
    "NetInterestMargin",
    "CostOfFunds",
    "AssetTurnover",
    "OperatingLeverage",
    "TotalRevenueGrowth",
    "LoanGrowth",
    "DepositGrowth",
    "TangibleEquityRatio",
    "LeverageRatio",
    "TradingRevenue",
    "InvestmentBankingRevenue",
    "TrustAndInvestmentFees",
    "ServiceCharges",
    "CardRevenue",
    "CommonEquityTier1Ratio",
    "TotalCapitalRatio",
    "RiskWeightedAssets",
    "LeverageCapitalRatio",
    "LiquidityRatio",
    "TradingAssets",
    "AvailableForSaleSecurities",
    "HeldToMaturitySecurities",
    "Goodwill",
    "IntangibleAssets"
  ]

  /** `core_metrics`: a period is kept only if one of these has a value. */
  const CoreMetrics: seq<string> := ["NetIncome", "TotalRevenue", "TotalAssets", "ShareholdersEquity"]

  // ---------------------------------------------------------------------
  // Extraction

  /** The value loop for one metric and one period. The "prefer 10-Q" test
      `value is None or form == '10-Q'` never fails: `value` is still `None`
      whenever it is evaluated, because every non-`None` assignment is
      followed by leaving all three loops. */
  method SelectValue(us: UsGaap, tags: seq<string>, period: string) returns (value: Scalar)
    ensures value == Pick(us, tags, period)
  {
    value := Null;
    for t := 0 to |tags|
      invariant value == Null
      invariant Pick(us, tags, period) == Pick(us, tags[t..], period)
    {
      assert tags[t..][0] == tags[t] && tags[t..][1..] == tags[t + 1..];
      var found := Get(us, tags[t]);
      if found.Some? {
        var units := found.value;
        for u := 0 to |units|
          invariant value == Null
          invariant UnitsValue(units, period) == UnitsValue(units[u..], period)
        {
          assert units[u..][0] == units[u] && units[u..][1..] == units[u + 1..];
          var entries := units[u].1;
          for k := 0 to |entries|
            invariant value == Null
            invariant FirstQualifying(entries, period) == FirstQualifying(entries[k..], period)
          {
            assert entries[k..][0] == entries[k] && entries[k..][1..] == entries[k + 1..];
            var entry := entries[k];
            if entry.end == Some(Str(period)) && entry.val.Some? {
              if entry.form == Some(Str("10-Q")) || entry.form == Some(Str("10-K")) {
                if value == Null || entry.form == Some(Str("10-Q")) {
                  value := entry.val.value;
                }
                break;
              }
            }
          }
          if value != Null {
            break;
          }
        }
      }
      if value != Null {
        break;
      }
    }
  }

  /** The preference for quarterly data has no effect: for a unit listing
      an annual (10-K) entry before a quarterly (10-Q) one for the same
      period, the annual value is taken. */
  lemma AnnualBeforeQuarterlyWins(period: string)
    ensures Pick([("NetIncomeLoss", [("USD", [Entry(Some(Str(period)), Some(Num(100)), Some(Str("10-K"))),
                                              Entry(Some(Str(period)), Some(Num(25)), Some(Str("10-Q")))])])],
                 ["NetIncomeLoss", "ProfitLoss"], period) == Num(100)
  {
  }

  /** `period_data.get(name)`, with `Null` for a missing key. */
  function MetricValue(row: Row, name: string): (v: Scalar)
    ensures v != Null ==> (name, v) in row.metrics
    ensures (forall i :: 0 <= i < |row.metrics| ==> row.metrics[i].0 != name) ==> v == Null
  {
    Get(row.metrics, name).GetOr(Null)
  }

  /** `any(period_data.get(m) is not None for m in core_metrics)`. */
  predicate KeepsRow(row: Row) {
    exists i :: 0 <= i < |CoreMetrics| && MetricValue(row, CoreMetrics[i]) != Null
  }

  /** A period is kept exactly when one of the core metrics (net income,
      total revenue, total assets, shareholders' equity) is mapped and one
      of its tags gives a value for that period. */
  lemma KeepsRowIff(facts: CompanyFacts, period: string)
    ensures KeepsRow(RowFor(facts, GaapMapping, period)) <==>
      exists i :: 0 <= i < |CoreMetrics| && Get(GaapMapping, CoreMetrics[i]).Some?
                  && Pick(facts.usGaap, Get(GaapMapping, CoreMetrics[i]).value, period) != Null
  {
    forall i | 0 <= i < |CoreMetrics| {
      GetMetricsFor(facts.usGaap, GaapMapping, period, CoreMetrics[i]);
    }
  }

  /** The metric loop for one period: the row dictionary built from the
      mapping, one value per target metric in mapping order. */
  method BuildRow(facts: CompanyFacts, mapping: Mapping, period: string) returns (row: Row)
    ensures row == RowFor(facts, mapping, period)
  {
    var metrics: seq<(string, Scalar)> := [];
    for g := 0 to |mapping|
      invariant |metrics| == g
      invariant forall j :: 0 <= j < g ==> metrics[j] == (mapping[j].0, Pick(facts.usGaap, mapping[j].1, period))
    {
      var value := SelectValue(facts.usGaap, mapping[g].1, period);
      metrics := metrics + [(mapping[g].0, value)];
    }
    row := Row(period, CompanyName(facts), metrics);
  }

  /** `extract_financial_metrics`: one row per collected period, in date
      order, kept when a core metric has a value. An entry with a non-string
      end date makes the period scan raise; the exception is caught and the
      (still empty) result is returned. */
  method ExtractFinancialMetrics(facts: CompanyFacts, start: string, stop: string) returns (rows: seq<Row>)
    ensures ScanFaults(facts.usGaap, GaapMapping) ==> rows == []
    ensures RowsMatchFacts(rows, facts, GaapMapping)
    ensures Chronological(rows)
    ensures !ScanFaults(facts.usGaap, GaapMapping) ==>
      forall p :: p in Dates(rows) <==>
        p in PeriodSet(facts.usGaap, GaapMapping, start, stop) && KeepsRow(RowFor(facts, GaapMapping, p))
  {
    rows := ExtractRows(facts, GaapMapping, start, stop);
  }

  /** The body of `extract_financial_metrics` for a given metric mapping. */
  method ExtractRows(facts: CompanyFacts, mapping: Mapping, start: string, stop: string) returns (rows: seq<Row>)
    ensures ScanFaults(facts.usGaap, mapping) ==> rows == []
    ensures RowsMatchFacts(rows, facts, mapping)
    ensures Chronological(rows)
    ensures !ScanFaults(facts.usGaap, mapping) ==>
      forall p :: p in Dates(rows) <==>
        p in PeriodSet(facts.usGaap, mapping, start, stop) && KeepsRow(RowFor(facts, mapping, p))
  {
    rows := [];
    var scanned := CollectPeriods(facts.usGaap, mapping, start, stop);
    if scanned.Err? {
      return;
    }
    var periods := SortStrings(scanned.value);
    ghost var verdict := (p: string) => Ok(KeepsRow(RowFor(facts, mapping, p)));
    for i := 0 to |periods|
      invariant Progress(facts, mapping, verdict, periods, i, rows)
    {
      var row := BuildRow(facts, mapping, periods[i]);
      if KeepsRow(row) {
        KeepStep(facts, mapping, verdict, periods, i, rows);
        rows := rows + [row];
      } else {
        SkipStep(facts, mapping, verdict, periods, i, rows);
      }
    }
    assert periods[..|periods|] == periods;
  }
  // ---------------------------------------------------------------------
  // The "Metrics_Dictionary" sheet

  /** `tier_descriptions`, from TIER 1 to TIER 9. */
  const TierDescriptions: seq<string> := [
    "Core Profitability & Performance - Most critical metrics for stakeholder decision making",
    "Capital & Balance Sheet Strength - Financial stability and scale indicators",
    "Risk Management & Credit Quality - Credit risk and asset quality measures",
    "Income Statement Detail - Detailed revenue and expense components",
    "Operational Efficiency - Cost management and operational performance",
    "Growth & Market Metrics - Growth rates and market position indicators",
    "Trading & Investment Banking - Specialized revenue streams",
    "Regulatory & Capital Management - Regulatory compliance metrics",
    "Additional Balance Sheet Items - Supporting balance sheet components"
  ]

  /** One row of the sheet. */
  datatype MetricInfo = MetricInfo(metricName: string, priorityRank: nat, tier: string, tierDescription: string, columnPosition: nat)

  /** The tier number the position test gives the metric at 0-based
      position `i`. */
  function TierNumber(i: nat): (t: nat)
    ensures 1 <= t <= 9
  {
    if i < 7 then 1
    else if i < 15 then 2
    else if i < 21 then 3
    else if i < 28 then 4
    else if i < 33 then 5
    else if i < 38 then 6
    else if i < 43 then 7
    else if i < 48 then 8
    else 9
  }

  /** `'TIER 1'` ... `'TIER 9'`. */
  function TierName(t: nat): (name: string)
    requires 1 <= t <= 9
    ensures |name| == 6 && name[..5] == "TIER " && name[5] as int == '0' as int + t
  {
    "TIER " + [('0' as int + t) as char]
  }

  /** The first position of each tier. */
  function TierStart(t: nat): nat
    requires 1 <= t <= 9
  {
    [0, 7, 15, 21, 28, 33, 38, 43, 48][t - 1]
  }

  /** Tiers are contiguous blocks of positions, in order: position `i` is
      in tier `t` exactly when it lies between the first position of `t`
      and that of the next tier. */
  lemma TierBlocks(i: nat, t: nat)
    requires 1 <= t <= 9
    ensures TierNumber(i) == t <==> TierStart(t) <= i && (t == 9 || i < TierStart(t + 1))
  {
  }

  /** How many of the first `n` positions fall in tier `t`: the value of
      `tier_counters` after `n` metrics. */
  function CountTier(n: nat, t: nat): (c: nat)
    ensures c <= n
  {
    if n == 0 then 0 else CountTier(n - 1, t) + (if TierNumber(n - 1) == t then 1 else 0)
  }

  /** Tier `t` holds the positions from its start up to the next tier's
      start (the last tier is open-ended). */
  lemma {:induction false} CountTierBlock(n: nat, t: nat)
    requires 1 <= t <= 9
    ensures n <= TierStart(t) ==> CountTier(n, t) == 0
    ensures t < 9 && TierStart(t + 1) <= n ==> CountTier(n, t) == TierStart(t + 1) - TierStart(t)
    ensures TierStart(t) <= n && (t == 9 || n <= TierStart(t + 1)) ==> CountTier(n, t) == n - TierStart(t)
  {
    if n > 0 {
      CountTierBlock(n - 1, t);
      TierBlocks(n - 1, t);
    }
  }

  /** The metric listed first among the credit-quality metrics,
      ProvisionForLoanLosses at position 14, falls in TIER 2 by the
      cut-offs; the next one starts TIER 3. */
  lemma ProvisionForLoanLossesTier()
    ensures |TargetMetrics| == 52
    ensures TargetMetrics[14] == "ProvisionForLoanLosses" && TierNumber(14) == 2
    ensures TargetMetrics[15] == "AllowanceForLoanLosses" && TierNumber(15) == 3
  {
  }

  /** For the 52 target metrics the tiers hold 7, 8, 6, 7, 5, 5, 5, 5 and 4
      metrics (stated in three parts); TIER 9 gets positions 48 to 51. */
  lemma {:induction false} TierSizesHead(n: nat)
    requires n == |TargetMetrics|
    ensures CountTier(n, 1) == 7 && CountTier(n, 2) == 8 && CountTier(n, 3) == 6
  {
    CountTierBlock(n, 1);
    CountTierBlock(n, 2);
    CountTierBlock(n, 3);
  }

  lemma {:induction false} TierSizesMiddle(n: nat)
    requires n == |TargetMetrics|
    ensures CountTier(n, 4) == 7 && CountTier(n, 5) == 5 && CountTier(n, 6) == 5
  {
    CountTierBlock(n, 4);
    CountTierBlock(n, 5);
    CountTierBlock(n, 6);
  }

  lemma {:induction false} TierSizesTail(n: nat)
    requires n == |TargetMetrics|
    ensures CountTier(n, 7) == 5 && CountTier(n, 8) == 5 && CountTier(n, 9) == 4
  {
    CountTierBlock(n, 7);
    CountTierBlock(n, 8);
    CountTierBlock(n, 9);
  }

  /** The `if`/`elif` chain that picks the tier of position `i`. */
  method TierOf(i: nat) returns (tier: nat)
    ensures tier == TierNumber(i)
  {
    if i < 7 { tier := 1; }
    else if i < 15 { tier := 2; }
    else if i < 21 { tier := 3; }
    else if i < 28 { tier := 4; }
    else if i < 33 { tier := 5; }
    else if i < 38 { tier := 6; }
    else if i < 43 { tier := 7; }
    else if i < 48 { tier := 8; }
    else { tier := 9; }
  }

  /** The counters hold the tier counts of the first `n` positions. */
  ghost predicate CountersAt(counters: seq<(string, nat)>, n: nat) {
    |counters| == 9 && forall t :: 1 <= t <= 9 ==> counters[t - 1] == (TierName(t), CountTier(n, t))
  }

  /** `tier_counters[tier] += 1` moves the counters on by one position. */
  lemma CounterStep(counters: seq<(string, nat)>, i: nat)
    requires CountersAt(counters, i)
    ensures var t := TierNumber(i);
      CountersAt(counters[t - 1 := (counters[t - 1].0, counters[t - 1].1 + 1)], i + 1)
  {
    var tier := TierNumber(i);
    var after := counters[tier - 1 := (counters[tier - 1].0, counters[tier - 1].1 + 1)];
    forall t | 1 <= t <= 9 ensures after[t - 1] == (TierName(t), CountTier(i + 1, t)) {
      assert after[t - 1] == if t == tier then (counters[t - 1].0, counters[t - 1].1 + 1) else counters[t - 1];
    }
  }

  /** The tier loop of `save_to_excel`: one sheet row per metric (rank from
      1, column after `Datetime` and `CompanyName`) and the per-tier counts.
      The two tier dictionaries keyed by `'TIER k'` are indexed by `k - 1`. */
  method MetricsDictionary(metrics: seq<string>) returns (info: seq<MetricInfo>, counters: seq<(string, nat)>)
    ensures |info| == |metrics|
    ensures forall i :: 0 <= i < |metrics| ==>
      info[i] == MetricInfo(metrics[i], i + 1, TierName(TierNumber(i)), TierDescriptions[TierNumber(i) - 1], i + 3)
    ensures |counters| == 9
    ensures forall t :: 1 <= t <= 9 ==> counters[t - 1] == (TierName(t), CountTier(|metrics|, t))
  {
    info := [];
    counters := [];
    for k := 1 to 10
      invariant |counters| == k - 1
      invariant forall t :: 1 <= t < k ==> counters[t - 1] == (TierName(t), 0)
    {
      counters := counters + [(TierName(k), 0)];
    }
    for i := 0 to |metrics|
      invariant |info| == i
      invariant forall j :: 0 <= j < i ==>
        info[j] == MetricInfo(metrics[j], j + 1, TierName(TierNumber(j)), TierDescriptions[TierNumber(j) - 1], j + 3)
      invariant CountersAt(counters, i)
    {
      var tier := TierOf(i);
      CounterStep(counters, i);
      counters := counters[tier - 1 := (counters[tier - 1].0, counters[tier - 1].1 + 1)];
      info := info + [MetricInfo(metrics[i], i + 1, TierName(tier), TierDescriptions[tier - 1], i + 3)];
    }
  }
}
