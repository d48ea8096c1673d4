/** Version 1 of `SECBankDataExtractor` (sec_downloader_1.py): 13 mapped
    metrics, 16 target metrics, and the per-company extractor whose keep
    rule looks every target metric up in the row. */
module SecDownloader1 {
  import opened Common
  import opened Ordering
  import opened Xbrl

  /** `gaap_mapping`: each mapped metric with its tags in priority order. */
  const GaapMapping: Mapping := [
    ("TotalRevenue", ["Revenues", "RevenueFromContractWithCustomerExcludingAssessedTax", "InterestAndDividendIncomeOperating"]),
    ("InterestIncome", ["InterestAndFeeIncomeLoansAndLeases", "InterestIncomeOperating", "InterestAndDividendIncomeOperating"]),
    ("NonInterestIncome", ["NoninterestIncome", "RevenuesExcludingInterestAndDividends"]),
    ("InterestExpense", ["InterestExpense", "InterestExpenseDeposits", "InterestExpenseDebt"]),
    ("NetInterestIncome", ["InterestIncomeExpenseNet", "NetInterestIncome"]),
    ("ProvisionForLoanLosses", ["ProvisionForLoanAndLeaseLosses", "ProvisionForCreditLosses"]),
    ("NonInterestExpense", ["NoninterestExpense", "OperatingExpenses"]),
    ("NetIncome", ["NetIncomeLoss", "ProfitLoss", "NetIncomeLossAvailableToCommonStockholdersBasic"]),
    ("EarningsPerShare", ["EarningsPerShareBasic", "EarningsPerShareDiluted"]),
    ("TotalAssets", ["Assets", "AssetsCurrent"]),
    ("TotalLoans", ["LoansAndLeasesReceivableNetOfAllowance", "LoansAndLeasesReceivableGross"]),
    ("TotalDeposits", ["Deposits", "DepositsTotal"]),
    ("ShareholdersEquity", ["StockholdersEquity", "StockholdersEquityIncludingPortionAttributableToNoncontrollingInterest"])
  ]

  /** `self.target_metrics`. The first 13 are the mapped metrics, in mapping
      order; BookValuePerShare, ReturnOnAssets and ReturnOnEquity have no
      tags, so no row ever holds them. */
  const TargetMetrics: seq<string> := [
    "TotalRevenue",
    "InterestIncome",
    "NonInterestIncome",
    "InterestExpense",
    "NetInterestIncome",
    "ProvisionForLoanLosses",
    "NonInterestExpense",
    "NetIncome",
    "EarningsPerShare",
    "TotalAssets",
    "TotalLoans",
    "TotalDeposits",
    "ShareholdersEquity",
    "BookValuePerShare",
    "ReturnOnAssets",
    "ReturnOnEquity"
  ]

  // ---------------------------------------------------------------------
  // Extraction

  /** The value loop for one metric and one period: the first qualifying
      entry of a unit sets the value and ends that unit; the first non-null
      value ends the unit and tag loops. */
  method SelectValue(us: UsGaap, tags: seq<string>, period: string) returns (value: Scalar)
    ensures value == Pick(us, tags, period)
  {
    value := Null;
    for t := 0 to |tags|
      invariant value == Null
      invariant Pick(us, tags, period) == Pick(us, tags[t..], period)
    {
      assert tags[t..][0] == tags[t] && tags[t..][1..] == tags[t + 1..];
      var found := Get(us, tags[t]);
      if found.Some? {
        var units := found.value;
        for u := 0 to |units|
          invariant value == Null
          invariant UnitsValue(units, period) == UnitsValue(units[u..], period)
        {
          assert units[u..][0] == units[u] && units[u..][1..] == units[u + 1..];
          var entries := units[u].1;
          for k := 0 to |entries|
            invariant value == Null
            invariant FirstQualifying(entries, period) == FirstQualifying(entries[k..], period)
          {
            assert entries[k..][0] == entries[k] && entries[k..][1..] == entries[k + 1..];
            var entry := entries[k];
            if entry.end == Some(Str(period)) && entry.val.Some? {
              if entry.form == Some(Str("10-Q")) || entry.form == Some(Str("10-K")) {
                value := entry.val.value;
                break;
              }
            }
          }
          if value != Null {
            break;
          }
        }
      }
      if value != Null {
        break;
      }
    }
  }

  /** The metric loop for one period. */
  method BuildRow(facts: CompanyFacts, mapping: Mapping, period: string) returns (row: Row)
    ensures row == RowFor(facts, mapping, period)
  {
    var metrics: seq<(string, Scalar)> := [];
    for g := 0 to |mapping|
      invariant |metrics| == g
      invariant forall j :: 0 <= j < g ==> metrics[j] == (mapping[j].0, Pick(facts.usGaap, mapping[j].1, period))
    {
      var value := SelectValue(facts.usGaap, mapping[g].1, period);
      metrics := metrics + [(mapping[g].0, value)];
    }
    row := Row(period, CompanyName(facts), metrics);
  }

  /** `any(period_data[m] is not None for m in names)`: `Ok(true)` at the
      first non-null value, `Ok(false)` when every name is present and null,
      and a `KeyError`, carrying the missing key, at the first name that is
      not in the row before any value is found. */
  function AnyPresent(metrics: seq<(string, Scalar)>, names: seq<string>): (r: Result<bool>)
    ensures r == Ok(true) ==> exists i :: 0 <= i < |names| && Get(metrics, names[i]).Some? && Get(metrics, names[i]).value != Null
    ensures r == Ok(false) ==> forall i :: 0 <= i < |names| ==> Get(metrics, names[i]) == Some(Null)
  {
    if names == [] then Ok(false)
    else match Get(metrics, names[0])
      case None => Err(names[0])
      case Some(v) =>
        if v != Null then Ok(true)
        else
          var rest := AnyPresent(metrics, names[1..]);
          assert forall i :: 1 <= i < |names| ==> names[1..][i - 1] == names[i];
          rest
  }

  /** The keep test on a row whose keys are the first `|metrics|` names and
      which lacks the next name: it finds a value among the present ones or
      raises `KeyError` on the missing name; it never answers `false`. */
  lemma {:induction false} AnyPresentPrefix(metrics: seq<(string, Scalar)>, names: seq<string>, j: nat)
    requires j <= |metrics| < |names|
    requires Keys(metrics) == names[..|metrics|]
    requires forall a, b :: 0 <= a < b <= |metrics| ==> names[a] != names[b]
    ensures AnyPresent(metrics, names[j..]) ==
      if exists i :: j <= i < |metrics| && metrics[i].1 != Null then Ok(true)
      else Err(names[|metrics|])
    decreases |metrics| - j
  {
    var n := |metrics|;
    assert names[j..][0] == names[j];
    if j == n {
      assert forall i :: 0 <= i < n ==> metrics[i].0 == names[i];
      assert Get(metrics, names[n]).None?;
    } else {
      assert metrics[j].0 == names[j];
      assert forall i :: 0 <= i < j ==> metrics[i].0 == names[i];
      GetAt(metrics, j);
      assert Get(metrics, names[j]) == Some(metrics[j].1);
      if metrics[j].1 == Null {
        assert names[j..][1..] == names[j + 1..];
        AnyPresentPrefix(metrics, names, j + 1);
        assert (exists i :: j <= i < n && metrics[i].1 != Null) <==> (exists i :: j + 1 <= i < n && metrics[i].1 != Null);
      }
    }
  }

  /** The keep test on the row of a period, for a mapping whose metrics
      are the leading target names, followed by an unmapped name. */
  lemma AnyPresentRow(facts: CompanyFacts, mapping: Mapping, names: seq<string>, period: string)
    requires |mapping| < |names| && Keys(mapping) == names[..|mapping|]
    requires forall a, b :: 0 <= a < b <= |mapping| ==> names[a] != names[b]
    ensures AnyPresent(RowFor(facts, mapping, period).metrics, names) ==
      if forall j :: 0 <= j < |mapping| ==> Pick(facts.usGaap, mapping[j].1, period) == Null
      then Err(names[|mapping|])
      else Ok(true)
  {
    var metrics := RowFor(facts, mapping, period).metrics;
    assert names[0..] == names;
    AnyPresentPrefix(metrics, names, 0);
  }

  /** Every mapped metric of the period is null. */
  ghost predicate AllNull(facts: CompanyFacts, period: string) {
    forall j :: 0 <= j < |GaapMapping| ==> Pick(facts.usGaap, GaapMapping[j].1, period) == Null
  }

  /** The mapped metrics are the first 13 target metrics, in order. */
  lemma MappedPrefix()
    ensures |TargetMetrics| == 16 && Keys(GaapMapping) == TargetMetrics[..13]
    ensures TargetMetrics[13] == "BookValuePerShare"
  {
  }

  /** The first 14 target metrics are distinct. */
  lemma TargetPrefixDistinct()
    ensures forall a, b :: 0 <= a < b <= 13 ==> TargetMetrics[a] != TargetMetrics[b]
  {
  }

  /** For the version 1 constants the keep test accepts a row exactly when
      a mapped metric has a value, and otherwise raises `KeyError` on
      BookValuePerShare. */
  lemma KeepTest(facts: CompanyFacts, period: string)
    ensures AnyPresent(RowFor(facts, GaapMapping, period).metrics, TargetMetrics) ==
      if AllNull(facts, period) then Err("BookValuePerShare") else Ok(true)
  {
    MappedPrefix();
    TargetPrefixDistinct();
    AnyPresentRow(facts, GaapMapping, TargetMetrics, period);
  }

  /** The keep test's outcome on the row of one period. */
  ghost function Verdict(facts: CompanyFacts, mapping: Mapping, names: seq<string>, period: string): Result<bool> {
    AnyPresent(RowFor(facts, mapping, period).metrics, names)
  }

  /** A period is in the output: it is collected, its row passes the keep
      test, and no earlier collected period raised in the keep test (the
      exception ends the period loop and the rows so far are returned). */
  ghost predicate Emitted(facts: CompanyFacts, mapping: Mapping, names: seq<string>, start: string, stop: string, p: string) {
    && p in PeriodSet(facts.usGaap, mapping, start, stop)
    && Verdict(facts, mapping, names, p) == Ok(true)
    && forall q :: q in PeriodSet(facts.usGaap, mapping, start, stop) && StrLt(q, p) ==> Verdict(facts, mapping, names, q).Ok?
  }

  /** In a sorted listing of `ps` whose first `i` elements are `good` and
      whose next element (if any) is not, the first `i` elements are exactly
      the elements of `ps` with no element outside `good` below them. */
  lemma {:induction false} SortedPrefix(periods: seq<string>, ps: set<string>, good: set<string>, i: nat, p: string)
    requires StrictlyAscending(periods, StrLt)
    requires forall x :: x in periods <==> x in ps
    requires i <= |periods|
    requires forall j :: 0 <= j < i ==> periods[j] in good
    requires i < |periods| ==> periods[i] !in good
    requires p in good
    ensures p in periods[..i] <==> p in ps && forall q :: q in ps && StrLt(q, p) ==> q in good
  {
    StrLtIrreflexive(p);
    if p in periods[..i] {
      var k :| 0 <= k < i && periods[k] == p;
      forall q | q in ps && StrLt(q, p) ensures q in good {
        var m :| 0 <= m < |periods| && periods[m] == q;
        StrLtAsymmetric(p, q);
        assert m < k;
      }
    }
    if p in ps && forall q :: q in ps && StrLt(q, p) ==> q in good {
      var k :| 0 <= k < |periods| && periods[k] == p;
      if i < |periods| {
        StrLtAsymmetric(p, periods[i]);
        assert periods[i] in ps;
      }
      assert k < i;
      assert periods[..i][k] == p;
    }
  }

  /** When the loop stops at position `i` of the sorted periods (at the end,
      or at the first raising period), the periods kept so far are exactly
      the emitted ones. */
  lemma TruncatedAt(facts: CompanyFacts, mapping: Mapping, names: seq<string>, start: string, stop: string,
                    periods: seq<string>, i: nat)
    requires StrictlyAscending(periods, StrLt)
    requires forall x :: x in periods <==> x in PeriodSet(facts.usGaap, mapping, start, stop)
    requires i <= |periods|
    requires forall j :: 0 <= j < i ==> Verdict(facts, mapping, names, periods[j]).Ok?
    requires i < |periods| ==> Verdict(facts, mapping, names, periods[i]).Err?
    ensures forall p :: (p in periods[..i] && Verdict(facts, mapping, names, p) == Ok(true)) <==>
                        Emitted(facts, mapping, names, start, stop, p)
  {
    var ps := PeriodSet(facts.usGaap, mapping, start, stop);
    var good := set q | q in ps && Verdict(facts, mapping, names, q).Ok?;
    forall p | Verdict(facts, mapping, names, p) == Ok(true)
      ensures p in periods[..i] <==> Emitted(facts, mapping, names, start, stop, p)
    {
      if p in ps {
        SortedPrefix(periods, ps, good, i, p);
      }
    }
  }

  /** The body of `extract_financial_metrics` for a mapping and a list of
      target names. */
  method ExtractRows(facts: CompanyFacts, mapping: Mapping, names: seq<string>, start: string, stop: string)
    returns (rows: seq<Row>)
    ensures ScanFaults(facts.usGaap, mapping) ==> rows == []
    ensures RowsMatchFacts(rows, facts, mapping)
    ensures Chronological(rows)
    ensures !ScanFaults(facts.usGaap, mapping) ==>
      forall p :: p in Dates(rows) <==> Emitted(facts, mapping, names, start, stop, p)
  {
    rows := [];
    var scanned := CollectPeriods(facts.usGaap, mapping, start, stop);
    if scanned.Err? {
      return;
    }
    var periods := SortStrings(scanned.value);
    ghost var verdict := p => Verdict(facts, mapping, names, p);
    for i := 0 to |periods|
      invariant Progress(facts, mapping, verdict, periods, i, rows)
    {
      var row := BuildRow(facts, mapping, periods[i]);
      var keep := AnyPresent(row.metrics, names);
      assert verdict(periods[i]) == keep;
      if keep.Err? {
        TruncatedAt(facts, mapping, names, start, stop, periods, i);
        return;
      }
      if keep.value {
        KeepStep(facts, mapping, verdict, periods, i, rows);
        rows := rows + [row];
      } else {
        SkipStep(facts, mapping, verdict, periods, i, rows);
      }
    }
    assert periods[..|periods|] == periods;
    TruncatedAt(facts, mapping, names, start, stop, periods, |periods|);
  }

  /** `extract_financial_metrics` (version 1). */
  method ExtractFinancialMetrics(facts: CompanyFacts, start: string, stop: string) returns (rows: seq<Row>)
    ensures ScanFaults(facts.usGaap, GaapMapping) ==> rows == []
    ensures RowsMatchFacts(rows, facts, GaapMapping)
    ensures Chronological(rows)
    ensures !ScanFaults(facts.usGaap, GaapMapping) ==>
      forall p :: p in Dates(rows) <==> Emitted(facts, GaapMapping, TargetMetrics, start, stop, p)
  {
    rows := ExtractRows(facts, GaapMapping, TargetMetrics, start, stop);
  }

  /** With the version 1 constants a period is output exactly when it is
      collected and neither it nor any earlier collected period has every
      mapped metric null: no period is ever skipped, the output is the
      longest run of periods, from the earliest, with some value each. */
  lemma EmittedIff(facts: CompanyFacts, start: string, stop: string, p: string)
    ensures Emitted(facts, GaapMapping, TargetMetrics, start, stop, p) <==>
      && p in PeriodSet(facts.usGaap, GaapMapping, start, stop)
      && !AllNull(facts, p)
      && forall q :: q in PeriodSet(facts.usGaap, GaapMapping, start, stop) && StrLt(q, p) ==> !AllNull(facts, q)
  {
    KeepTest(facts, p);
    forall q {
      KeepTest(facts, q);
    }
  }
}
