/** The XBRL "company facts" document and the two scans that both
    `SECBankDataExtractor.extract_financial_metrics` versions run over it:
    gathering the reporting periods in a date window, and picking one value
    per metric from a priority list of US-GAAP tags.

    The decoded JSON is `facts -> us-gaap -> tag -> units -> unit -> [entry]`.
    Every JSON object the code iterates is an ordered list of pairs (Python
    dicts iterate in insertion order, and "first match" depends on it). A
    missing `facts`, `us-gaap` or `units` key reads as an empty object, which
    is what `.get(key, {})` does. */
module Xbrl {
  import opened Common
  import opened Ordering

  /** A JSON scalar as found in an entry: `null`, a string, or any other
      non-string value (numbers; no arithmetic is done on them). */
  datatype Scalar = Null | Str(s: string) | Num(n: int)

  /** One fact entry; each field is `None` when the key is absent. */
  datatype Entry = Entry(end: Option<Scalar>, val: Option<Scalar>, form: Option<Scalar>)

  type Units = seq<(string, seq<Entry>)>
  type UsGaap = seq<(string, Units)>

  /** The company-facts document: `entityName` and `facts.us-gaap`. */
  datatype CompanyFacts = CompanyFacts(entityName: Option<string>, usGaap: UsGaap)

  /** Target metric name and its GAAP tags in priority order. */
  type Mapping = seq<(string, seq<string>)>

  /** One extracted row: `Datetime`, `CompanyName`, then one value per
      metric in mapping order (`Null` plays Python's `None`). */
  datatype Row = Row(datetime: string, companyName: string, metrics: seq<(string, Scalar)>)

  /** `us_gaap[tag].get('units', {})` when `tag in us_gaap`, else nothing. */
  function UnitsOf(us: UsGaap, tag: string): Units {
    match Get(us, tag)
    case Some(units) => units
    case None => []
  }

  // ---------------------------------------------------------------------
  // Period collection

  /** `start_date <= entry['end']` raises TypeError: the end is there but is
      not a string. */
  predicate EndUncomparable(e: Entry) {
    e.end.Some? && !e.end.value.Str?
  }

  /** `'end' in entry and start_date <= entry['end'] <= end_date`. */
  predicate EndInWindow(e: Entry, start: string, stop: string) {
    e.end.Some? && e.end.value.Str? && StrLe(start, e.end.value.s) && StrLe(e.end.value.s, stop)
  }

  /** The end dates in the window among some entries. */
  ghost function WindowEnds(entries: set<Entry>, start: string, stop: string): set<string> {
    set e | e in entries && EndInWindow(e, start, stop) :: e.end.value.s
  }

  /** Every entry of every unit. */
  ghost function EntriesOf(units: Units): set<Entry> {
    set i, e | 0 <= i < |units| && e in units[i].1 :: e
  }

  /** Every entry of every present tag of a tag list. */
  ghost function TagEntries(us: UsGaap, tags: seq<string>): set<Entry> {
    set i, e | 0 <= i < |tags| && e in EntriesOf(UnitsOf(us, tags[i])) :: e
  }

  /** Every entry the period scan visits: all tags of all metrics. */
  ghost function MappingEntries(us: UsGaap, mapping: Mapping): set<Entry> {
    set i, e | 0 <= i < |mapping| && e in TagEntries(us, mapping[i].1) :: e
  }

  /** The scan raises: some visited entry has a non-string end. */
  ghost predicate ScanFaults(us: UsGaap, mapping: Mapping) {
    exists e :: e in MappingEntries(us, mapping) && EndUncomparable(e)
  }

  /** The periods the scan collects when it does not raise. */
  ghost function PeriodSet(us: UsGaap, mapping: Mapping, start: string, stop: string): (ps: set<string>)
    ensures forall p :: p in ps ==> StrLe(start, p) && StrLe(p, stop)
  {
    WindowEnds(MappingEntries(us, mapping), start, stop)
  }

  lemma EntriesOfStep(units: Units, u: nat)
    requires u < |units|
    ensures EntriesOf(units[..u + 1]) == EntriesOf(units[..u]) + (set e | e in units[u].1)
  {
    var a, b := EntriesOf(units[..u + 1]), EntriesOf(units[..u]) + (set e | e in units[u].1);
    forall e | e in a ensures e in b {
      var i :| 0 <= i < u + 1 && e in units[..u + 1][i].1;
      if i < u { assert units[..u][i] == units[i]; }
    }
    forall e | e in b ensures e in a {
      if e in units[u].1 {
        assert units[..u + 1][u] == units[u];
      } else {
        var i :| 0 <= i < u && e in units[..u][i].1;
        assert units[..u + 1][i] == units[i];
      }
    }
  }

  lemma TagEntriesStep(us: UsGaap, tags: seq<string>, t: nat)
    requires t < |tags|
    ensures TagEntries(us, tags[..t + 1]) == TagEntries(us, tags[..t]) + EntriesOf(UnitsOf(us, tags[t]))
  {
    var a, b := TagEntries(us, tags[..t + 1]), TagEntries(us, tags[..t]) + EntriesOf(UnitsOf(us, tags[t]));
    forall e | e in a ensures e in b {
      var i :| 0 <= i < t + 1 && e in EntriesOf(UnitsOf(us, tags[..t + 1][i]));
      if i < t { assert tags[..t][i] == tags[i]; }
    }
    forall e | e in b ensures e in a {
      if e in EntriesOf(UnitsOf(us, tags[t])) {
        assert tags[..t + 1][t] == tags[t];
      } else {
        var i :| 0 <= i < t && e in EntriesOf(UnitsOf(us, tags[..t][i]));
        assert tags[..t + 1][i] == tags[i];
      }
    }
  }

  lemma MappingEntriesStep(us: UsGaap, mapping: Mapping, g: nat)
    requires g < |mapping|
    ensures MappingEntries(us, mapping[..g + 1]) == MappingEntries(us, mapping[..g]) + TagEntries(us, mapping[g].1)
  {
    var a, b := MappingEntries(us, mapping[..g + 1]), MappingEntries(us, mapping[..g]) + TagEntries(us, mapping[g].1);
    forall e | e in a ensures e in b {
      var i :| 0 <= i < g + 1 && e in TagEntries(us, mapping[..g + 1][i].1);
      if i < g { assert mapping[..g][i] == mapping[i]; }
    }
    forall e | e in b ensures e in a {
      if e in TagEntries(us, mapping[g].1) {
        assert mapping[..g + 1][g] == mapping[g];
      } else {
        var i :| 0 <= i < g && e in TagEntries(us, mapping[..g][i].1);
        assert mapping[..g + 1][i] == mapping[i];
      }
    }
  }

  lemma WindowEndsUnion(a: set<Entry>, b: set<Entry>, start: string, stop: string)
    ensures WindowEnds(a + b, start, stop) == WindowEnds(a, start, stop) + WindowEnds(b, start, stop)
  {
  }

  /** The entries of one list, as a set. */
  ghost function Elems(entries: seq<Entry>): set<Entry> {
    set e | e in entries
  }

  /** The two inner loops of the period scan, over the units of one tag. */
  method ScanUnits(units: Units, start: string, stop: string) returns (r: Result<set<string>>)
    ensures r.Err? <==> exists e :: e in EntriesOf(units) && EndUncomparable(e)
    ensures r.Ok? ==> r.value == WindowEnds(EntriesOf(units), start, stop)
  {
    var periods: set<string> := {};
    for u := 0 to |units|
      invariant forall e :: e in EntriesOf(units[..u]) ==> !EndUncomparable(e)
      invariant periods == WindowEnds(EntriesOf(units[..u]), start, stop)
    {
      var entries := units[u].1;
      for k := 0 to |entries|
        invariant forall e :: e in entries[..k] ==> !EndUncomparable(e)
        invariant periods == WindowEnds(EntriesOf(units[..u]) + Elems(entries[..k]), start, stop)
      {
        var entry := entries[k];
        if entry.end.Some? {
          if !entry.end.value.Str? {
            assert entry in units[u].1;
            assert entry in EntriesOf(units);
            return Err("TypeError: end date is not a string");
          }
          var end := entry.end.value.s;
          if StrLe(start, end) && StrLe(end, stop) {
            periods := periods + {end};
          }
        }
        assert entries[..k + 1] == entries[..k] + [entry];
        assert Elems(entries[..k + 1]) == Elems(entries[..k]) + {entry};
        WindowEndsUnion(EntriesOf(units[..u]) + Elems(entries[..k]), {entry}, start, stop);
      }
      assert entries[..|entries|] == entries;
      assert Elems(entries) == set e | e in units[u].1;
      EntriesOfStep(units, u);
    }
    assert units[..|units|] == units;
    r := Ok(periods);
  }

  /** The period scan over one metric's tags; absent tags are skipped. */
  method ScanTags(us: UsGaap, tags: seq<string>, start: string, stop: string) returns (r: Result<set<string>>)
    ensures r.Err? <==> exists e :: e in TagEntries(us, tags) && EndUncomparable(e)
    ensures r.Ok? ==> r.value == WindowEnds(TagEntries(us, tags), start, stop)
  {
    var periods: set<string> := {};
    for t := 0 to |tags|
      invariant forall e :: e in TagEntries(us, tags[..t]) ==> !EndUncomparable(e)
      invariant periods == WindowEnds(TagEntries(us, tags[..t]), start, stop)
    {
      var found := Get(us, tags[t]);
      if found.Some? {
        var scanned := ScanUnits(found.value, start, stop);
        if scanned.Err? {
          ghost var e :| e in EntriesOf(UnitsOf(us, tags[t])) && EndUncomparable(e);
          assert e in TagEntries(us, tags);
          return scanned;
        }
        periods := periods + scanned.value;
      }
      TagEntriesStep(us, tags, t);
      WindowEndsUnion(TagEntries(us, tags[..t]), EntriesOf(UnitsOf(us, tags[t])), start, stop);
    }
    assert tags[..|tags|] == tags;
    r := Ok(periods);
  }

  /** The period scan: every entry, of every unit, of every present tag, of
      every metric's tag list, whose end lies in the window. It raises (and
      the extractor then returns no rows) on the first entry whose end is
      not a string. */
  method CollectPeriods(us: UsGaap, mapping: Mapping, start: string, stop: string) returns (r: Result<set<string>>)
    ensures r.Err? <==> ScanFaults(us, mapping)
    ensures r.Ok? ==> r.value == PeriodSet(us, mapping, start, stop)
  {
    var periods: set<string> := {};
    for g := 0 to |mapping|
      invariant forall e :: e in MappingEntries(us, mapping[..g]) ==> !EndUncomparable(e)
      invariant periods == WindowEnds(MappingEntries(us, mapping[..g]), start, stop)
    {
      var scanned := ScanTags(us, mapping[g].1, start, stop);
      if scanned.Err? {
        ghost var e :| e in TagEntries(us, mapping[g].1) && EndUncomparable(e);
        assert e in MappingEntries(us, mapping);
        return scanned;
      }
      periods := periods + scanned.value;
      MappingEntriesStep(us, mapping, g);
      WindowEndsUnion(MappingEntries(us, mapping[..g]), TagEntries(us, mapping[g].1), start, stop);
    }
    assert mapping[..|mapping|] == mapping;
    r := Ok(periods);
  }

  // ---------------------------------------------------------------------
  // Value selection

  /** `entry.get('end') == period_end and 'val' in entry` and the form is
      `10-Q` or `10-K`. */
  predicate Qualifies(e: Entry, period: string) {
    && e.end == Some(Str(period))
    && e.val.Some?
    && (e.form == Some(Str("10-Q")) || e.form == Some(Str("10-K")))
  }

  /** The `val` of the first qualifying entry of one unit: the inner loop
      breaks there whatever that value is. */
  function FirstQualifying(entries: seq<Entry>, period: string): (r: Option<Scalar>)
    ensures r.None? <==> forall k :: 0 <= k < |entries| ==> !Qualifies(entries[k], period)
  {
    if entries == [] then None
    else if Qualifies(entries[0], period) then entries[0].val
    else
      assert forall k :: 1 <= k < |entries| ==> entries[1..][k - 1] == entries[k];
      FirstQualifying(entries[1..], period)
  }

  /** The value a tag gives: the first unit whose first qualifying entry
      carries a non-null value. */
  function UnitsValue(units: Units, period: string): Scalar {
    if units == [] then Null
    else
      var v := FirstQualifying(units[0].1, period);
      if v.Some? && v.value != Null then v.value else UnitsValue(units[1..], period)
  }

  function TagValue(us: UsGaap, tag: string, period: string): Scalar {
    UnitsValue(UnitsOf(us, tag), period)
  }

  /** The value of one metric for one period: the first tag, in priority
      order, that gives a non-null value; `Null` when none does. */
  function Pick(us: UsGaap, tags: seq<string>, period: string): Scalar {
    if tags == [] then Null
    else if TagValue(us, tags[0], period) != Null then TagValue(us, tags[0], period)
    else Pick(us, tags[1..], period)
  }

  /** Within one unit, only the first qualifying entry counts. */
  lemma {:induction false} FirstQualifyingAt(entries: seq<Entry>, period: string, k: nat)
    requires k < |entries| && Qualifies(entries[k], period)
    requires forall j :: 0 <= j < k ==> !Qualifies(entries[j], period)
    ensures FirstQualifying(entries, period) == entries[k].val
  {
    if k > 0 {
      assert entries[1..][k - 1] == entries[k];
      FirstQualifyingAt(entries[1..], period, k - 1);
    }
  }

  /** A tag gives `Null` exactly when no unit's first qualifying entry
      carries a non-null value. */
  lemma {:induction false} UnitsValueNull(units: Units, period: string)
    ensures UnitsValue(units, period) == Null <==>
      forall u :: 0 <= u < |units| ==> FirstQualifying(units[u].1, period) in {None, Some(Null)}
  {
    if units != [] {
      UnitsValueNull(units[1..], period);
      assert forall u :: 1 <= u < |units| ==> units[1..][u - 1] == units[u];
    }
  }

  /** A non-null tag value comes from the earliest unit that has one. */
  lemma {:induction false} UnitsValueAt(units: Units, period: string, u: nat)
    requires u < |units|
    requires FirstQualifying(units[u].1, period).Some? && FirstQualifying(units[u].1, period).value != Null
    requires forall j :: 0 <= j < u ==> FirstQualifying(units[j].1, period) in {None, Some(Null)}
    ensures UnitsValue(units, period) == FirstQualifying(units[u].1, period).value
  {
    if u > 0 {
      assert units[1..][u - 1] == units[u];
      UnitsValueAt(units[1..], period, u - 1);
    }
  }

  /** A metric is `Null` exactly when none of its tags gives a value. */
  lemma {:induction false} PickNull(us: UsGaap, tags: seq<string>, period: string)
    ensures Pick(us, tags, period) == Null <==> forall t :: 0 <= t < |tags| ==> TagValue(us, tags[t], period) == Null
  {
    if tags != [] {
      PickNull(us, tags[1..], period);
      assert forall t :: 1 <= t < |tags| ==> tags[1..][t - 1] == tags[t];
    }
  }

  /** First-match priority: the metric takes the value of the earliest tag
      that gives one; later tags are never consulted. */
  lemma {:induction false} PickAt(us: UsGaap, tags: seq<string>, period: string, t: nat)
    requires t < |tags| && TagValue(us, tags[t], period) != Null
    requires forall j :: 0 <= j < t ==> TagValue(us, tags[j], period) == Null
    ensures Pick(us, tags, period) == TagValue(us, tags[t], period)
  {
    if t > 0 {
      assert tags[1..][t - 1] == tags[t];
      PickAt(us, tags[1..], period, t - 1);
    }
  }

  /** Every non-null metric value is the `val` of a qualifying entry (end
      equal to the period, form 10-Q or 10-K) of one of the metric's tags. */
  lemma {:induction false} PickSound(us: UsGaap, tags: seq<string>, period: string)
    requires Pick(us, tags, period) != Null
    ensures exists t, u, k ::
              && 0 <= t < |tags| && 0 <= u < |UnitsOf(us, tags[t])| && 0 <= k < |UnitsOf(us, tags[t])[u].1|
              && Qualifies(UnitsOf(us, tags[t])[u].1[k], period)
              && UnitsOf(us, tags[t])[u].1[k].val == Some(Pick(us, tags, period))
  {
    if TagValue(us, tags[0], period) != Null {
      var u := UnitsValueSource(UnitsOf(us, tags[0]), period);
      var k := FirstQualifyingSource(UnitsOf(us, tags[0])[u].1, period);
      assert Qualifies(UnitsOf(us, tags[0])[u].1[k], period);
    } else {
      PickSound(us, tags[1..], period);
      var t, u, k :| 0 <= t < |tags[1..]| && 0 <= u < |UnitsOf(us, tags[1..][t])| && 0 <= k < |UnitsOf(us, tags[1..][t])[u].1|
        && Qualifies(UnitsOf(us, tags[1..][t])[u].1[k], period)
        && UnitsOf(us, tags[1..][t])[u].1[k].val == Some(Pick(us, tags[1..], period));
      assert tags[1..][t] == tags[t + 1];
    }
  }

  lemma {:induction false} FirstQualifyingSource(entries: seq<Entry>, period: string) returns (k: nat)
    requires FirstQualifying(entries, period).Some?
    ensures k < |entries| && Qualifies(entries[k], period) && entries[k].val == FirstQualifying(entries, period)
  {
    if Qualifies(entries[0], period) {
      k := 0;
    } else {
      var k' := FirstQualifyingSource(entries[1..], period);
      k := k' + 1;
    }
  }

  lemma {:induction false} UnitsValueSource(units: Units, period: string) returns (u: nat)
    requires UnitsValue(units, period) != Null
    ensures u < |units| && FirstQualifying(units[u].1, period) == Some(UnitsValue(units, period))
  {
    var v := FirstQualifying(units[0].1, period);
    if v.Some? && v.value != Null {
      u := 0;
    } else {
      var u' := UnitsValueSource(units[1..], period);
      u := u' + 1;
    }
  }

  // ---------------------------------------------------------------------
  // Rows

  /** `company_facts.get('entityName', 'Unknown')`. */
  function CompanyName(facts: CompanyFacts): (name: string)
    ensures facts.entityName.None? ==> name == "Unknown"
    ensures facts.entityName.Some? ==> name == facts.entityName.value
  {
    facts.entityName.GetOr("Unknown")
  }

  /** The row the extractor builds for one period, before the keep rule. */
  function RowFor(facts: CompanyFacts, mapping: Mapping, period: string): (row: Row)
    ensures row.datetime == period && row.companyName == CompanyName(facts)
    ensures Keys(row.metrics) == Keys(mapping)
  {
    Row(period, CompanyName(facts), MetricsFor(facts.usGaap, mapping, period))
  }

  /** Each target metric, in mapping order, with its picked value. */
  function MetricsFor(us: UsGaap, mapping: Mapping, period: string): (ms: seq<(string, Scalar)>)
    ensures |ms| == |mapping|
    ensures forall i :: 0 <= i < |mapping| ==> ms[i] == (mapping[i].0, Pick(us, mapping[i].1, period))
  {
    if mapping == [] then []
    else [(mapping[0].0, Pick(us, mapping[0].1, period))] + MetricsFor(us, mapping[1..], period)
  }

  /** Rows listed in strictly ascending date order (hence no period twice). */
  ghost predicate Chronological(rows: seq<Row>) {
    forall i, j :: 0 <= i < j < |rows| ==> StrLt(rows[i].datetime, rows[j].datetime)
  }

  /** Each row is the row of its own period. */
  ghost predicate RowsMatchFacts(rows: seq<Row>, facts: CompanyFacts, mapping: Mapping) {
    forall i :: 0 <= i < |rows| ==> rows[i] == RowFor(facts, mapping, rows[i].datetime)
  }

  ghost function Dates(rows: seq<Row>): set<string> {
    set i | 0 <= i < |rows| :: rows[i].datetime
  }

  lemma DatesAppend(rows: seq<Row>, row: Row)
    ensures Dates(rows + [row]) == Dates(rows) + {row.datetime}
  {
    var a, b := Dates(rows + [row]), Dates(rows) + {row.datetime};
    forall p | p in b ensures p in a {
      if p == row.datetime {
        assert (rows + [row])[|rows|] == row;
      } else {
        var i :| 0 <= i < |rows| && rows[i].datetime == p;
        assert (rows + [row])[i] == rows[i];
      }
    }
  }

  /** The dates of the rows, in order. */
  function DateList(rows: seq<Row>): (ds: seq<string>)
    ensures |ds| == |rows| && forall i :: 0 <= i < |rows| ==> ds[i] == rows[i].datetime
  {
    seq(|rows|, i requires 0 <= i < |rows| => rows[i].datetime)
  }

  /** The extractor's output is determined by its set of dates: two row
      lists that are both chronological, both made of the rows of their own
      periods, and cover the same dates are the same list. */
  lemma RowsDeterminedByDates(a: seq<Row>, b: seq<Row>, facts: CompanyFacts, mapping: Mapping)
    requires Chronological(a) && Chronological(b)
    requires RowsMatchFacts(a, facts, mapping) && RowsMatchFacts(b, facts, mapping)
    requires Dates(a) == Dates(b)
    ensures a == b
  {
    var da, db := DateList(a), DateList(b);
    forall x ensures x in da <==> x in db {
      if x in da {
        var i :| 0 <= i < |da| && da[i] == x;
        assert x in Dates(a);
      }
      if x in db {
        var i :| 0 <= i < |db| && db[i] == x;
        assert x in Dates(b);
      }
    }
    StrLtIsStrictTotalOrder();
    AscendingUnique(da, db, StrLt);
    assert |a| == |b|;
    forall i | 0 <= i < |a| ensures a[i] == b[i] {
      assert da[i] == db[i];
    }
  }

  lemma RowsMatchAppend(rows: seq<Row>, row: Row, facts: CompanyFacts, mapping: Mapping)
    requires RowsMatchFacts(rows, facts, mapping) && row == RowFor(facts, mapping, row.datetime)
    ensures RowsMatchFacts(rows + [row], facts, mapping)
  {
    forall i | 0 <= i < |rows| + 1
      ensures (rows + [row])[i] == RowFor(facts, mapping, (rows + [row])[i].datetime)
    {
      if i < |rows| {
        assert (rows + [row])[i] == rows[i];
      }
    }
  }

  lemma ChronologicalAppend(rows: seq<Row>, row: Row)
    requires Chronological(rows)
    requires forall r :: 0 <= r < |rows| ==> StrLt(rows[r].datetime, row.datetime)
    ensures Chronological(rows + [row])
  {
  }

  /** Looking a metric up in a row finds the pick of that metric's tag list
      (its first occurrence in the mapping), or nothing if it is not mapped. */
  lemma {:induction false} GetMetricsFor(us: UsGaap, mapping: Mapping, period: string, name: string)
    ensures Get(MetricsFor(us, mapping, period), name) ==
      match Get(mapping, name)
      case Some(tags) => Some(Pick(us, tags, period))
      case None => None
  {
    if mapping != [] && mapping[0].0 != name {
      assert MetricsFor(us, mapping, period)[1..] == MetricsFor(us, mapping[1..], period);
      GetMetricsFor(us, mapping[1..], period, name);
    }
  }

  // ---------------------------------------------------------------------
  // The period loop

  /** What the period loop has built after the first `i` sorted periods,
      for a keep test `verdict`: specified rows in date order, exactly those
      of the periods so far whose test is true, and no test has raised. */
  ghost predicate Progress(facts: CompanyFacts, mapping: Mapping, verdict: string -> Result<bool>,
                           periods: seq<string>, i: nat, rows: seq<Row>)
    requires i <= |periods|
  {
    && RowsMatchFacts(rows, facts, mapping)
    && Chronological(rows)
    && (forall r :: 0 <= r < |rows| ==> rows[r].datetime in periods[..i])
    && (forall j :: 0 <= j < i ==> verdict(periods[j]).Ok?)
    && (forall p :: p in Dates(rows) <==> p in periods[..i] && verdict(p) == Ok(true))
  }

  lemma PrefixStep(periods: seq<string>, i: nat)
    requires i < |periods|
    ensures forall p :: p in periods[..i + 1] <==> p in periods[..i] || p == periods[i]
  {
    assert periods[..i + 1] == periods[..i] + [periods[i]];
  }

  /** Dates taken from the first `i` sorted periods precede period `i`. */
  lemma EarlierDates(periods: seq<string>, i: nat, ds: seq<string>)
    requires StrictlyAscending(periods, StrLt) && i < |periods|
    requires forall r :: 0 <= r < |ds| ==> ds[r] in periods[..i]
    ensures forall r :: 0 <= r < |ds| ==> StrLt(ds[r], periods[i])
  {
    forall r | 0 <= r < |ds| ensures StrLt(ds[r], periods[i]) {
      var j :| 0 <= j < i && periods[j] == ds[r];
    }
  }

  /** A period whose keep test is true: its row is appended. */
  lemma KeepStep(facts: CompanyFacts, mapping: Mapping, verdict: string -> Result<bool>,
                 periods: seq<string>, i: nat, rows: seq<Row>)
    requires StrictlyAscending(periods, StrLt)
    requires i < |periods| && Progress(facts, mapping, verdict, periods, i, rows)
    requires verdict(periods[i]) == Ok(true)
    ensures Progress(facts, mapping, verdict, periods, i + 1, rows + [RowFor(facts, mapping, periods[i])])
  {
    PrefixStep(periods, i);
    var row := RowFor(facts, mapping, periods[i]);
    EarlierDates(periods, i, DateList(rows));
    DatesAppend(rows, row);
    RowsMatchAppend(rows, row, facts, mapping);
    ChronologicalAppend(rows, row);
  }

  /** A period whose keep test is false adds no row. */
  lemma SkipStep(facts: CompanyFacts, mapping: Mapping, verdict: string -> Result<bool>,
                 periods: seq<string>, i: nat, rows: seq<Row>)
    requires i < |periods| && Progress(facts, mapping, verdict, periods, i, rows)
    requires verdict(periods[i]) == Ok(false)
    ensures Progress(facts, mapping, verdict, periods, i + 1, rows)
  {
    PrefixStep(periods, i);
  }
}
