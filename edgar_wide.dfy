/** The top-20 banks script (secedgardownloader.py): flatten every USD
    10-K/10-Q fact on or after a cutoff date into
    `(Company, Datetime, Metric, Value)` records, then pivot them into one
    row per `(Company, Datetime)` holding the first value of each metric,
    sorted by company and date.

    The fetch of each ticker's facts and the parsing of end dates
    (`datetime.fromisoformat`) are parameters; a parsed date is an `int`
    that orders like the dates. The cutoff (`datetime.now()` minus ten
    years) is a parameter. */
module EdgarWide {
  import opened Common
  import opened Ordering
  import opened Xbrl

  /** `TOP20`. */
  const Top20: seq<string> := ["JPM", "BAC", "WFC", "C", "USB", "PNC", "GS", "TFC", "COF",
                               "BK", "SCHW", "TCB", "AXP", "STT", "CFG", "FITB", "KEY", "RF", "NTRS", "HBAN"]

  /** One flat record; `Null` value when the entry has no `val`. */
  datatype Record = Record(company: string, datetime: int, metric: string, value: Scalar)

  /** A list of records, or the script stopping with an exception. */
  type Records = Option<seq<Record>>

  /** Records of two consecutive stretches of the loops. */
  function Then(a: Records, b: Records): (r: Records)
    ensures r.Some? <==> a.Some? && b.Some?
    ensures r.Some? ==> r.value == a.value + b.value
  {
    match a
    case None => None
    case Some(x) => match b case None => None case Some(y) => Some(x + y)
  }

  // ---------------------------------------------------------------------
  // Flattening: specification

  /** The form test `form in ("10-K", "10-Q")`. */
  predicate IsReport(e: Entry) {
    e.form == Some(Str("10-K")) || e.form == Some(Str("10-Q"))
  }

  /** The records of one entry: none for another form; for a report,
      `fromisoformat(entry.get("end"))` must succeed (a missing or
      non-string end, or a string it rejects, raises), and the record is
      kept when its date is not before the cutoff. */
  function EntryRecords(ticker: string, tag: string, e: Entry, parse: string -> Option<int>, cutoff: int): Records {
    if !IsReport(e) then Some([])
    else if !(e.end.Some? && e.end.value.Str? && parse(e.end.value.s).Some?) then None
    else
      var d := parse(e.end.value.s).value;
      if d < cutoff then Some([]) else Some([Record(ticker, d, tag, e.val.GetOr(Null))])
  }

  ghost function EntriesRecords(ticker: string, tag: string, entries: seq<Entry>, parse: string -> Option<int>, cutoff: int): Records
    decreases |entries|
  {
    if entries == [] then Some([])
    else Then(EntriesRecords(ticker, tag, entries[..|entries| - 1], parse, cutoff),
              EntryRecords(ticker, tag, entries[|entries| - 1], parse, cutoff))
  }

  /** Only the unit named "USD" is read. */
  ghost function UnitsRecords(ticker: string, tag: string, units: Units, parse: string -> Option<int>, cutoff: int): Records
    decreases |units|
  {
    if units == [] then Some([])
    else
      var last := units[|units| - 1];
      Then(UnitsRecords(ticker, tag, units[..|units| - 1], parse, cutoff),
           if last.0 != "USD" then Some([]) else EntriesRecords(ticker, tag, last.1, parse, cutoff))
  }

  ghost function TagsRecords(ticker: string, us: UsGaap, parse: string -> Option<int>, cutoff: int): Records
    decreases |us|
  {
    if us == [] then Some([])
    else
      var last := us[|us| - 1];
      Then(TagsRecords(ticker, us[..|us| - 1], parse, cutoff), UnitsRecords(ticker, last.0, last.1, parse, cutoff))
  }

  /** The fetch of one ticker's facts (`get_company_facts(...).get(ticker)`):
      `Err` when the call raises, `Ok(None)` when the response has no entry
      for the ticker, else its `us-gaap` facts. */
  type Fetch = string -> Result<Option<UsGaap>>

  /** The fetch of `ticker` gave facts. */
  predicate Fetched(fetch: Fetch, ticker: string) {
    fetch(ticker).Ok? && fetch(ticker).value.Some?
  }

  function FactsOf(fetch: Fetch, ticker: string): UsGaap
    requires Fetched(fetch, ticker)
  {
    fetch(ticker).value.value
  }

  /** A raising fetch stops the script (the call is outside any `try`); a
      ticker whose fetch gives no response contributes nothing. */
  ghost function TickerRecords(ticker: string, fetch: Fetch, parse: string -> Option<int>, cutoff: int): Records {
    match fetch(ticker)
    case Err(_) => None
    case Ok(None) => Some([])
    case Ok(Some(us)) => TagsRecords(ticker, us, parse, cutoff)
  }

  ghost function TickersRecords(tickers: seq<string>, fetch: Fetch, parse: string -> Option<int>, cutoff: int): Records
    decreases |tickers|
  {
    if tickers == [] then Some([])
    else Then(TickersRecords(tickers[..|tickers| - 1], fetch, parse, cutoff),
              TickerRecords(tickers[|tickers| - 1], fetch, parse, cutoff))
  }

  /** Once the script has raised it produces nothing more: a stretch of the
      entry loop that raises makes the whole loop raise. */
  lemma {:induction false} EntriesStopped(ticker: string, tag: string, entries: seq<Entry>, parse: string -> Option<int>, cutoff: int, k: nat)
    requires k <= |entries| && EntriesRecords(ticker, tag, entries[..k], parse, cutoff).None?
    ensures EntriesRecords(ticker, tag, entries, parse, cutoff).None?
    decreases |entries|
  {
    if k < |entries| {
      assert entries[..|entries| - 1][..k] == entries[..k];
      EntriesStopped(ticker, tag, entries[..|entries| - 1], parse, cutoff, k);
    } else {
      assert entries[..k] == entries;
    }
  }

  lemma {:induction false} UnitsStopped(ticker: string, tag: string, units: Units, parse: string -> Option<int>, cutoff: int, k: nat)
    requires k <= |units| && UnitsRecords(ticker, tag, units[..k], parse, cutoff).None?
    ensures UnitsRecords(ticker, tag, units, parse, cutoff).None?
    decreases |units|
  {
    if k < |units| {
      assert units[..|units| - 1][..k] == units[..k];
      UnitsStopped(ticker, tag, units[..|units| - 1], parse, cutoff, k);
    } else {
      assert units[..k] == units;
    }
  }

  lemma {:induction false} TagsStopped(ticker: string, us: UsGaap, parse: string -> Option<int>, cutoff: int, k: nat)
    requires k <= |us| && TagsRecords(ticker, us[..k], parse, cutoff).None?
    ensures TagsRecords(ticker, us, parse, cutoff).None?
    decreases |us|
  {
    if k < |us| {
      assert us[..|us| - 1][..k] == us[..k];
      TagsStopped(ticker, us[..|us| - 1], parse, cutoff, k);
    } else {
      assert us[..k] == us;
    }
  }

  lemma {:induction false} TickersStopped(tickers: seq<string>, fetch: Fetch, parse: string -> Option<int>, cutoff: int, k: nat)
    requires k <= |tickers| && TickersRecords(tickers[..k], fetch, parse, cutoff).None?
    ensures TickersRecords(tickers, fetch, parse, cutoff).None?
    decreases |tickers|
  {
    if k < |tickers| {
      assert tickers[..|tickers| - 1][..k] == tickers[..k];
      TickersStopped(tickers[..|tickers| - 1], fetch, parse, cutoff, k);
    } else {
      assert tickers[..k] == tickers;
    }
  }

  // ---------------------------------------------------------------------
  // Flattening: the loops

  method FlattenEntries(ticker: string, tag: string, entries: seq<Entry>, parse: string -> Option<int>, cutoff: int)
    returns (r: Records)
    ensures r == EntriesRecords(ticker, tag, entries, parse, cutoff)
  {
    var records: seq<Record> := [];
    for k := 0 to |entries|
      invariant EntriesRecords(ticker, tag, entries[..k], parse, cutoff) == Some(records)
    {
      assert entries[..k + 1][..k] == entries[..k] && entries[..k + 1][k] == entries[k];
      var entry := entries[k];
      assert EntriesRecords(ticker, tag, entries[..k + 1], parse, cutoff) ==
             Then(Some(records), EntryRecords(ticker, tag, entry, parse, cutoff));
      assert records + [] == records;
      if !(entry.form == Some(Str("10-K")) || entry.form == Some(Str("10-Q"))) {
        continue;
      }
      if !(entry.end.Some? && entry.end.value.Str?) {
        EntriesStopped(ticker, tag, entries, parse, cutoff, k + 1);
        return None;
      }
      var parsed := parse(entry.end.value.s);
      if parsed.None? {
        EntriesStopped(ticker, tag, entries, parse, cutoff, k + 1);
        return None;
      }
      var periodEnd := parsed.value;
      if periodEnd < cutoff {
        continue;
      }
      records := records + [Record(ticker, periodEnd, tag, entry.val.GetOr(Null))];
    }
    assert entries[..|entries|] == entries;
    r := Some(records);
  }

  method FlattenUnits(ticker: string, tag: string, units: Units, parse: string -> Option<int>, cutoff: int)
    returns (r: Records)
    ensures r == UnitsRecords(ticker, tag, units, parse, cutoff)
  {
    var records: seq<Record> := [];
    for u := 0 to |units|
      invariant UnitsRecords(ticker, tag, units[..u], parse, cutoff) == Some(records)
    {
      assert units[..u + 1][..u] == units[..u] && units[..u + 1][u] == units[u];
      assert records + [] == records;
      if units[u].0 != "USD" {
        continue;
      }
      var part := FlattenEntries(ticker, tag, units[u].1, parse, cutoff);
      if part.None? {
        UnitsStopped(ticker, tag, units, parse, cutoff, u + 1);
        return None;
      }
      records := records + part.value;
    }
    assert units[..|units|] == units;
    r := Some(records);
  }

  method FlattenTags(ticker: string, us: UsGaap, parse: string -> Option<int>, cutoff: int) returns (r: Records)
    ensures r == TagsRecords(ticker, us, parse, cutoff)
  {
    var records: seq<Record> := [];
    for t := 0 to |us|
      invariant TagsRecords(ticker, us[..t], parse, cutoff) == Some(records)
    {
      assert us[..t + 1][..t] == us[..t] && us[..t + 1][t] == us[t];
      var part := FlattenUnits(ticker, us[t].0, us[t].1, parse, cutoff);
      if part.None? {
        TagsStopped(ticker, us, parse, cutoff, t + 1);
        return None;
      }
      records := records + part.value;
    }
    assert us[..|us|] == us;
    r := Some(records);
  }

  /** The flatten loop over the tickers: `None` when the script raises. */
  method Flatten(tickers: seq<string>, fetch: Fetch, parse: string -> Option<int>, cutoff: int)
    returns (r: Records)
    ensures r == TickersRecords(tickers, fetch, parse, cutoff)
  {
    var records: seq<Record> := [];
    for i := 0 to |tickers|
      invariant TickersRecords(tickers[..i], fetch, parse, cutoff) == Some(records)
    {
      assert tickers[..i + 1][..i] == tickers[..i] && tickers[..i + 1][i] == tickers[i];
      assert records + [] == records;
      var resp := fetch(tickers[i]);
      if resp.Err? {
        TickersStopped(tickers, fetch, parse, cutoff, i + 1);
        return None;
      }
      if resp.value.None? {
        continue;
      }
      var part := FlattenTags(tickers[i], resp.value.value, parse, cutoff);
      if part.None? {
        TickersStopped(tickers, fetch, parse, cutoff, i + 1);
        return None;
      }
      records := records + part.value;
    }
    assert tickers[..|tickers|] == tickers;
    r := Some(records);
  }

  // ---------------------------------------------------------------------
  // Flattening: properties

  /** The record made of one entry: only a 10-K or 10-Q entry whose end
      parses gives one, dated by that end, never before the cutoff, with
      the entry's `val` (or `Null`). */
  lemma EntryRecordSound(ticker: string, tag: string, e: Entry, parse: string -> Option<int>, cutoff: int, rec: Record)
    requires EntryRecords(ticker, tag, e, parse, cutoff).Some? && rec in EntryRecords(ticker, tag, e, parse, cutoff).value
    ensures IsReport(e) && e.end.Some? && e.end.value.Str? && parse(e.end.value.s) == Some(rec.datetime)
    ensures rec == Record(ticker, rec.datetime, tag, e.val.GetOr(Null)) && cutoff <= rec.datetime
  {
  }

  /** `rec` is the record of entry `k` of the USD unit `u` of tag `t`. */
  ghost predicate FromEntry(rec: Record, us: UsGaap, parse: string -> Option<int>, cutoff: int, t: int, u: int, k: int) {
    && 0 <= t < |us| && us[t].0 == rec.metric
    && 0 <= u < |us[t].1| && us[t].1[u].0 == "USD"
    && 0 <= k < |us[t].1[u].1|
    && EntryRecords(rec.company, rec.metric, us[t].1[u].1[k], parse, cutoff) == Some([rec])
  }

  lemma {:induction false} EntriesSound(ticker: string, tag: string, entries: seq<Entry>, parse: string -> Option<int>, cutoff: int, rec: Record)
    returns (k: nat)
    requires EntriesRecords(ticker, tag, entries, parse, cutoff).Some?
    requires rec in EntriesRecords(ticker, tag, entries, parse, cutoff).value
    ensures k < |entries| && EntryRecords(ticker, tag, entries[k], parse, cutoff) == Some([rec])
    decreases |entries|
  {
    var init := entries[..|entries| - 1];
    var last := EntryRecords(ticker, tag, entries[|entries| - 1], parse, cutoff);
    if rec in EntriesRecords(ticker, tag, init, parse, cutoff).value {
      k := EntriesSound(ticker, tag, init, parse, cutoff, rec);
    } else {
      assert rec in last.value;
      k := |entries| - 1;
    }
  }

  lemma {:induction false} UnitsSound(ticker: string, tag: string, units: Units, parse: string -> Option<int>, cutoff: int, rec: Record)
    returns (u: nat, k: nat)
    requires UnitsRecords(ticker, tag, units, parse, cutoff).Some?
    requires rec in UnitsRecords(ticker, tag, units, parse, cutoff).value
    ensures u < |units| && units[u].0 == "USD" && k < |units[u].1|
    ensures EntryRecords(ticker, tag, units[u].1[k], parse, cutoff) == Some([rec])
    decreases |units|
  {
    var init := units[..|units| - 1];
    if rec in UnitsRecords(ticker, tag, init, parse, cutoff).value {
      u, k := UnitsSound(ticker, tag, init, parse, cutoff, rec);
    } else {
      u := |units| - 1;
      k := EntriesSound(ticker, tag, units[u].1, parse, cutoff, rec);
    }
  }

  lemma {:induction false} TagsSound(ticker: string, us: UsGaap, parse: string -> Option<int>, cutoff: int, rec: Record)
    returns (t: nat, u: nat, k: nat)
    requires TagsRecords(ticker, us, parse, cutoff).Some?
    requires rec in TagsRecords(ticker, us, parse, cutoff).value
    ensures rec.company == ticker && FromEntry(rec, us, parse, cutoff, t, u, k)
    decreases |us|
  {
    var init := us[..|us| - 1];
    if rec in TagsRecords(ticker, init, parse, cutoff).value {
      t, u, k := TagsSound(ticker, init, parse, cutoff, rec);
      assert us[t] == init[t];
    } else {
      t := |us| - 1;
      u, k := UnitsSound(ticker, us[t].0, us[t].1, parse, cutoff, rec);
      EntryRecordSound(ticker, us[t].0, us[t].1[u].1[k], parse, cutoff, rec);
    }
  }

  /** Every record of the flattened list comes from a ticker with a
      response, and is the record of one USD 10-K/10-Q entry of the tag it
      names, dated on or after the cutoff. */
  lemma {:induction false} TickersSound(tickers: seq<string>, fetch: Fetch, parse: string -> Option<int>, cutoff: int, rec: Record)
    returns (i: nat, t: nat, u: nat, k: nat)
    requires TickersRecords(tickers, fetch, parse, cutoff).Some?
    requires rec in TickersRecords(tickers, fetch, parse, cutoff).value
    ensures i < |tickers| && tickers[i] == rec.company && Fetched(fetch, rec.company)
    ensures FromEntry(rec, FactsOf(fetch, rec.company), parse, cutoff, t, u, k)
    ensures cutoff <= rec.datetime
    decreases |tickers|
  {
    var init := tickers[..|tickers| - 1];
    if rec in TickersRecords(init, fetch, parse, cutoff).value {
      i, t, u, k := TickersSound(init, fetch, parse, cutoff, rec);
    } else {
      i := |tickers| - 1;
      t, u, k := TagsSound(tickers[i], FactsOf(fetch, tickers[i]), parse, cutoff, rec);
    }
    var us := FactsOf(fetch, rec.company);
    EntryRecordSound(rec.company, rec.metric, us[t].1[u].1[k], parse, cutoff, rec);
  }

  /** A report entry whose end parses to a date on or after the cutoff
      gives exactly its record. */
  lemma EntryRecordKept(ticker: string, tag: string, e: Entry, parse: string -> Option<int>, cutoff: int, s: string, d: int)
    requires IsReport(e) && e.end == Some(Str(s)) && parse(s) == Some(d) && cutoff <= d
    ensures EntryRecords(ticker, tag, e, parse, cutoff) == Some([Record(ticker, d, tag, e.val.GetOr(Null))])
  {
  }

  lemma {:induction false} EntriesComplete(ticker: string, tag: string, entries: seq<Entry>, parse: string -> Option<int>, cutoff: int, k: nat, rec: Record)
    requires EntriesRecords(ticker, tag, entries, parse, cutoff).Some?
    requires k < |entries| && EntryRecords(ticker, tag, entries[k], parse, cutoff) == Some([rec])
    ensures rec in EntriesRecords(ticker, tag, entries, parse, cutoff).value
    decreases |entries|
  {
    var init := entries[..|entries| - 1];
    if k < |entries| - 1 {
      assert init[k] == entries[k];
      EntriesComplete(ticker, tag, init, parse, cutoff, k, rec);
    }
  }

  lemma {:induction false} UnitsComplete(ticker: string, tag: string, units: Units, parse: string -> Option<int>, cutoff: int, u: nat, k: nat, rec: Record)
    requires UnitsRecords(ticker, tag, units, parse, cutoff).Some?
    requires u < |units| && units[u].0 == "USD" && k < |units[u].1|
    requires EntryRecords(ticker, tag, units[u].1[k], parse, cutoff) == Some([rec])
    ensures rec in UnitsRecords(ticker, tag, units, parse, cutoff).value
    decreases |units|
  {
    var init := units[..|units| - 1];
    if u < |units| - 1 {
      assert init[u] == units[u];
      UnitsComplete(ticker, tag, init, parse, cutoff, u, k, rec);
    } else {
      EntriesComplete(ticker, tag, units[u].1, parse, cutoff, k, rec);
    }
  }

  lemma {:induction false} TagsComplete(ticker: string, us: UsGaap, parse: string -> Option<int>, cutoff: int, t: nat, u: nat, k: nat, rec: Record)
    requires TagsRecords(ticker, us, parse, cutoff).Some?
    requires rec.company == ticker && FromEntry(rec, us, parse, cutoff, t, u, k)
    ensures rec in TagsRecords(ticker, us, parse, cutoff).value
    decreases |us|
  {
    var init := us[..|us| - 1];
    if t < |us| - 1 {
      assert init[t] == us[t];
      TagsComplete(ticker, init, parse, cutoff, t, u, k, rec);
    } else {
      UnitsComplete(ticker, us[t].0, us[t].1, parse, cutoff, u, k, rec);
    }
  }

  lemma {:induction false} TickersComplete(tickers: seq<string>, fetch: Fetch, parse: string -> Option<int>, cutoff: int,
                                          i: nat, t: nat, u: nat, k: nat, rec: Record)
    requires TickersRecords(tickers, fetch, parse, cutoff).Some?
    requires i < |tickers| && tickers[i] == rec.company && Fetched(fetch, rec.company)
    requires FromEntry(rec, FactsOf(fetch, rec.company), parse, cutoff, t, u, k)
    ensures rec in TickersRecords(tickers, fetch, parse, cutoff).value
    decreases |tickers|
  {
    var init := tickers[..|tickers| - 1];
    if i < |tickers| - 1 {
      assert init[i] == tickers[i];
      TickersComplete(init, fetch, parse, cutoff, i, t, u, k, rec);
    } else {
      TagsComplete(rec.company, FactsOf(fetch, rec.company), parse, cutoff, t, u, k, rec);
    }
  }

  /** Nothing the script should keep is lost: when the flatten completes,
      every USD 10-K/10-Q entry of a fetched ticker whose end parses to a
      date on or after the cutoff (the cutoff itself included) is among the
      records, carrying the ticker, the date, the tag and the entry's `val`. */
  lemma FlattenKeeps(tickers: seq<string>, fetch: Fetch, parse: string -> Option<int>, cutoff: int,
                     i: nat, t: nat, u: nat, k: nat, s: string, d: int)
    requires TickersRecords(tickers, fetch, parse, cutoff).Some?
    requires i < |tickers| && Fetched(fetch, tickers[i])
    requires var us := FactsOf(fetch, tickers[i]);
      && t < |us| && u < |us[t].1| && us[t].1[u].0 == "USD" && k < |us[t].1[u].1|
      && IsReport(us[t].1[u].1[k]) && us[t].1[u].1[k].end == Some(Str(s)) && parse(s) == Some(d) && cutoff <= d
    ensures var us := FactsOf(fetch, tickers[i]);
      Record(tickers[i], d, us[t].0, us[t].1[u].1[k].val.GetOr(Null)) in TickersRecords(tickers, fetch, parse, cutoff).value
  {
    var us := FactsOf(fetch, tickers[i]);
    var e := us[t].1[u].1[k];
    var rec := Record(tickers[i], d, us[t].0, e.val.GetOr(Null));
    EntryRecordKept(tickers[i], us[t].0, e, parse, cutoff, s, d);
    TickersComplete(tickers, fetch, parse, cutoff, i, t, u, k, rec);
  }

  lemma ThenAssociative(a: Records, b: Records, c: Records)
    ensures Then(Then(a, b), c) == Then(a, Then(b, c))
  {
    if a.Some? && b.Some? && c.Some? {
      assert (a.value + b.value) + c.value == a.value + (b.value + c.value);
    }
  }

  /** The records of a list of tickers are those of its first part followed
      by those of the rest: each ticker is processed on its own, in order. */
  lemma {:induction false} TickersAppend(a: seq<string>, b: seq<string>, fetch: Fetch, parse: string -> Option<int>, cutoff: int)
    ensures TickersRecords(a + b, fetch, parse, cutoff) ==
            Then(TickersRecords(a, fetch, parse, cutoff), TickersRecords(b, fetch, parse, cutoff))
    decreases |b|
  {
    if b == [] {
      assert a + b == a;
      var x := TickersRecords(a, fetch, parse, cutoff);
      if x.Some? {
        assert x.value + [] == x.value;
      }
    } else {
      var b' := b[..|b| - 1];
      assert (a + b)[..|a + b| - 1] == a + b';
      assert (a + b)[|a + b| - 1] == b[|b| - 1];
      TickersAppend(a, b', fetch, parse, cutoff);
      ThenAssociative(TickersRecords(a, fetch, parse, cutoff), TickersRecords(b', fetch, parse, cutoff),
                      TickerRecords(b[|b| - 1], fetch, parse, cutoff));
    }
  }

  /** A ticker without a response is skipped: removing it changes nothing. */
  lemma SkipMissingTicker(a: seq<string>, t: string, b: seq<string>, fetch: Fetch, parse: string -> Option<int>, cutoff: int)
    requires fetch(t) == Ok(None)
    ensures TickersRecords(a + [t] + b, fetch, parse, cutoff) == TickersRecords(a + b, fetch, parse, cutoff)
  {
    TickersAppend(a + [t], b, fetch, parse, cutoff);
    TickersAppend(a, [t], fetch, parse, cutoff);
    TickersAppend(a, b, fetch, parse, cutoff);
    assert [t][..0] == [];
    var x := TickersRecords(a, fetch, parse, cutoff);
    if x.Some? {
      assert x.value + [] == x.value;
    }
  }

  // ---------------------------------------------------------------------
  // The wide table

  /** Rows are ordered by company, then by date (`sort_values(["Company",
      "Datetime"])`). */
  predicate KeyLt(a: (string, int), b: (string, int)) {
    StrLt(a.0, b.0) || (a.0 == b.0 && a.1 < b.1)
  }

  lemma KeyLtIsStrictTotalOrder()
    ensures StrictTotalOrder(KeyLt)
  {
    forall a: (string, int) ensures !KeyLt(a, a) {
      StrLtIrreflexive(a.0);
    }
    forall a: (string, int), b: (string, int), c: (string, int) | KeyLt(a, b) && KeyLt(b, c) ensures KeyLt(a, c) {
      if StrLt(a.0, b.0) && StrLt(b.0, c.0) {
        StrLtTransitive(a.0, b.0, c.0);
      }
    }
    forall a: (string, int), b: (string, int) | a != b ensures KeyLt(a, b) || KeyLt(b, a) {
      if a.0 != b.0 {
        StrLtConnected(a.0, b.0);
      }
    }
  }

  /** One row of the wide table: the key, then one cell per metric column
      (`Null` for a missing value). */
  datatype WideRow = WideRow(company: string, datetime: int, cells: seq<Scalar>)

  /** The wide table: its metric columns and its rows. */
  datatype Wide = Wide(metrics: seq<string>, rows: seq<WideRow>)

  function RowKeys(rows: seq<WideRow>): (ks: seq<(string, int)>)
    ensures |ks| == |rows| && forall k :: 0 <= k < |rows| ==> ks[k] == (rows[k].company, rows[k].datetime)
  {
    seq(|rows|, k requires 0 <= k < |rows| => (rows[k].company, rows[k].datetime))
  }

  predicate IsFor(rec: Record, company: string, datetime: int, metric: string) {
    rec.company == company && rec.datetime == datetime && rec.metric == metric
  }

  /** `aggfunc="first"`: the first non-null value among the records of one
      key and metric, `Null` when there is none. */
  function FirstValue(records: seq<Record>, company: string, datetime: int, metric: string): (v: Scalar)
    ensures v == Null <==> forall i :: 0 <= i < |records| && IsFor(records[i], company, datetime, metric) ==> records[i].value == Null
  {
    if records == [] then Null
    else if IsFor(records[0], company, datetime, metric) && records[0].value != Null then records[0].value
    else
      assert forall i :: 1 <= i < |records| ==> records[1..][i - 1] == records[i];
      FirstValue(records[1..], company, datetime, metric)
  }

  /** A non-null cell is the value of the earliest non-null record of its
      key and metric. */
  lemma {:induction false} FirstValueAt(records: seq<Record>, company: string, datetime: int, metric: string, i: nat)
    requires i < |records| && IsFor(records[i], company, datetime, metric) && records[i].value != Null
    requires forall j :: 0 <= j < i && IsFor(records[j], company, datetime, metric) ==> records[j].value == Null
    ensures FirstValue(records, company, datetime, metric) == records[i].value
  {
    if i > 0 {
      assert records[1..][i - 1] == records[i];
      FirstValueAt(records[1..], company, datetime, metric, i - 1);
    }
  }

  /** `wide` is the pivot of `records`: the metric columns are the metrics
      with some non-null record, sorted; the rows are the keys with some
      non-null record, sorted by company and date, one per key; every cell
      is the first non-null value of its key and metric. */
  ghost predicate PivotOf(records: seq<Record>, wide: Wide) {
    && StrictlyAscending(wide.metrics, StrLt)
    && (forall m :: m in wide.metrics <==>
          exists i :: 0 <= i < |records| && records[i].metric == m && records[i].value != Null)
    && StrictlyAscending(RowKeys(wide.rows), KeyLt)
    && (forall key :: key in RowKeys(wide.rows) <==>
          exists i :: 0 <= i < |records| && (records[i].company, records[i].datetime) == key && records[i].value != Null)
    && (forall k :: 0 <= k < |wide.rows| ==>
          && |wide.rows[k].cells| == |wide.metrics|
          && forall j :: 0 <= j < |wide.metrics| ==>
               wide.rows[k].cells[j] == FirstValue(records, wide.rows[k].company, wide.rows[k].datetime, wide.metrics[j]))
  }

  /** `pivot_table(index=["Company", "Datetime"], columns="Metric",
      values="Value", aggfunc="first")`, `reset_index()` and the sort. An
      empty record list has no `Value` column and the pivot raises. */
  method Pivot(records: seq<Record>) returns (wide: Option<Wide>)
    ensures wide.None? <==> records == []
    ensures wide.Some? ==> PivotOf(records, wide.value)
  {
    if records == [] {
      return None;
    }
    var keySet := set i | 0 <= i < |records| && records[i].value != Null :: (records[i].company, records[i].datetime);
    var metricSet := set i | 0 <= i < |records| && records[i].value != Null :: records[i].metric;
    KeyLtIsStrictTotalOrder();
    var keys := SortSet(keySet, KeyLt);
    var metrics := SortStrings(metricSet);
    var rows: seq<WideRow> := [];
    for k := 0 to |keys|
      invariant RowKeys(rows) == keys[..k]
      invariant forall r :: 0 <= r < k ==>
        && |rows[r].cells| == |metrics|
        && forall j :: 0 <= j < |metrics| ==> rows[r].cells[j] == FirstValue(records, rows[r].company, rows[r].datetime, metrics[j])
    {
      var cells := seq(|metrics|, j requires 0 <= j < |metrics| => FirstValue(records, keys[k].0, keys[k].1, metrics[j]));
      rows := rows + [WideRow(keys[k].0, keys[k].1, cells)];
    }
    assert keys[..|keys|] == keys;
    wide := Some(Wide(metrics, rows));
  }

  /** The pivot is determined by the records. */
  lemma PivotUnique(records: seq<Record>, a: Wide, b: Wide)
    requires PivotOf(records, a) && PivotOf(records, b)
    ensures a == b
  {
    StrLtIsStrictTotalOrder();
    KeyLtIsStrictTotalOrder();
    AscendingUnique(a.metrics, b.metrics, StrLt);
    AscendingUnique(RowKeys(a.rows), RowKeys(b.rows), KeyLt);
    assert |a.rows| == |b.rows|;
    forall k | 0 <= k < |a.rows| ensures a.rows[k] == b.rows[k] {
      assert RowKeys(a.rows)[k] == RowKeys(b.rows)[k];
    }
  }

  /** Every row of the pivot holds at least one value. */
  lemma PivotRowsNotEmpty(records: seq<Record>, wide: Wide, k: nat)
    requires PivotOf(records, wide) && k < |wide.rows|
    ensures exists j :: 0 <= j < |wide.metrics| && wide.rows[k].cells[j] != Null
  {
    var row := wide.rows[k];
    assert RowKeys(wide.rows)[k] == (row.company, row.datetime);
    assert (row.company, row.datetime) in RowKeys(wide.rows);
    var i :| 0 <= i < |records| && (records[i].company, records[i].datetime) == (row.company, row.datetime) && records[i].value != Null;
    assert records[i].metric in wide.metrics;
    var j :| 0 <= j < |wide.metrics| && wide.metrics[j] == records[i].metric;
    assert IsFor(records[i], row.company, row.datetime, wide.metrics[j]);
  }

  /** A fetch that raises, for any ticker of the list, stops the script. */
  lemma FetchRaisedStops(tickers: seq<string>, fetch: Fetch, parse: string -> Option<int>, cutoff: int, i: nat)
    requires i < |tickers| && fetch(tickers[i]).Err?
    ensures TickersRecords(tickers, fetch, parse, cutoff).None?
  {
    assert tickers[..i + 1][..i] == tickers[..i] && tickers[..i + 1][i] == tickers[i];
    TickersStopped(tickers, fetch, parse, cutoff, i + 1);
  }

  /** The script: flatten the facts of the 20 tickers, then pivot. `None`
      when it raises before writing the table. */
  method Run(fetch: Fetch, parse: string -> Option<int>, cutoff: int) returns (wide: Option<Wide>)
    ensures TickersRecords(Top20, fetch, parse, cutoff).None? ==> wide.None?
    ensures (exists i :: 0 <= i < |Top20| && fetch(Top20[i]).Err?) ==> wide.None?
    ensures TickersRecords(Top20, fetch, parse, cutoff) == Some([]) ==> wide.None?
    ensures wide.Some? ==> PivotOf(TickersRecords(Top20, fetch, parse, cutoff).value, wide.value)
    ensures TickersRecords(Top20, fetch, parse, cutoff).Some? && TickersRecords(Top20, fetch, parse, cutoff) != Some([]) ==> wide.Some?
  {
    var records := Flatten(Top20, fetch, parse, cutoff);
    if i :| 0 <= i < |Top20| && fetch(Top20[i]).Err? {
      FetchRaisedStops(Top20, fetch, parse, cutoff, i);
    }
    if records.None? {
      return None;
    }
    wide := Pivot(records.value);
  }
}
