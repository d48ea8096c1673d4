/** The filter loop of `get_company_filings` (identical in both downloader
    versions): from the column-wise `filings.recent` table of an EDGAR
    submissions document, keep the 10-K and 10-Q filings whose filing date
    lies in a window, in table order. Any exception inside the method makes
    it return `None`. */
module Filings {
  import opened Common
  import opened Ordering

  /** `filings.recent`: one column (a list of strings) per key. */
  type Recent = seq<(string, seq<string>)>

  /** One kept filing. */
  datatype Filing = Filing(form: string, filingDate: string, accessionNumber: string, reportDate: string, primaryDocument: string)

  /** `recent_filings.get('form', [])`: the list whose length drives the loop. */
  function Forms(recent: Recent): seq<string> {
    Get(recent, "form").GetOr([])
  }

  /** `recent_filings[key][i]`; `None` when it raises (no such key, or the
      column is too short). */
  function At(recent: Recent, key: string, i: nat): (r: Option<string>)
    ensures r.Some? <==> Get(recent, key).Some? && i < |Get(recent, key).value|
  {
    match Get(recent, key)
    case Some(column) => if i < |column| then Some(column[i]) else None
    case None => None
  }

  /** `recent_filings.get(key, [''])[i]`: a missing column reads as `['']`,
      which only has an element at index 0. */
  function AtOrBlank(recent: Recent, key: string, i: nat): (r: Option<string>)
    ensures Get(recent, key).None? ==> r == (if i == 0 then Some("") else None)
    ensures Get(recent, key).Some? ==> r == At(recent, key, i)
  {
    match Get(recent, key)
    case Some(column) => if i < |column| then Some(column[i]) else None
    case None => if i == 0 then Some("") else None
  }

  /** Row `i` passes the filter: its form is 10-K or 10-Q and its filing
      date lies in the window (comparing ISO dates as strings). */
  predicate Wanted(recent: Recent, start: string, stop: string, i: nat) {
    && i < |Forms(recent)|
    && At(recent, "filingDate", i).Some?
    && (Forms(recent)[i] == "10-K" || Forms(recent)[i] == "10-Q")
    && StrLe(start, At(recent, "filingDate", i).value)
    && StrLe(At(recent, "filingDate", i).value, stop)
  }

  /** Row `i` raises: its filing date cannot be read, or it passes the
      filter and one of the other columns cannot be read. */
  predicate FaultAt(recent: Recent, start: string, stop: string, i: nat) {
    || At(recent, "filingDate", i).None?
    || (&& Wanted(recent, start, stop, i)
        && (|| At(recent, "accessionNumber", i).None?
            || AtOrBlank(recent, "reportDate", i).None?
            || AtOrBlank(recent, "primaryDocument", i).None?))
  }

  /** The filing record built for row `i`. */
  function FilingAt(recent: Recent, i: nat): Filing
    requires i < |Forms(recent)|
  {
    Filing(Forms(recent)[i], At(recent, "filingDate", i).GetOr(""), At(recent, "accessionNumber", i).GetOr(""),
           AtOrBlank(recent, "reportDate", i).GetOr(""), AtOrBlank(recent, "primaryDocument", i).GetOr(""))
  }

  /** The filings kept from the first `k` rows, in row order. */
  ghost function Selected(recent: Recent, start: string, stop: string, k: nat): seq<Filing>
    requires k <= |Forms(recent)|
  {
    if k == 0 then []
    else Selected(recent, start, stop, k - 1) +
         (if Wanted(recent, start, stop, k - 1) then [FilingAt(recent, k - 1)] else [])
  }

  /** The loop over the rows. `None` when some row raises. */
  method FilterRecent(recent: Recent, start: string, stop: string) returns (r: Option<seq<Filing>>)
    ensures r.None? <==> exists i :: 0 <= i < |Forms(recent)| && FaultAt(recent, start, stop, i)
    ensures r.Some? ==> r.value == Selected(recent, start, stop, |Forms(recent)|)
  {
    var filings: seq<Filing> := [];
    if recent != [] {
      var forms := Get(recent, "form").GetOr([]);
      for i := 0 to |forms|
        invariant forall j :: 0 <= j < i ==> !FaultAt(recent, start, stop, j)
        invariant filings == Selected(recent, start, stop, i)
      {
        var formType := forms[i];
        var filingDate := At(recent, "filingDate", i);
        if filingDate.None? {
          assert FaultAt(recent, start, stop, i);
          return None;
        }
        if (formType == "10-K" || formType == "10-Q") && StrLe(start, filingDate.value) && StrLe(filingDate.value, stop) {
          var accession := At(recent, "accessionNumber", i);
          if accession.None? {
            assert FaultAt(recent, start, stop, i);
          return None;
          }
          var reportDate := AtOrBlank(recent, "reportDate", i);
          if reportDate.None? {
            assert FaultAt(recent, start, stop, i);
          return None;
          }
          var primaryDocument := AtOrBlank(recent, "primaryDocument", i);
          if primaryDocument.None? {
            assert FaultAt(recent, start, stop, i);
          return None;
          }
          filings := filings + [Filing(formType, filingDate.value, accession.value, reportDate.value, primaryDocument.value)];
        }
      }
    }
    r := Some(filings);
  }

  /** `get_company_filings` given the outcome of the request: `None` when
      `requests.get` or `response.json()` raised, else the status and
      `data.filings.recent`. A raised request or a non-200 status gives
      `None`, otherwise the filtered filings. */
  method GetCompanyFilings(response: Option<(int, Recent)>, start: string, stop: string) returns (r: Option<seq<Filing>>)
    ensures response.None? ==> r.None?
    ensures response.Some? && response.value.0 != 200 ==> r.None?
    ensures response.Some? && response.value.0 == 200 ==>
      (r.None? <==> exists i :: 0 <= i < |Forms(response.value.1)| && FaultAt(response.value.1, start, stop, i))
    ensures r.Some? ==> response.Some? && r.value == Selected(response.value.1, start, stop, |Forms(response.value.1)|)
  {
    if response.None? {
      return None;
    }
    var (status, recent) := response.value;
    if status == 200 {
      r := FilterRecent(recent, start, stop);
    } else {
      r := None;
    }
  }

  /** Every kept filing is a 10-K or 10-Q filed inside the window. */
  lemma {:induction false} SelectedSound(recent: Recent, start: string, stop: string, k: nat)
    requires k <= |Forms(recent)|
    ensures forall f :: f in Selected(recent, start, stop, k) ==>
      (f.form == "10-K" || f.form == "10-Q") && StrLe(start, f.filingDate) && StrLe(f.filingDate, stop)
  {
    if k > 0 {
      SelectedSound(recent, start, stop, k - 1);
    }
  }

  /** Every row that passes the filter is kept, at a position no earlier
      than that of any row before it. */
  lemma {:induction false} SelectedComplete(recent: Recent, start: string, stop: string, k: nat, i: nat)
    requires i < k <= |Forms(recent)|
    requires Wanted(recent, start, stop, i)
    ensures FilingAt(recent, i) in Selected(recent, start, stop, k)
    ensures FilingAt(recent, i) in Selected(recent, start, stop, i + 1)
  {
    if k > i + 1 {
      SelectedComplete(recent, start, stop, k - 1, i);
    }
  }

  /** The number of kept filings is the number of rows that pass. */
  lemma {:induction false} SelectedCount(recent: Recent, start: string, stop: string, k: nat)
    requires k <= |Forms(recent)|
    ensures |Selected(recent, start, stop, k)| == |set i | 0 <= i < k && Wanted(recent, start, stop, i)|
  {
    if k > 0 {
      SelectedCount(recent, start, stop, k - 1);
      var before := set i | 0 <= i < k - 1 && Wanted(recent, start, stop, i);
      var now := set i | 0 <= i < k && Wanted(recent, start, stop, i);
      if Wanted(recent, start, stop, k - 1) {
        assert now == before + {k - 1};
      } else {
        assert now == before;
      }
    }
  }
}
