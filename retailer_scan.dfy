/** The line-pair scan that reads the retailer register: each page of the PDF
    is a list of text lines, and a brand line followed by a base-URI line
    makes one record. `extract_pdf_data` in get_providers.py and in
    archive/retailer_uri_register.py run the same scan; they differ only in
    how the PDF is opened. */
module RetailerScan {
  import opened Text

  datatype Retailer = Retailer(brand: string, uri: string)

  /** The test a stripped line passes to be taken as a base URI. */
  predicate IsLiveUri(uri: string) {
    StartsWith(Lower(uri), "http") && !HasSubstring(Lower(uri), "placeholder")
  }

  /** A line examined as a brand line that ends the page's scan. */
  predicate IsChangeLog(line: string) {
    HasSubstring(line, "Change log")
  }

  /** The brand-line indices the scan of one page takes, from line `i` on. */
  function PairsFrom(lines: seq<string>, i: nat): (ks: seq<nat>)
    ensures forall j :: 0 <= j < |ks| ==> i <= ks[j] && ks[j] + 1 < |lines|
    ensures forall j :: 0 <= j < |ks| - 1 ==> ks[j] + 2 <= ks[j + 1]
    decreases |lines| - i
  {
    if i + 1 >= |lines| || IsChangeLog(lines[i]) then []
    else if IsLiveUri(Strip(lines[i + 1])) then [i] + PairsFrom(lines, i + 2)
    else PairsFrom(lines, i + 1)
  }

  /** A brand line the scan takes is not a "Change log" line, and the line
      after it, stripped, passes the base-URI test. */
  lemma {:induction false} PairsFromTaken(lines: seq<string>, i: nat)
    ensures forall k :: k in PairsFrom(lines, i) ==>
      k + 1 < |lines| && !IsChangeLog(lines[k]) && IsLiveUri(Strip(lines[k + 1]))
    decreases |lines| - i
  {
    if i + 1 >= |lines| || IsChangeLog(lines[i]) {
    } else if IsLiveUri(Strip(lines[i + 1])) {
      assert PairsFrom(lines, i) == [i] + PairsFrom(lines, i + 2);
      PairsFromTaken(lines, i + 2);
    } else {
      assert PairsFrom(lines, i) == PairsFrom(lines, i + 1);
      PairsFromTaken(lines, i + 1);
    }
  }

  function RecordAt(lines: seq<string>, k: nat): Retailer
    requires k + 1 < |lines|
  {
    Retailer(Strip(lines[k]), Strip(lines[k + 1]))
  }

  /** The records made from the brand lines at indices `ks`, in that order. */
  function Records(lines: seq<string>, ks: seq<nat>): (rs: seq<Retailer>)
    requires forall j :: 0 <= j < |ks| ==> ks[j] + 1 < |lines|
    ensures |rs| == |ks|
  {
    if ks == [] then [] else [RecordAt(lines, ks[0])] + Records(lines, ks[1..])
  }

  lemma {:induction false} RecordsAt(lines: seq<string>, ks: seq<nat>)
    requires forall j :: 0 <= j < |ks| ==> ks[j] + 1 < |lines|
    ensures forall j :: 0 <= j < |ks| ==> Records(lines, ks)[j] == RecordAt(lines, ks[j])
  {
    if ks != [] {
      RecordsAt(lines, ks[1..]);
    }
  }

  lemma RecordsCons(lines: seq<string>, k: nat, ks: seq<nat>)
    requires k + 1 < |lines| && forall j :: 0 <= j < |ks| ==> ks[j] + 1 < |lines|
    ensures Records(lines, [k] + ks) == [RecordAt(lines, k)] + Records(lines, ks)
  {
    assert ([k] + ks)[1..] == ks;
  }

  /** What the scan emits for one page. */
  function ScanPage(lines: seq<string>): seq<Retailer> {
    Records(lines, PairsFrom(lines, 0))
  }

  /** What the scan emits for a document: page after page. */
  function ScanPages(pages: seq<seq<string>>): seq<Retailer> {
    if pages == [] then [] else ScanPages(pages[..|pages| - 1]) + ScanPage(pages[|pages| - 1])
  }

  /** One step of the scan of a page, at line `i`. */
  lemma ScanStep(lines: seq<string>, i: nat)
    requires i + 1 < |lines|
    ensures IsChangeLog(lines[i]) ==> Records(lines, PairsFrom(lines, i)) == []
    ensures !IsChangeLog(lines[i]) && IsLiveUri(Strip(lines[i + 1])) ==>
      Records(lines, PairsFrom(lines, i)) == [RecordAt(lines, i)] + Records(lines, PairsFrom(lines, i + 2))
    ensures !IsChangeLog(lines[i]) && !IsLiveUri(Strip(lines[i + 1])) ==>
      PairsFrom(lines, i) == PairsFrom(lines, i + 1)
  {
    if !IsChangeLog(lines[i]) && IsLiveUri(Strip(lines[i + 1])) {
      RecordsCons(lines, i, PairsFrom(lines, i + 2));
    }
  }

  /** The scan of one page's lines: a pair of lines makes a record when the
      second, stripped, passes the base-URI test, and a "Change log" brand line
      stops the page. */
  method ScanLines(lines: seq<string>) returns (found: seq<Retailer>)
    ensures found == ScanPage(lines)
  {
    found := [];
    var i: nat := 0;
    while i < |lines| - 1
      invariant found + Records(lines, PairsFrom(lines, i)) == ScanPage(lines)
      decreases |lines| - i
    {
      ScanStep(lines, i);
      if IsChangeLog(lines[i]) {
        break;
      }
      var brand, uri := Strip(lines[i]), Strip(lines[i + 1]);
      if IsLiveUri(uri) {
        found := found + [Retailer(brand, uri)];
        i := i + 2;
      } else {
        i := i + 1;
      }
    }
  }

  /** `extract_pdf_data`, on the pages' lines. */
  method ExtractPdfData(pages: seq<seq<string>>) returns (retailers: seq<Retailer>)
    ensures retailers == ScanPages(pages)
  {
    retailers := [];
    for p := 0 to |pages|
      invariant retailers == ScanPages(pages[..p])
    {
      var found := ScanLines(pages[p]);
      retailers := retailers + found;
      assert pages[..p + 1][..p] == pages[..p];
    }
    assert pages[..|pages|] == pages;
  }

  /** `r` is the stripped pair of a brand line the scan of some page took and
      the line after it. */
  predicate FromTakenPair(pages: seq<seq<string>>, r: Retailer) {
    exists p, k :: 0 <= p < |pages| && k + 1 < |pages[p]| && k in PairsFrom(pages[p], 0) && r == RecordAt(pages[p], k)
  }

  /** Every record's URI passes the base-URI test, and every record is the
      stripped pair of a brand line the scan took and the line after it. */
  lemma {:induction false} ScannedRecordsAreLive(pages: seq<seq<string>>)
    ensures forall r :: r in ScanPages(pages) ==> IsLiveUri(r.uri) && FromTakenPair(pages, r)
  {
    if pages != [] {
      var init, last := pages[..|pages| - 1], pages[|pages| - 1];
      ScannedRecordsAreLive(init);
      forall r | r in ScanPages(pages)
        ensures IsLiveUri(r.uri) && FromTakenPair(pages, r)
      {
        if r in ScanPages(init) {
          var p, k :| 0 <= p < |init| && k + 1 < |init[p]| && k in PairsFrom(init[p], 0) && r == RecordAt(init[p], k);
          assert pages[p] == init[p];
        } else {
          var ks := PairsFrom(last, 0);
          PairsFromTaken(last, 0);
          RecordsAt(last, ks);
          var j :| 0 <= j < |ks| && ScanPage(last)[j] == r;
          assert ks[j] in ks;
          assert r == RecordAt(last, ks[j]);
          assert pages[|pages| - 1] == last;
        }
      }
    }
  }

  /** A "Change log" line that the scan examines as a brand line ends the
      page: no record comes from it or from a later line. The only way past
      such a line is to be consumed as a URI, after the brand line before it. */
  lemma {:induction false} ChangeLogEndsPage(lines: seq<string>, i: nat, m: nat)
    requires i <= m < |lines| && IsChangeLog(lines[m])
    requires m == i || (m - 1) !in PairsFrom(lines, i)
    ensures forall k :: k in PairsFrom(lines, i) ==> k < m
    decreases |lines| - i
  {
    if i + 1 >= |lines| || IsChangeLog(lines[i]) {
    } else if IsLiveUri(Strip(lines[i + 1])) {
      if m >= i + 2 {
        ChangeLogEndsPage(lines, i + 2, m);
      }
    } else {
      ChangeLogEndsPage(lines, i + 1, m);
    }
  }

  /** Before any "Change log" line, the scan misses no pair: a brand line
      followed by a live URI is taken unless the line before it was taken
      as a brand line (its own line then served as that record's URI). */
  lemma {:induction false} ScanTakesEveryFreePair(lines: seq<string>, i: nat, j: nat)
    requires i <= j && j + 1 < |lines|
    requires forall m :: i <= m <= j ==> !IsChangeLog(lines[m])
    requires IsLiveUri(Strip(lines[j + 1]))
    requires j == i || (j - 1) !in PairsFrom(lines, i)
    ensures j in PairsFrom(lines, i)
    decreases |lines| - i
  {
    if j > i {
      if IsLiveUri(Strip(lines[i + 1])) {
        assert PairsFrom(lines, i) == [i] + PairsFrom(lines, i + 2);
        if j > i + 1 {
          ScanTakesEveryFreePair(lines, i + 2, j);
        } else {
          assert false;
        }
      } else {
        ScanTakesEveryFreePair(lines, i + 1, j);
      }
    }
  }
}
