/** The helpers of utilities.py: the directory a brand's artifacts live in,
    the file-age test on modification times, and the brand-to-URI map built
    from the retailer register. */
module Utilities {
  import opened Text
  import opened Json
  import opened Store
  import opened RetailerScan

  /** The segment a brand name becomes in a path: every space turned into
      `_`, then lower-cased. */
  function BrandSegment(name: string): (seg: string)
    ensures |seg| == |name|
  {
    Lower(ReplaceChar(name, ' ', '_'))
  }

  /** The directory of a brand, under `brands`. */
  function BrandDirectory(name: string): (d: string)
    ensures |d| == |name| + 7
  {
    "brands/" + BrandSegment(name)
  }

  /** What each character of a name becomes in its segment. */
  function SegmentChar(c: char): char {
    if c == ' ' then '_' else LowerChar(c)
  }

  /** The directory is `brands/` followed by the name, character by character,
      with a space turned into `_` and an upper-case letter into its lower case. */
  lemma BrandDirectoryShape(name: string)
    ensures BrandDirectory(name)[..7] == "brands/"
    ensures forall i :: 0 <= i < |name| ==> BrandDirectory(name)[7 + i] == SegmentChar(name[i])
  {
    var r := ReplaceChar(name, ' ', '_');
    ReplaceCharAt(name, ' ', '_');
    LowerAt(r);
    assert forall i :: 0 <= i < |name| ==> BrandSegment(name)[i] == SegmentChar(name[i]);
  }

  /** A segment holds no space and no upper-case letter. */
  lemma SegmentIsClean(name: string)
    ensures forall i :: 0 <= i < |BrandSegment(name)| ==>
      BrandSegment(name)[i] != ' ' && !IsUpper(BrandSegment(name)[i])
  {
    ReplaceCharAt(name, ' ', '_');
    LowerAt(ReplaceChar(name, ' ', '_'));
  }

  /** A name is its own segment exactly when it has no space and no
      upper-case letter. */
  lemma SegmentFixedPoint(s: string)
    ensures BrandSegment(s) == s <==> forall i :: 0 <= i < |s| ==> s[i] != ' ' && !IsUpper(s[i])
  {
    ReplaceCharAt(s, ' ', '_');
    LowerAt(ReplaceChar(s, ' ', '_'));
    if BrandSegment(s) == s {
      SegmentIsClean(s);
    } else {
      var i :| 0 <= i < |s| && BrandSegment(s)[i] != s[i];
      assert s[i] == ' ' || IsUpper(s[i]);
    }
  }

  /** Normalising a segment again leaves it unchanged. */
  lemma SegmentIdempotent(name: string)
    ensures BrandSegment(BrandSegment(name)) == BrandSegment(name)
  {
    SegmentIsClean(name);
    SegmentFixedPoint(BrandSegment(name));
  }

  /** Two brands can share a directory: the normalisation is not injective. */
  lemma SegmentCollides()
    ensures "A B" != "a_b" && BrandDirectory("A B") == BrandDirectory("a_b")
  {
    assert BrandSegment("A B") == "a_b" by {
      BrandDirectoryShape("A B");
    }
    assert BrandSegment("a_b") == "a_b" by {
      SegmentFixedPoint("a_b");
    }
  }

  /** Replacing spaces in a brand directory once more changes nothing. */
  lemma DirectoryHasNoSpace(name: string)
    ensures ReplaceChar(BrandDirectory(name), ' ', '_') == BrandDirectory(name)
  {
    var d := BrandDirectory(name);
    SegmentIsClean(name);
    ReplaceCharAt(d, ' ', '_');
    assert forall i :: 0 <= i < |d| ==> d[i] != ' ' by {
      forall i | 0 <= i < |d|
        ensures d[i] != ' '
      {
        if i >= 7 {
          assert d[i] == BrandSegment(name)[i - 7];
        }
      }
    }
  }

  /** `ensure_brand_directory`: the brand's directory, created when absent. */
  method EnsureBrandDirectory(fs: FileSystem, name: string) returns (d: string)
    modifies fs
    ensures d == BrandDirectory(name)
    ensures fs.nodes == WithDir(old(fs.nodes), d)
  {
    d := "brands/" + BrandSegment(name);
    fs.EnsureDir(d);
  }

  /** `is_file_older_than` at clock `now`: a path that is not a file counts
      as older; a file is older when its age is strictly above `seconds`. */
  predicate IsFileOlderThan(t: Tree, path: string, seconds: int, now: int) {
    !IsFile(t, path) || now - t[path].mtime > seconds
  }

  /** A file whose age is exactly `seconds` is not older; one second more is. */
  lemma OlderThanIsStrict(t: Tree, path: string, seconds: int, now: int)
    requires IsFile(t, path) && now - t[path].mtime == seconds
    ensures !IsFileOlderThan(t, path, seconds, now)
    ensures IsFileOlderThan(t, path, seconds, now + 1)
  {
  }

  /** Once older, a file stays older as the clock advances. */
  lemma OlderThanMonotone(t: Tree, path: string, seconds: int, now: int, later: int)
    requires now <= later && IsFileOlderThan(t, path, seconds, now)
    ensures IsFileOlderThan(t, path, seconds, later)
  {
  }

  /** A file just written is not older than any non-negative age. */
  lemma WrittenIsNotOlder(t: Tree, path: string, v: Json, now: int, seconds: int)
    requires seconds >= 0 && Written(t, path, v, now).1
    ensures !IsFileOlderThan(Written(t, path, v, now).0, path, seconds, now)
  {
  }

  /** `records[i]` is the last record of brand `b`. */
  predicate LastRecordOf(records: seq<Retailer>, b: string, i: int) {
    0 <= i < |records| && records[i].brand == b
    && forall j :: i < j < |records| ==> records[j].brand != b
  }

  /** `load_provider_urls`: brand to URI, a later record of a brand
      replacing an earlier one. */
  function ProviderUrls(records: seq<Retailer>): (urls: map<string, string>)
    ensures urls.Keys == set r | r in records :: r.brand
    ensures forall b :: b in urls ==> exists i :: LastRecordOf(records, b, i) && urls[b] == records[i].uri
  {
    if records == [] then map[]
    else
      var n := |records| - 1;
      var init, last := records[..n], records[n];
      var urls := ProviderUrls(init)[last.brand := last.uri];
      assert forall r :: r in records <==> r in init || r == last;
      assert LastRecordOf(records, last.brand, n);
      assert forall b, i :: b != last.brand && LastRecordOf(init, b, i) ==> LastRecordOf(records, b, i);
      urls
  }

  /** The order in which `provider_urls.items()` yields the brands: a dict
      keeps the position of a key's first insertion when a later record
      replaces its value. */
  function BrandOrder(records: seq<Retailer>): (brands: seq<string>)
    ensures forall b :: b in brands <==> b in ProviderUrls(records)
    ensures forall i, j :: 0 <= i < j < |brands| ==> brands[i] != brands[j]
  {
    if records == [] then []
    else
      var n := |records| - 1;
      var earlier := BrandOrder(records[..n]);
      assert forall r :: r in records <==> r in records[..n] || r == records[n];
      if records[n].brand in earlier then earlier else earlier + [records[n].brand]
  }

  /** Later records never move a brand already placed: the order the
      first `n` records give is a prefix of the order all of them give. */
  lemma {:induction false} BrandOrderKeepsPlace(records: seq<Retailer>, n: nat)
    requires n <= |records|
    ensures BrandOrder(records[..n]) <= BrandOrder(records)
    decreases |records| - n
  {
    if n < |records| {
      var m := |records| - 1;
      BrandOrderKeepsPlace(records[..m], n);
      assert records[..m][..n] == records[..n];
      var earlier := BrandOrder(records[..m]);
      assert BrandOrder(records) == earlier || BrandOrder(records) == earlier + [records[m].brand];
    } else {
      assert records[..n] == records;
    }
  }
}
