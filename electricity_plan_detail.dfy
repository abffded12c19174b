/** electricity_plan_detail.py: find the brand of a plan id among the
    catalogs under `plans`, then fetch its details and save them, unstamped,
    in the brand's directory. */
module ElectricityPlanDetail {
  import opened Wrappers
  import opened Json
  import opened Store
  import opened Utilities
  import opened BrandLookup
  import PlanDetail

  /** The brand name a search result gives and its base URI, when the
      search found a non-empty string brand (`if not brand` stops at an
      empty one) whose URI in `urls` is non-empty. A brand that is not a
      string is never a key of `urls` (or is unhashable), so the command
      stops there too. */
  function BrandWithUrl(found: Result<Json>, urls: map<string, string>): (r: Option<string>)
    ensures r.Some? <==>
      found.Ok? && found.value.JStr? && found.value.s != [] && found.value.s in urls && urls[found.value.s] != []
    ensures r.Some? ==> r.value == found.value.s && Truthy(found.value)
  {
    if found.Ok? && found.value.JStr? && found.value.s != [] && found.value.s in urls && urls[found.value.s] != [] then
      Some(found.value.s)
    else None
  }

  /** The tree after `save_plan_details(brand, planId, details)` at clock
      `now`, and whether it returned: the details are written as fetched. */
  function RawSaved(t: Tree, brand: string, planId: string, details: Json, now: int): (r: (Tree, bool))
    ensures r.1 <==> !IsDir(WithDir(t, BrandDirectory(brand)), PlanDetail.DetailPath(brand, planId))
    ensures r.1 ==> (PlanDetail.DetailPath(brand, planId) in r.0
      && r.0[PlanDetail.DetailPath(brand, planId)] == File(Parsed(details), now))
  {
    Written(WithDir(t, BrandDirectory(brand)), PlanDetail.DetailPath(brand, planId), details, now)
  }

  /** Saving the same details a second time leaves what a single save at
      the second clock leaves. */
  lemma RawSaveTwice(t: Tree, brand: string, planId: string, details: Json, first: int, second: int)
    requires RawSaved(t, brand, planId, details, first).1
    ensures RawSaved(RawSaved(t, brand, planId, details, first).0, brand, planId, details, second)
      == RawSaved(t, brand, planId, details, second)
  {
    var d := BrandDirectory(brand);
    var made := WithDir(t, d);
    var once := RawSaved(t, brand, planId, details, first).0;
    assert d in made;
    assert WithDir(once, d) == once;
    assert once[PlanDetail.DetailPath(brand, planId) := File(Parsed(details), second)]
      == made[PlanDetail.DetailPath(brand, planId) := File(Parsed(details), second)];
  }

  /** `save_plan_details` of electricity_plan_detail.py. */
  method SavePlanDetails(fs: FileSystem, brand: string, planId: string, details: Json, now: int)
    returns (ok: bool)
    modifies fs
    ensures (fs.nodes, ok) == RawSaved(old(fs.nodes), brand, planId, details, now)
  {
    var directory := EnsureBrandDirectory(fs, brand);
    var filename := directory + "/" + planId + ".json";
    ok := fs.Write(filename, details, now);
  }

  /** The `main` of electricity_plan_detail.py for `planId`, with the entries
      of `plans` in `listing` order, the provider URL map `urls`, what the
      plan endpoint returns and the clock. Exit status 1 when the search
      raises or finds no brand, when the brand has no URL, and when saving
      raises; the details are saved twice. When `listing` is what
      `os.listdir('plans')` returns, a plan id that no entry of `plans` has
      ends with status 1, and a brand used is one an entry of `plans` gave. */
  method ElectricityDetailCommand(fs: FileSystem, listing: seq<string>, planId: string,
                                  urls: map<string, string>, fetched: Json, now: int)
    returns (code: int)
    modifies fs
    ensures var brand := BrandWithUrl(FindBrand(old(fs.nodes), "plans", listing, planId), urls);
      && (brand.None? ==> code == 1 && fs.nodes == old(fs.nodes))
      && (brand.Some? ==> (fs.nodes, code == 0) == RawSaved(old(fs.nodes), brand.value, planId, fetched, now))
    ensures (ListsDir(old(fs.nodes), "plans", listing) && IsDir(old(fs.nodes), "plans")
      && forall name :: InDir(old(fs.nodes), "plans", name) ==> Misses(old(fs.nodes), "plans", name, planId)) ==>
      code == 1 && fs.nodes == old(fs.nodes)
    ensures var brand := BrandWithUrl(FindBrand(old(fs.nodes), "plans", listing, planId), urls);
      ListsDir(old(fs.nodes), "plans", listing) && brand.Some? ==>
        exists name :: InDir(old(fs.nodes), "plans", name)
          && Probe(old(fs.nodes), Join("plans", name), planId) == Ok(Some(JStr(brand.value)))
    ensures code == 0 || code == 1
  {
    if ListsDir(fs.nodes, "plans", listing) {
      FindBrandOverDirectory(fs.nodes, "plans", listing, planId);
    }
    var found := FindBrandIn(fs.nodes, "plans", listing, planId);
    var brand := BrandWithUrl(found, urls);
    if brand.None? {
      return 1;
    }
    ghost var before := fs.nodes;
    var ok := SavePlanDetails(fs, brand.value, planId, fetched, now);
    if !ok {
      return 1;
    }
    ok := SavePlanDetails(fs, brand.value, planId, fetched, now);
    RawSaveTwice(before, brand.value, planId, fetched, now, now);
    code := if ok then 0 else 1;
  }
}
