/** archive/electricity_plan_detail.py: the earlier revision of the detail
    command. Its refresh check is `check_refresh_plan` with a period of one
    day, and it searches the brand directories under `brands/` for the plan
    id before fetching. */
module ArchivePlanDetail {
  import opened Wrappers
  import opened Json
  import opened Store
  import opened Timestamp
  import opened Utilities
  import opened BrandLookup
  import opened PlanDetail
  import ElectricityPlanDetail

  /** `REFRESH_DAYS` of archive/electricity_plan_detail.py. */
  const ArchiveRefreshDays: int := 1

  /** Under the one-day period, a stamped detail is due exactly when it is
      more than 86400 seconds old. */
  lemma ArchiveRefreshIsOneDay(t: Tree, filename: string, now: int)
    requires filename in t && StampIn(t, filename).StampedAt?
    ensures CheckRefreshPlan(t, filename, now, ArchiveRefreshDays).1 <==> now - StampIn(t, filename).t > 86400
  {
  }

  /** The `main` of archive/electricity_plan_detail.py for `planId`, with
      the entries of `brands/` in `listing` order, the provider URL map
      `urls`, what the plan endpoint returns and the clock. It makes
      `brands/` first; exit status 1 when the search raises or finds no
      brand and when the brand has no URL; when `listing` is what
      `os.listdir('brands/')` returns, a plan id that no entry of `brands/`
      has ends with status 1. Otherwise it makes the found
      brand's directory; a detail that is due is saved, with status 0
      exactly when saving succeeds, and one that is not due is left alone
      with status 0. */
  method ArchiveDetailCommand(fs: FileSystem, listing: seq<string>, planId: string,
                              urls: map<string, string>, fetched: Json, now: int)
    returns (code: int)
    requires InRange(now)
    modifies fs
    ensures var brand := ElectricityPlanDetail.BrandWithUrl(
        FindBrand(WithDir(old(fs.nodes), "brands/"), "brands/", listing, planId), urls);
      && (brand.None? ==> code == 1 && fs.nodes == WithDir(old(fs.nodes), "brands/"))
      && (brand.Some? && code == 0 ==>
            !CheckRefreshPlan(fs.nodes, DetailPath(brand.value, planId), now, ArchiveRefreshDays).1)
    ensures var tb := WithDir(old(fs.nodes), "brands/");
      var brand := ElectricityPlanDetail.BrandWithUrl(FindBrand(tb, "brands/", listing, planId), urls);
      brand.Some? ==>
        var t0 := WithDir(tb, BrandDirectory(brand.value));
        && (CheckRefreshPlan(t0, DetailPath(brand.value, planId), now, ArchiveRefreshDays).1 ==>
              var saved := SavedDetails(t0, brand.value, planId, fetched, now);
              fs.nodes == saved.0 && (code == 0 <==> saved.1))
        && (!CheckRefreshPlan(t0, DetailPath(brand.value, planId), now, ArchiveRefreshDays).1 ==>
              fs.nodes == t0 && code == 0)
    ensures var tb := WithDir(old(fs.nodes), "brands/");
      (ListsDir(tb, "brands/", listing) && IsDir(tb, "brands/")
        && forall name :: InDir(tb, "brands/", name) ==> Misses(tb, "brands/", name, planId)) ==>
      code == 1 && fs.nodes == tb
    ensures var tb := WithDir(old(fs.nodes), "brands/");
      var brand := ElectricityPlanDetail.BrandWithUrl(FindBrand(tb, "brands/", listing, planId), urls);
      ListsDir(tb, "brands/", listing) && brand.Some? ==>
        exists name :: InDir(tb, "brands/", name)
          && Probe(tb, Join("brands/", name), planId) == Ok(Some(JStr(brand.value)))
    ensures code == 0 || code == 1
  {
    var root := EnsureBrandDirectory(fs, "");
    assert |BrandSegment("")| == 0;
    assert root == "brands/";
    assert fs.nodes == WithDir(old(fs.nodes), "brands/");
    if ListsDir(fs.nodes, "brands/", listing) {
      FindBrandOverDirectory(fs.nodes, "brands/", listing, planId);
    }
    var found := FindBrandIn(fs.nodes, root, listing, planId);
    var brand := ElectricityPlanDetail.BrandWithUrl(found, urls);
    assert brand == ElectricityPlanDetail.BrandWithUrl(
        FindBrand(WithDir(old(fs.nodes), "brands/"), "brands/", listing, planId), urls);
    if brand.None? {
      return 1;
    }
    var directory := EnsureBrandDirectory(fs, brand.value);
    var filename := directory + "/" + planId + ".json";
    var (_, refresh) := CheckRefreshPlan(fs.nodes, filename, now, ArchiveRefreshDays);
    if refresh {
      ghost var before := fs.nodes;
      var ok := PlanDetail.SavePlanDetails(fs, brand.value, planId, fetched, now);
      if ok {
        SavedIsFresh(before, brand.value, planId, fetched, now, now, ArchiveRefreshDays);
      }
      code := if ok then 0 else 1;
    } else {
      code := 0;
    }
  }
}
