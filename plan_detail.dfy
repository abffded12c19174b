/** The plan-detail artifacts of get_plan_detail.py: a detail file
    `brands/<brand>/<planId>.json` carries `meta.lastDownloaded`, the instant
    it was saved, and is refreshed once that stamp is more than the refresh
    period old. archive/electricity_plan_detail.py holds the same functions
    with a period of one day. */
module PlanDetail {
  import opened Wrappers
  import opened Json
  import opened Store
  import opened Timestamp
  import opened Utilities

  /** `REFRESH_DAYS` of config.py. */
  const RefreshDays: int := 7

  /** What `meta.lastDownloaded` of a detail document yields.
      Unstamped: the value is absent or falsy, so no time is compared.
      Unreadable: reading it raises (a document or `meta` that is not a
      dict, a stamp that is not a string or not in the layout).
      StampedAt: the stamp, read as an instant. */
  datatype Stamp = Unstamped | Unreadable | StampedAt(t: int)

  /** `plan_data.get('meta', {}).get('lastDownloaded')`, the truth test on
      it and `strptime`. */
  function ReadStamp(plan: Json): (s: Stamp)
    ensures s.StampedAt? ==> plan.JObj? && "meta" in plan.fields
  {
    match Get(plan, "meta", JObj(map[]))
    case None => Unreadable
    case Some(meta) =>
      match Field(meta, "lastDownloaded")
      case None => Unreadable
      case Some(v) =>
        if !Truthy(v) then Unstamped
        else if !v.JStr? then Unreadable
        else
          match Parse(v.s)
          case None => Unreadable
          case Some(t) => StampedAt(t)
  }

  /** The stamp of the file at `filename`; Unreadable when opening or
      parsing it raises. */
  function StampIn(t: Tree, filename: string): Stamp
    requires filename in t
  {
    match t[filename]
    case Directory => Unreadable
    case File(Unparsable, _) => Unreadable
    case File(Parsed(plan), _) => ReadStamp(plan)
  }

  /** A stamp more than `days` days before `now`. */
  predicate Expired(s: Stamp, now: int, days: int) {
    s.StampedAt? && now - s.t > days * SecondsPerDay
  }

  /** `check_refresh_plan` at clock `now` with a refresh period of `days`:
      the file name, and whether the detail is to be downloaded. Every
      exception is caught and leaves the verdict False. */
  function CheckRefreshPlan(t: Tree, filename: string, now: int, days: int): (r: (string, bool))
    ensures r.0 == filename
    ensures filename !in t ==> r.1
    ensures filename in t ==> (r.1 <==> Expired(StampIn(t, filename), now, days))
  {
    if filename !in t then (filename, true)
    else
      var refresh :=
        match StampIn(t, filename)
        case StampedAt(last) => now - last > days * SecondsPerDay
        case _ => false;
      (filename, refresh)
  }

  /** A detail file that exists without a stamp is never refreshed, and
      neither is one whose check raises. */
  lemma UnstampedIsKept(t: Tree, filename: string, now: int, days: int)
    requires filename in t && !StampIn(t, filename).StampedAt?
    ensures !CheckRefreshPlan(t, filename, now, days).1
  {
  }

  /** Under the seven-day `REFRESH_DAYS`, a stamped detail is due exactly
      when it is more than 604800 seconds old. */
  lemma RefreshIsSevenDays(t: Tree, filename: string, now: int)
    requires filename in t && StampIn(t, filename).StampedAt?
    ensures CheckRefreshPlan(t, filename, now, RefreshDays).1 <==> now - StampIn(t, filename).t > 604800
  {
  }

  /** Once a detail is due, it stays due as the clock advances. */
  lemma RefreshMonotone(t: Tree, filename: string, now: int, later: int, days: int)
    requires now <= later && CheckRefreshPlan(t, filename, now, days).1
    ensures CheckRefreshPlan(t, filename, later, days).1
  {
  }

  /** `check_plan_exists`: whether `filename` is a file, and whether it is
      due. Unlike `check_refresh_plan` it lets exceptions through. */
  function CheckPlanExists(t: Tree, filename: string, now: int, days: int): (r: Result<(bool, bool)>)
    ensures r.Ok? ==> (r.value.0 <==> IsFile(t, filename))
    ensures r.Ok? && r.value.1 ==> r.value.0
    ensures r.Ok? && r.value.0 ==> (r.value.1 <==> Expired(StampIn(t, filename), now, days))
    ensures r.Err? <==> IsFile(t, filename) && StampIn(t, filename) == Unreadable
    ensures r.Err? ==> r.failure == Raised
  {
    if !IsFile(t, filename) then Ok((false, false))
    else
      match t[filename].doc
      case Unparsable => Err(Raised)
      case Parsed(plan) =>
        match ReadStamp(plan)
        case Unstamped => Ok((true, false))
        case Unreadable => Err(Raised)
        case StampedAt(last) => Ok((true, now - last > days * SecondsPerDay))
  }

  /** The two checks agree on every existing file they both read: a file is
      due by `check_plan_exists` exactly when `check_refresh_plan` would
      download it, a check that raises in one is not a download in the
      other, and only a missing file tells them apart. */
  lemma CheckPlanExistsAgrees(t: Tree, filename: string, now: int, days: int)
    ensures CheckPlanExists(t, filename, now, days).Ok? && CheckPlanExists(t, filename, now, days).value.0 ==>
      CheckPlanExists(t, filename, now, days).value.1 == CheckRefreshPlan(t, filename, now, days).1
    ensures CheckPlanExists(t, filename, now, days).Err? ==>
      IsFile(t, filename) && !CheckRefreshPlan(t, filename, now, days).1
    ensures filename !in t ==>
      CheckPlanExists(t, filename, now, days) == Ok((false, false)) && CheckRefreshPlan(t, filename, now, days).1
    ensures IsDir(t, filename) ==>
      CheckPlanExists(t, filename, now, days) == Ok((false, false)) && !CheckRefreshPlan(t, filename, now, days).1
  {
    if IsFile(t, filename) && t[filename].doc.Parsed? {
      assert StampIn(t, filename) == ReadStamp(t[filename].doc.value);
    }
  }

  /** `should_refresh_plans`: each file name mapped to the verdict of
      `check_refresh_plan` on it. */
  function ShouldRefreshPlans(t: Tree, filenames: seq<string>, now: int, days: int): (m: map<string, bool>)
    ensures m.Keys == set f | f in filenames
    ensures forall f :: f in m ==> m[f] == CheckRefreshPlan(t, f, now, days).1
  {
    if filenames == [] then map[]
    else
      var n := |filenames| - 1;
      var (name, refresh) := CheckRefreshPlan(t, filenames[n], now, days);
      assert forall f :: f in filenames <==> f in filenames[..n] || f == filenames[n];
      ShouldRefreshPlans(t, filenames[..n], now, days)[name := refresh]
  }

  /** The detail document with `meta` replaced by `{lastDownloaded: now}`;
      None where the assignment raises (the details are not a dict). */
  function Stamped(details: Json, now: int): (r: Option<Json>)
    requires InRange(now)
    ensures r.Some? <==> details.JObj?
    ensures r.Some? ==> r.value.JObj? && r.value.fields.Keys == details.fields.Keys + {"meta"}
    ensures r.Some? ==> forall k :: k in details.fields && k != "meta" ==> r.value.fields[k] == details.fields[k]
    ensures r.Some? ==> r.value.fields["meta"] == JObj(map["lastDownloaded" := JStr(Format(now))])
  {
    match details
    case JObj(f) => Some(JObj(f["meta" := JObj(map["lastDownloaded" := JStr(Format(now))])]))
    case _ => None
  }

  /** A stamped document reads back the instant it was stamped with. */
  lemma ReadStampOfStamped(details: Json, now: int)
    requires InRange(now) && details.JObj?
    ensures ReadStamp(Stamped(details, now).value) == StampedAt(now)
  {
    var stamp := Format(now);
    var meta := JObj(map["lastDownloaded" := JStr(stamp)]);
    assert Get(Stamped(details, now).value, "meta", JObj(map[])) == Some(meta);
    assert Field(meta, "lastDownloaded") == Some(JStr(stamp));
    assert Truthy(JStr(stamp)) by {
      assert |stamp| == 24;
    }
    ParseFormat(now);
  }

  /** Where the details of plan `planId` of brand `brand` are saved. */
  function DetailPath(brand: string, planId: string): string {
    BrandDirectory(brand) + "/" + planId + ".json"
  }

  /** The tree after `save_plan_details(brand, planId, details)` at clock
      `now`, and whether it returned: the brand directory is made first, so
      it stays made when stamping or writing raises. */
  function SavedDetails(t: Tree, brand: string, planId: string, details: Json, now: int): (Tree, bool)
    requires InRange(now)
  {
    var made := WithDir(t, BrandDirectory(brand));
    match Stamped(details, now)
    case None => (made, false)
    case Some(doc) => Written(made, DetailPath(brand, planId), doc, now)
  }

  /** `save_plan_details`. */
  method SavePlanDetails(fs: FileSystem, brand: string, planId: string, details: Json, now: int)
    returns (ok: bool)
    requires InRange(now)
    modifies fs
    ensures (fs.nodes, ok) == SavedDetails(old(fs.nodes), brand, planId, details, now)
  {
    var directory := EnsureBrandDirectory(fs, brand);
    var filename := directory + "/" + planId + ".json";
    var doc := Stamped(details, now);
    if doc.None? {
      return false;
    }
    ok := fs.Write(filename, doc.value, now);
  }

  /** A detail saved at `now` is due at a later clock exactly when more than
      `days` days have passed since `now`: in particular it is not due at
      `now` itself for any period of zero days or more. */
  lemma SavedIsFresh(t: Tree, brand: string, planId: string, details: Json, now: int, later: int, days: int)
    requires InRange(now) && SavedDetails(t, brand, planId, details, now).1
    ensures var saved := SavedDetails(t, brand, planId, details, now).0;
      && IsFile(saved, DetailPath(brand, planId))
      && (CheckRefreshPlan(saved, DetailPath(brand, planId), later, days).1 <==> later - now > days * SecondsPerDay)
      && CheckPlanExists(saved, DetailPath(brand, planId), later, days)
         == Ok((true, later - now > days * SecondsPerDay))
  {
    ReadStampOfStamped(details, now);
  }

  /** `download_and_save_plan_details`, given what the plan endpoint returned. */
  method DownloadAndSavePlanDetails(fs: FileSystem, brand: string, planId: string, fetched: Json, now: int)
    returns (ok: bool)
    requires InRange(now)
    modifies fs
    ensures (fs.nodes, ok) == SavedDetails(old(fs.nodes), brand, planId, fetched, now)
  {
    ok := SavePlanDetails(fs, brand, planId, fetched, now);
  }

  /** The command line of get_plan_detail.py for `planId` of `brand`, with
      the provider URL map `urls`, what the plan endpoint returns, and the
      clock, under the seven-day `REFRESH_DAYS`. The exit status is 1 for a
      missing brand or plan id and for a brand without a URL, with nothing
      changed. Otherwise the brand directory is made; a detail that is due
      is saved, with status 0 exactly when saving succeeds; one that is not
      due is left alone with status 0. */
  method PlanDetailCommand(fs: FileSystem, brand: string, planId: string, urls: map<string, string>,
                           fetched: Json, now: int)
    returns (code: int)
    requires InRange(now)
    modifies fs
    ensures brand == [] || planId == [] || brand !in urls || urls[brand] == [] ==>
      code == 1 && fs.nodes == old(fs.nodes)
    ensures brand != [] && planId != [] && brand in urls && urls[brand] != [] ==>
      var t0 := WithDir(old(fs.nodes), BrandDirectory(brand));
      && (CheckRefreshPlan(t0, DetailPath(brand, planId), now, RefreshDays).1 ==>
            var saved := SavedDetails(t0, brand, planId, fetched, now);
            fs.nodes == saved.0 && (code == 0 <==> saved.1))
      && (!CheckRefreshPlan(t0, DetailPath(brand, planId), now, RefreshDays).1 ==>
            fs.nodes == t0 && code == 0)
    ensures code == 0 || code == 1
    ensures code == 0 ==> !CheckRefreshPlan(fs.nodes, DetailPath(brand, planId), now, RefreshDays).1
  {
    if brand == [] {
      return 1;
    }
    if planId == [] {
      return 1;
    }
    if brand !in urls || urls[brand] == [] {
      return 1;
    }
    var directory := EnsureBrandDirectory(fs, brand);
    var filename := directory + "/" + planId + ".json";
    var (_, refresh) := CheckRefreshPlan(fs.nodes, filename, now, RefreshDays);
    if refresh {
      ghost var before := fs.nodes;
      var ok := SavePlanDetails(fs, brand, planId, fetched, now);
      if ok {
        SavedIsFresh(before, brand, planId, fetched, now, now, RefreshDays);
      }
      code := if ok then 0 else 1;
    } else {
      code := 0;
    }
  }
}
