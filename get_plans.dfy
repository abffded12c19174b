/** get_plans.py: every provider's plan catalog is fetched page by page from
    its base URI and saved as `brands/<segment>/plans.json`; a provider whose
    catalog is fresh is skipped, and the details of a saved catalog's plans
    that are due are fetched by launching get_plan_detail.py per plan.
    The paging loop, the catalog store and the outer loop over providers are
    shared with the older electricity_plans.py, which differs in the step it
    takes on each response and in where it saves. */
module GetPlans {
  import opened Wrappers
  import opened Json
  import opened Store
  import opened Text
  import opened Timestamp
  import opened Utilities
  import opened RetailerScan
  import PlanDetail

  /** A response of the plans endpoint: `response.ok` and the body. */
  datatype Response = Response(ok: bool, body: Doc)

  /** The query parameters of one request of the plans endpoint. */
  datatype Request = Request(effective: string, planType: string, page: int, pageSize: string, fuelType: string)

  /** The request for page `page`: current plans of every type and fuel. */
  function PlanRequest(page: int, pageSize: string): (q: Request)
    ensures q.page == page && q.pageSize == pageSize
    ensures q.effective == "CURRENT" && q.planType == "ALL" && q.fuelType == "ALL"
  {
    Request("CURRENT", "ALL", page, pageSize, "ALL")
  }

  /** What the paging loop does with one response.
      Append: extends the plans with `items`; `last` when the page number
      reached `totalPages`, which ends the loop.
      Halt: ends the loop and keeps the plans collected so far.
      Fail: raises. */
  datatype Step = Append(items: seq<Json>, last: bool) | Halt | Fail(failure: Failure)

  /** `data.get('data', {}).get('plans', [])`. */
  function PlansData(data: Json): (r: Result<Json>)
    ensures r.Err? <==> !data.JObj? || ("data" in data.fields && !data.fields["data"].JObj?)
    ensures r.Err? ==> r.failure == Raised
    ensures (r.Ok? && "data" in data.fields && "plans" in data.fields["data"].fields) ==>
      r.value == data.fields["data"].fields["plans"]
    ensures (r.Ok? && !("data" in data.fields && "plans" in data.fields["data"].fields)) ==>
      r.value == JArr([])
  {
    match Get(data, "data", JObj(map[]))
    case None => Err(Raised)
    case Some(d) =>
      match Get(d, "plans", JArr([]))
      case None => Err(Raised)
      case Some(p) => Ok(p)
  }

  /** The items `if plans_data: plans.extend(plans_data)` appends. */
  function Extension(plansData: Json): (r: Result<seq<Json>>)
    ensures plansData.JArr? ==> r == Ok(plansData.items)
    ensures !Truthy(plansData) ==> r == Ok([])
  {
    if !Truthy(plansData) then Ok([]) else Iterate(plansData)
  }

  /** The step of get_plans.py on the response to page `page`: a failed
      status, or a body without `meta.totalPages`, ends the loop with what
      was collected. */
  function PageStep(r: Response, page: int): Step {
    if !r.ok then Halt
    else
      match r.body
      case Unparsable => Fail(Raised)
      case Parsed(data) =>
        match Contains(data, "meta")
        case None => Fail(Raised)
        case Some(false) => Halt
        case Some(true) =>
          match Subscript(data, "meta")
          case None => Fail(Raised)
          case Some(meta) =>
            match Contains(meta, "totalPages")
            case None => Fail(Raised)
            case Some(false) => Halt
            case Some(true) =>
              match PlansData(data)
              case Err(f) => Fail(f)
              case Ok(plansData) =>
                match Extension(plansData)
                case Err(f) => Fail(f)
                case Ok(items) =>
                  match Subscript(meta, "totalPages")
                  case None => Fail(Raised)
                  case Some(total) =>
                    match AsInt(total)
                    case None => Fail(Raised)
                    case Some(n) => Append(items, page >= n)
  }

  /** A well-formed page of plans: status ok and a body with
      `meta.totalPages` and `data.plans`. */
  function CatalogPage(plans: seq<Json>, totalPages: int): Response {
    Response(true, Parsed(JObj(map[
      "data" := JObj(map["plans" := JArr(plans)]),
      "meta" := JObj(map["totalPages" := JNum(totalPages)])])))
  }

  /** On a well-formed page the step appends its plans, and it is the last
      page exactly when its number reaches `totalPages`. */
  lemma PageStepOfCatalogPage(plans: seq<Json>, totalPages: int, page: int)
    ensures PageStep(CatalogPage(plans, totalPages), page) == Append(plans, page >= totalPages)
  {
    var data := CatalogPage(plans, totalPages).body.value;
    assert Subscript(data, "meta") == Some(JObj(map["totalPages" := JNum(totalPages)]));
    assert PlansData(data) == Ok(JArr(plans));
  }

  /** The step ends the loop, keeping what was collected, on a failed
      status and on a dict body without `meta` or whose `meta` is a dict
      without `totalPages`. */
  lemma PageStepHalts(r: Response, page: int)
    ensures !r.ok ==> PageStep(r, page) == Halt
    ensures r.ok && r.body.Parsed? && r.body.value.JObj? && "meta" !in r.body.value.fields ==>
      PageStep(r, page) == Halt
    ensures (r.ok && r.body.Parsed? && r.body.value.JObj? && "meta" in r.body.value.fields
      && r.body.value.fields["meta"].JObj? && "totalPages" !in r.body.value.fields["meta"].fields) ==>
      PageStep(r, page) == Halt
  {
  }

  /** A dict body without `data.plans` contributes no plans: the step on it
      appends nothing, whether or not it is the last page. */
  lemma PageWithoutPlansAppendsNothing(r: Response, page: int)
    requires r.body.Parsed? && r.body.value.JObj?
    requires "data" !in r.body.value.fields
      || (r.body.value.fields["data"].JObj? && "plans" !in r.body.value.fields["data"].fields)
    ensures PageStep(r, page).Append? ==> PageStep(r, page).items == []
  {
    assert PlansData(r.body.value) == Ok(JArr([]));
  }

  /** `Ok(items + rest)` for a run that goes on to collect `rest`. */
  function Prepend(items: seq<Json>, r: Result<seq<Json>>): Result<seq<Json>> {
    match r
    case Ok(rest) => Ok(items + rest)
    case Err(f) => Err(f)
  }

  lemma PrependNothing(r: Result<seq<Json>>)
    ensures Prepend([], r) == r
  {
    if r.Ok? {
      assert [] + r.value == r.value;
    }
  }

  lemma PrependPrepend(a: seq<Json>, b: seq<Json>, r: Result<seq<Json>>)
    ensures Prepend(a, Prepend(b, r)) == Prepend(a + b, r)
  {
    if r.Ok? {
      assert a + (b + r.value) == (a + b) + r.value;
    }
  }

  /** The plans the paging loop returns from the request for page `page`
      on, where `responses[p - 1]` answers the request for page `p`.
      Err(OutsideModel) when the loop would send more requests than
      `responses` answers. */
  function FetchFrom(step: (Response, int) -> Step, responses: seq<Response>, page: nat): Result<seq<Json>>
    requires page >= 1
    decreases |responses| + 1 - page
  {
    if page > |responses| then Err(OutsideModel)
    else
      match step(responses[page - 1], page)
      case Halt => Ok([])
      case Fail(f) => Err(f)
      case Append(items, last) =>
        if last then Ok(items) else Prepend(items, FetchFrom(step, responses, page + 1))
  }

  /** The number of requests the paging loop sends from page `page` on,
      within those `responses` answers. */
  function RequestCount(step: (Response, int) -> Step, responses: seq<Response>, page: nat): nat
    requires page >= 1
    decreases |responses| + 1 - page
  {
    if page > |responses| then 0
    else
      match step(responses[page - 1], page)
      case Append(_, false) => 1 + RequestCount(step, responses, page + 1)
      case _ => 1
  }

  /** Page `p` is answered, appended to, and not the last. */
  predicate Continues(step: (Response, int) -> Step, responses: seq<Response>, p: int) {
    1 <= p <= |responses| && step(responses[p - 1], p).Append? && !step(responses[p - 1], p).last
  }

  /** The plans pages `1..n` append, in page order. */
  function Collected(step: (Response, int) -> Step, responses: seq<Response>, n: nat): seq<Json>
    requires forall p :: 1 <= p <= n ==> Continues(step, responses, p)
  {
    if n == 0 then []
    else
      assert Continues(step, responses, n);
      Collected(step, responses, n - 1) + step(responses[n - 1], n).items
  }

  /** When pages `1..n-1` all go on, the run returns their plans, in page
      order, followed by what it collects from page `n` on; and it sends
      those `n - 1` requests before the rest. */
  lemma {:induction false} FetchCollects(step: (Response, int) -> Step, responses: seq<Response>, n: nat)
    requires 1 <= n && forall p :: 1 <= p < n ==> Continues(step, responses, p)
    ensures FetchFrom(step, responses, 1) == Prepend(Collected(step, responses, n - 1), FetchFrom(step, responses, n))
    ensures RequestCount(step, responses, 1) == n - 1 + RequestCount(step, responses, n)
  {
    if n > 1 {
      FetchCollects(step, responses, n - 1);
      assert Continues(step, responses, n - 1);
      var s := step(responses[n - 2], n - 1);
      assert Collected(step, responses, n - 1) == Collected(step, responses, n - 2) + s.items;
      assert FetchFrom(step, responses, n - 1) == Prepend(s.items, FetchFrom(step, responses, n));
      PrependPrepend(Collected(step, responses, n - 2), s.items, FetchFrom(step, responses, n));
    } else {
      PrependNothing(FetchFrom(step, responses, 1));
    }
  }

  /** A run that ends on page `n` returns the plans of every page up to
      it, in page order, after exactly `n` requests: the plans of page `n`
      included when it is the last page, and the partial result when page
      `n` ends the loop early (for get_plans.py, a failed status or a body
      without `meta.totalPages`). */
  lemma FetchEndsAt(step: (Response, int) -> Step, responses: seq<Response>, n: nat)
    requires 1 <= n <= |responses| && forall p :: 1 <= p < n ==> Continues(step, responses, p)
    ensures step(responses[n - 1], n) == Halt ==>
      FetchFrom(step, responses, 1) == Ok(Collected(step, responses, n - 1))
    ensures step(responses[n - 1], n).Append? && step(responses[n - 1], n).last ==>
      FetchFrom(step, responses, 1) == Ok(Collected(step, responses, n - 1) + step(responses[n - 1], n).items)
    ensures step(responses[n - 1], n).Fail? ==>
      FetchFrom(step, responses, 1) == Err(step(responses[n - 1], n).failure)
    ensures !Continues(step, responses, n) ==> RequestCount(step, responses, 1) == n
  {
    FetchCollects(step, responses, n);
    if step(responses[n - 1], n) == Halt {
      assert Collected(step, responses, n - 1) + [] == Collected(step, responses, n - 1);
    }
  }

  /** A provider whose first page says there is at most one page is asked
      once, and its plans are that page's. */
  lemma SinglePageFetch(responses: seq<Response>, plans: seq<Json>, totalPages: int)
    requires |responses| >= 1 && responses[0] == CatalogPage(plans, totalPages) && totalPages <= 1
    ensures FetchFrom(PageStep, responses, 1) == Ok(plans)
    ensures RequestCount(PageStep, responses, 1) == 1
  {
    PageStepOfCatalogPage(plans, totalPages, 1);
  }

  /** The paging loop of both revisions of `fetch_plans`, with the step
      each takes on a response and the page size it asks for: the result,
      and the requests sent, for pages 1, 2, ... in order. */
  method FetchPages(step: (Response, int) -> Step, pageSize: string, responses: seq<Response>)
    returns (r: Result<seq<Json>>, sent: seq<Request>)
    ensures r == FetchFrom(step, responses, 1)
    ensures |sent| == RequestCount(step, responses, 1)
    ensures forall i :: 0 <= i < |sent| ==> sent[i] == PlanRequest(i + 1, pageSize)
  {
    var page: nat := 1;
    var plans: seq<Json> := [];
    sent := [];
    PrependNothing(FetchFrom(step, responses, 1));
    while page <= |responses|
      invariant 1 <= page <= |responses| + 1
      invariant |sent| == page - 1
      invariant forall i :: 0 <= i < |sent| ==> sent[i] == PlanRequest(i + 1, pageSize)
      invariant FetchFrom(step, responses, 1) == Prepend(plans, FetchFrom(step, responses, page))
      invariant RequestCount(step, responses, 1) == page - 1 + RequestCount(step, responses, page)
      decreases |responses| + 1 - page
    {
      sent := sent + [PlanRequest(page, pageSize)];
      match step(responses[page - 1], page)
      case Halt =>
        assert plans + [] == plans;
        return Ok(plans), sent;
      case Fail(f) =>
        return Err(f), sent;
      case Append(items, last) =>
        PrependPrepend(plans, items, FetchFrom(step, responses, page + 1));
        plans := plans + items;
        if last {
          return Ok(plans), sent;
        }
        page := page + 1;
    }
    r := Err(OutsideModel);
  }

  /** `fetch_plans` of get_plans.py: pages of a thousand plans. */
  method FetchPlans(responses: seq<Response>) returns (r: Result<seq<Json>>, sent: seq<Request>)
    ensures r == FetchFrom(PageStep, responses, 1)
    ensures |sent| == RequestCount(PageStep, responses, 1)
    ensures forall i :: 0 <= i < |sent| ==> sent[i] == PlanRequest(i + 1, "1000")
  {
    r, sent := FetchPages(PageStep, "1000", responses);
  }

  /** Where get_plans.py keeps a provider's catalog. */
  function CatalogPath(provider: string): string {
    BrandDirectory(provider) + "/plans.json"
  }

  /** Storing a fetched catalog at `filename`: a non-empty one is written,
      an empty one removes an existing file. The call raises exactly when
      `filename` is a directory, and no other path changes. */
  function PersistCatalog(t: Tree, filename: string, plans: seq<Json>, now: int): (r: (Tree, bool))
    ensures !r.1 <==> IsDir(t, filename)
    ensures !r.1 ==> r.0 == t
    ensures r.1 && plans != [] ==> IsFile(r.0, filename) && r.0[filename] == File(Parsed(JArr(plans)), now)
    ensures r.1 && plans == [] ==> filename !in r.0
    ensures forall p :: p != filename ==> (p in r.0 <==> p in t) && (p in t ==> r.0[p] == t[p])
  {
    if plans != [] then Written(t, filename, JArr(plans), now)
    else if filename in t then
      if IsFile(t, filename) then (t - {filename}, true) else (t, false)
    else (t, true)
  }

  /** The tree after `save_plans_to_file(provider, plans)`, and whether it
      returned: the provider's directory is made first. */
  function SavedPlans(t: Tree, provider: string, plans: seq<Json>, now: int): (Tree, bool) {
    PersistCatalog(WithDir(t, BrandDirectory(provider)), CatalogPath(provider), plans, now)
  }

  /** The write-or-remove of both revisions of `save_plans_to_file`. */
  method StoreCatalog(fs: FileSystem, filename: string, plans: seq<Json>, now: int) returns (ok: bool)
    modifies fs
    ensures (fs.nodes, ok) == PersistCatalog(old(fs.nodes), filename, plans, now)
  {
    if plans != [] {
      ok := fs.Write(filename, JArr(plans), now);
    } else if filename in fs.nodes {
      ok := fs.Remove(filename);
    } else {
      ok := true;
    }
  }

  /** `save_plans_to_file`. */
  method SavePlansToFile(fs: FileSystem, provider: string, plans: seq<Json>, now: int) returns (ok: bool)
    modifies fs
    ensures (fs.nodes, ok) == SavedPlans(old(fs.nodes), provider, plans, now)
  {
    var directory := EnsureBrandDirectory(fs, provider);
    var filename := ReplaceChar(directory, ' ', '_') + "/plans.json";
    DirectoryHasNoSpace(provider);
    ok := StoreCatalog(fs, filename, plans, now);
  }

  /** A catalog just saved is fresh: at the same clock the freshness test
      of `main` skips its provider for any non-negative interval. */
  lemma SavedCatalogIsFresh(t: Tree, provider: string, plans: seq<Json>, now: int, interval: int)
    requires plans != [] && interval >= 0 && SavedPlans(t, provider, plans, now).1
    ensures !IsFileOlderThan(SavedPlans(t, provider, plans, now).0, CatalogPath(provider), interval, now)
  {
  }

  /** `<dir>/<planId>.json`. */
  function DetailFile(dir: string, planId: string): string {
    dir + "/" + planId + ".json"
  }

  /** The plan ids, in order, whose detail file under `dir` is older than
      `seconds`: those `update_plan_details` launches get_plan_detail.py for. */
  function StaleIds(t: Tree, dir: string, ids: seq<string>, seconds: int, now: int): (s: seq<string>)
    ensures |s| <= |ids|
  {
    if ids == [] then []
    else
      var n := |ids| - 1;
      StaleIds(t, dir, ids[..n], seconds, now)
        + (if IsFileOlderThan(t, DetailFile(dir, ids[n]), seconds, now) then [ids[n]] else [])
  }

  /** An id is launched exactly when it is one of the ids and its detail
      file is older than `seconds`. */
  lemma {:induction false} StaleIdsSelects(t: Tree, dir: string, ids: seq<string>, seconds: int, now: int)
    ensures forall id :: id in StaleIds(t, dir, ids, seconds, now) <==>
      id in ids && IsFileOlderThan(t, DetailFile(dir, id), seconds, now)
  {
    if ids != [] {
      var n := |ids| - 1;
      StaleIdsSelects(t, dir, ids[..n], seconds, now);
      assert forall id :: id in ids <==> id in ids[..n] || id == ids[n];
    }
  }

  /** The ids are tested one by one, in order: the stale ids of a list made
      of two parts are those of the first part followed by those of the
      second, each occurrence kept. */
  lemma {:induction false} StaleIdsAppend(t: Tree, dir: string, a: seq<string>, b: seq<string>, seconds: int, now: int)
    ensures StaleIds(t, dir, a + b, seconds, now) == StaleIds(t, dir, a, seconds, now) + StaleIds(t, dir, b, seconds, now)
    decreases |b|
  {
    if b == [] {
      assert a + b == a;
      assert StaleIds(t, dir, a, seconds, now) + [] == StaleIds(t, dir, a, seconds, now);
    } else {
      var n := |b| - 1;
      var init, x := b[..n], b[n];
      assert b == init + [x];
      assert a + b == (a + init) + [x];
      StaleIdsAppend(t, dir, a, init, seconds, now);
      StaleIdsSnoc(t, dir, a + init, x, seconds, now);
      StaleIdsSnoc(t, dir, init, x, seconds, now);
      var sa, si := StaleIds(t, dir, a, seconds, now), StaleIds(t, dir, init, seconds, now);
      var tail := if IsFileOlderThan(t, DetailFile(dir, x), seconds, now) then [x] else [];
      assert (sa + si) + tail == sa + (si + tail);
    }
  }

  lemma StaleIdsSnoc(t: Tree, dir: string, xs: seq<string>, x: string, seconds: int, now: int)
    ensures StaleIds(t, dir, xs + [x], seconds, now)
      == StaleIds(t, dir, xs, seconds, now) + (if IsFileOlderThan(t, DetailFile(dir, x), seconds, now) then [x] else [])
  {
    assert (xs + [x])[..|xs|] == xs;
    assert (xs + [x])[|xs|] == x;
  }

  /** The loop of `update_plan_details` over the detail files under `dir`:
      the ids it launches the detail script for, in order. */
  method LaunchStale(t: Tree, dir: string, ids: seq<string>, seconds: int, now: int)
    returns (launched: seq<string>)
    ensures launched == StaleIds(t, dir, ids, seconds, now)
  {
    launched := [];
    for k := 0 to |ids|
      invariant launched == StaleIds(t, dir, ids[..k], seconds, now)
    {
      assert ids[..k + 1][..k] == ids[..k];
      if IsFileOlderThan(t, DetailFile(dir, ids[k]), seconds, now) {
        launched := launched + [ids[k]];
      }
    }
    assert ids[..|ids|] == ids;
  }

  /** `update_plan_details` as written: it looks for the detail files under
      `brands/<brand>`, the brand name as given. */
  function StaleIdsAsWritten(t: Tree, brand: string, ids: seq<string>, now: int, days: int): seq<string> {
    StaleIds(t, "brands/" + brand, ids, days * SecondsPerDay, now)
  }

  /** With the name as given, a detail just saved under the brand's
      normalised directory is not found whenever the brand is not its own
      segment, and its plan is launched again: the brand "Acme Energy" saves
      to `brands/acme_energy/<id>.json` while the check looks at
      `brands/Acme Energy/<id>.json`. The normalised directory finds the
      detail and launches nothing. */
  lemma RawPathMissesSavedDetail(t: Tree, brand: string, id: string, details: Json, now: int, days: int)
    requires InRange(now) && days >= 0 && BrandSegment(brand) != brand
    requires !IsFile(t, DetailFile("brands/" + brand, id))
    requires PlanDetail.SavedDetails(t, brand, id, details, now).1
    ensures var saved := PlanDetail.SavedDetails(t, brand, id, details, now).0;
      && StaleIdsAsWritten(saved, brand, [id], now, days) == [id]
      && StaleIds(saved, BrandDirectory(brand), [id], days * SecondsPerDay, now) == []
  {
    var path := PlanDetail.DetailPath(brand, id);
    var raw := DetailFile("brands/" + brand, id);
    var saved := PlanDetail.SavedDetails(t, brand, id, details, now).0;
    assert !IsFile(saved, raw) && IsFile(saved, path) && saved[path].mtime == now by {
      var made := WithDir(t, BrandDirectory(brand));
      var doc := PlanDetail.Stamped(details, now).value;
      assert saved == made[path := File(Parsed(doc), now)];
      RawPathDiffers(brand, id);
      assert !IsFile(made, raw);
    }
    StaleIdsOne(saved, "brands/" + brand, id, days * SecondsPerDay, now);
    StaleIdsOne(saved, BrandDirectory(brand), id, days * SecondsPerDay, now);
  }

  lemma StaleIdsOne(t: Tree, dir: string, id: string, seconds: int, now: int)
    ensures StaleIds(t, dir, [id], seconds, now) == if IsFileOlderThan(t, DetailFile(dir, id), seconds, now) then [id] else []
  {
    assert [id][..0] == [];
  }

  /** The path as written and the path of the saved detail differ for a
      brand that is not its own segment. */
  lemma RawPathDiffers(brand: string, id: string)
    requires BrandSegment(brand) != brand
    ensures DetailFile("brands/" + brand, id) != PlanDetail.DetailPath(brand, id)
  {
    var raw := DetailFile("brands/" + brand, id);
    var path := PlanDetail.DetailPath(brand, id);
    var i :| 0 <= i < |brand| && brand[i] != BrandSegment(brand)[i];
    assert raw[7 + i] == brand[i];
    assert path[7 + i] == BrandSegment(brand)[i];
  }

  /** "Acme Energy" is not its own segment. */
  lemma AcmeEnergyIsRenamed()
    ensures BrandSegment("Acme Energy") != "Acme Energy"
  {
    SegmentFixedPoint("Acme Energy");
    assert IsUpper("Acme Energy"[0]);
  }

  /** `update_plan_details` as written: the loop over the ids, looking for
      each detail under `brands/<brand>`, the brand name as given. */
  method UpdatePlanDetailsAsWritten(t: Tree, brand: string, ids: seq<string>, now: int, days: int)
    returns (launched: seq<string>)
    ensures launched == StaleIdsAsWritten(t, brand, ids, now, days)
  {
    launched := LaunchStale(t, "brands/" + brand, ids, days * SecondsPerDay, now);
  }

  /** `update_plan_details` corrected to look where the details are saved:
      under the brand's normalised directory. */
  method UpdatePlanDetails(t: Tree, brand: string, ids: seq<string>, now: int, days: int)
    returns (launched: seq<string>)
    ensures launched == StaleIds(t, BrandDirectory(brand), ids, days * SecondsPerDay, now)
  {
    launched := LaunchStale(t, BrandDirectory(brand), ids, days * SecondsPerDay, now);
  }

  /** With the normalised directory, a plan whose details were just saved
      is not launched again at the same clock, for any brand. */
  lemma SavedDetailIsSkipped(t: Tree, brand: string, id: string, details: Json, now: int, days: int)
    requires InRange(now) && days >= 0 && PlanDetail.SavedDetails(t, brand, id, details, now).1
    ensures id !in StaleIds(PlanDetail.SavedDetails(t, brand, id, details, now).0,
      BrandDirectory(brand), [id], days * SecondsPerDay, now)
  {
    PlanDetail.SavedIsFresh(t, brand, id, details, now, now, days);
  }

  /** `[plan['planId'] for plan in plans]`: Raised for a plan that is not a
      dict or has no `planId`; an id that is not a string is formatted with
      `str()`, which is not modelled. */
  function PlanIds(plans: seq<Json>): (r: Result<seq<string>>)
    ensures r.Ok? ==> |r.value| == |plans|
    ensures r.Ok? ==> forall i :: 0 <= i < |plans| ==> Subscript(plans[i], "planId") == Some(JStr(r.value[i]))
  {
    if plans == [] then Ok([])
    else
      match Subscript(plans[0], "planId")
      case None => Err(Raised)
      case Some(v) =>
        if !v.JStr? then Err(OutsideModel)
        else
          match PlanIds(plans[1..])
          case Err(f) => Err(f)
          case Ok(rest) =>
            assert forall i :: 1 <= i < |plans| ==> plans[i] == plans[1..][i - 1];
            Ok([v.s] + rest)
  }

  /** What happened to one provider in `main`. */
  datatype Outcome =
    | Skipped                                      // its catalog was fresh
    | NoPlans                                      // the fetch returned no plans
    | Saved(count: nat, launched: seq<string>)     // `count` plans saved; details launched for these ids

  /** The outer loop of both revisions of `main`, with `step` the work on
      one provider, giving the tree it leaves and its outcome or error: the
      final tree, and the outcome per provider in order or the first error,
      which ends the run. Neither `main` catches it, so the tree is the one
      the failing provider left. */
  function RunProviders(step: (Tree, string, string) -> (Tree, Result<Outcome>), t: Tree,
                        brands: seq<string>, urls: map<string, string>): (Tree, Result<seq<Outcome>>)
    requires forall b :: b in brands ==> b in urls
    decreases |brands|
  {
    if brands == [] then (t, Ok([]))
    else
      var (t1, r) := step(t, brands[0], urls[brands[0]]);
      if r.Err? then (t1, Err(r.failure))
      else Chain([r.value], RunProviders(step, t1, brands[1..], urls))
  }

  /** One provider of a run: the run from provider `k` on is its outcome
      followed by the run from `k + 1`, or its error with the tree it left. */
  lemma RunProvidersAt(step: (Tree, string, string) -> (Tree, Result<Outcome>), t: Tree,
                       brands: seq<string>, urls: map<string, string>, k: nat)
    requires k < |brands| && forall b :: b in brands ==> b in urls
    ensures var (t1, r) := step(t, brands[k], urls[brands[k]]);
      && (r.Err? ==> RunProviders(step, t, brands[k..], urls) == (t1, Err(r.failure)))
      && (r.Ok? ==> RunProviders(step, t, brands[k..], urls) == Chain([r.value], RunProviders(step, t1, brands[k + 1..], urls)))
  {
    assert brands[k..][1..] == brands[k + 1..];
  }

  /** `outcomes` followed by those of a run that goes on; a run that raised
      keeps its tree and error. */
  function Chain(outcomes: seq<Outcome>, run: (Tree, Result<seq<Outcome>>)): (Tree, Result<seq<Outcome>>) {
    if run.1.Ok? then (run.0, Ok(outcomes + run.1.value)) else run
  }

  lemma ChainNothing(run: (Tree, Result<seq<Outcome>>))
    ensures Chain([], run) == run
  {
    if run.1.Ok? {
      assert [] + run.1.value == run.1.value;
    }
  }

  lemma ChainChain(a: seq<Outcome>, b: seq<Outcome>, run: (Tree, Result<seq<Outcome>>))
    ensures Chain(a, Chain(b, run)) == Chain(a + b, run)
  {
    if run.1.Ok? {
      assert a + (b + run.1.value) == (a + b) + run.1.value;
    }
  }

  /** A run over the first `k` providers and then the rest: when the first
      `k` go on, the whole run is their outcomes followed by the run of the
      rest from the tree they left; when one of them raises, the whole run
      ends there, with the tree that provider left. */
  lemma {:induction false} RunProvidersSplit(step: (Tree, string, string) -> (Tree, Result<Outcome>), t: Tree,
                                             brands: seq<string>, urls: map<string, string>, k: nat)
    requires k <= |brands| && forall b :: b in brands ==> b in urls
    ensures var head := RunProviders(step, t, brands[..k], urls);
      && (head.1.Ok? ==>
            RunProviders(step, t, brands, urls) == Chain(head.1.value, RunProviders(step, head.0, brands[k..], urls)))
      && (head.1.Err? ==> RunProviders(step, t, brands, urls) == head)
    decreases k
  {
    if k == 0 {
      assert brands[..0] == [] && brands[0..] == brands;
      ChainNothing(RunProviders(step, t, brands, urls));
    } else {
      var (t1, r) := step(t, brands[0], urls[brands[0]]);
      assert brands[..k][0] == brands[0];
      if r.Ok? {
        var rest := brands[1..];
        assert brands[..k][1..] == rest[..k - 1];
        assert brands[k..] == rest[k - 1..];
        RunProvidersSplit(step, t1, rest, urls, k - 1);
        var inner := RunProviders(step, t1, rest[..k - 1], urls);
        if inner.1.Ok? {
          ChainChain([r.value], inner.1.value, RunProviders(step, inner.0, rest[k - 1..], urls));
        }
      }
    }
  }

  /** `total_providers`: the providers whose plans were saved. */
  function SavedProviders(outcomes: seq<Outcome>): nat {
    if outcomes == [] then 0
    else SavedProviders(outcomes[..|outcomes| - 1]) + (if outcomes[|outcomes| - 1].Saved? then 1 else 0)
  }

  /** `total_plans`: the plans saved, over all providers. */
  function SavedPlanCount(outcomes: seq<Outcome>): nat {
    if outcomes == [] then 0
    else
      var o := outcomes[|outcomes| - 1];
      SavedPlanCount(outcomes[..|outcomes| - 1]) + (if o.Saved? then o.count else 0)
  }

  /** The counters only count saved providers: no more than the providers
      run, and at least one plan per saved provider. */
  lemma {:induction false} CountersBound(outcomes: seq<Outcome>)
    requires forall i :: 0 <= i < |outcomes| && outcomes[i].Saved? ==> outcomes[i].count > 0
    ensures SavedProviders(outcomes) <= |outcomes|
    ensures SavedProviders(outcomes) <= SavedPlanCount(outcomes)
  {
    if outcomes != [] {
      CountersBound(outcomes[..|outcomes| - 1]);
    }
  }

  /** The work of get_plans.py's `main` on provider `brand` with base URI
      `url`, where `serve(url)` answers the requests of its paging loop:
      the tree it leaves, and its outcome or the error it raises. */
  function ProviderStep(t: Tree, brand: string, url: string, serve: string -> seq<Response>,
                        now: int, interval: int, days: int): (Tree, Result<Outcome>)
  {
    if !IsFileOlderThan(t, CatalogPath(brand), interval, now) then (t, Ok(Skipped))
    else
      match FetchFrom(PageStep, serve(url), 1)
      case Err(f) => (t, Err(f))
      case Ok(plans) =>
        if plans == [] then (t, Ok(NoPlans))
        else
          var (saved, ok) := SavedPlans(t, brand, plans, now);
          if !ok then (saved, Err(Raised))
          else
            match PlanIds(plans)
            case Err(f) => (saved, Err(f))
            case Ok(ids) => (saved, Ok(Saved(|plans|, StaleIdsAsWritten(saved, brand, ids, now, days))))
  }

  /** A provider is skipped, with nothing changed, exactly when its catalog
      is fresh; when its fetch returns no plans nothing changes either; a
      provider counted as saved had its non-empty catalog written, only
      plans of that catalog are launched, and they are those whose detail
      is stale under `brands/<brand>`, the name as given. A raise in the
      fetch changes nothing; a raise after it leaves the tree
      `save_plans_to_file` left. */
  lemma ProviderStepOutcomes(t: Tree, brand: string, url: string, serve: string -> seq<Response>,
                             now: int, interval: int, days: int)
    ensures ProviderStep(t, brand, url, serve, now, interval, days) == (t, Ok(Skipped))
      <==> !IsFileOlderThan(t, CatalogPath(brand), interval, now)
    ensures ProviderStep(t, brand, url, serve, now, interval, days).1 == Ok(NoPlans) ==>
      ProviderStep(t, brand, url, serve, now, interval, days).0 == t
      && FetchFrom(PageStep, serve(url), 1) == Ok([])
    ensures (ProviderStep(t, brand, url, serve, now, interval, days).1.Ok?
      && ProviderStep(t, brand, url, serve, now, interval, days).1.value.Saved?) ==>
      var (t1, r) := ProviderStep(t, brand, url, serve, now, interval, days);
      && FetchFrom(PageStep, serve(url), 1).Ok?
      && r.value.count == |FetchFrom(PageStep, serve(url), 1).value| > 0
      && IsFile(t1, CatalogPath(brand))
      && t1[CatalogPath(brand)].doc == Parsed(JArr(FetchFrom(PageStep, serve(url), 1).value))
      && (forall id :: id in r.value.launched ==>
           exists i :: 0 <= i < r.value.count && Subscript(FetchFrom(PageStep, serve(url), 1).value[i], "planId") == Some(JStr(id)))
      && PlanIds(FetchFrom(PageStep, serve(url), 1).value).Ok?
      && r.value.launched == StaleIdsAsWritten(t1, brand, PlanIds(FetchFrom(PageStep, serve(url), 1).value).value, now, days)
    ensures (ProviderStep(t, brand, url, serve, now, interval, days).1.Err?
      && FetchFrom(PageStep, serve(url), 1).Err?) ==>
      ProviderStep(t, brand, url, serve, now, interval, days).0 == t
    ensures (ProviderStep(t, brand, url, serve, now, interval, days).1.Err?
      && FetchFrom(PageStep, serve(url), 1).Ok?) ==>
      ProviderStep(t, brand, url, serve, now, interval, days).0
        == SavedPlans(t, brand, FetchFrom(PageStep, serve(url), 1).value, now).0
  {
    var r := ProviderStep(t, brand, url, serve, now, interval, days);
    if r.1.Ok? && r.1.value.Saved? {
      var plans := FetchFrom(PageStep, serve(url), 1).value;
      var ids := PlanIds(plans).value;
      StaleIdsSelects(r.0, "brands/" + brand, ids, days * SecondsPerDay, now);
      forall id | id in r.1.value.launched
        ensures exists i :: 0 <= i < r.1.value.count && Subscript(plans[i], "planId") == Some(JStr(id))
      {
        var i :| 0 <= i < |ids| && ids[i] == id;
        assert Subscript(plans[i], "planId") == Some(JStr(id));
      }
    }
  }

  /** One provider changes no path but its own catalog: every path stays,
      and every node other than `CatalogPath(brand)` keeps its value. */
  lemma ProviderStepKeepsOthers(t: Tree, brand: string, url: string, serve: string -> seq<Response>,
                                now: int, interval: int, days: int)
    ensures var t1 := ProviderStep(t, brand, url, serve, now, interval, days).0;
      forall p :: p in t ==> p in t1 && (p == CatalogPath(brand) || t1[p] == t[p])
  {
    if IsFileOlderThan(t, CatalogPath(brand), interval, now) && FetchFrom(PageStep, serve(url), 1).Ok? {
      var made := WithDir(t, BrandDirectory(brand));
      var plans := FetchFrom(PageStep, serve(url), 1).value;
      assert SavedPlans(t, brand, plans, now) == PersistCatalog(made, CatalogPath(brand), plans, now);
    }
  }

  /** The step of get_plans.py's `main`, as a value for `RunProviders`. */
  function PlansStep(serve: string -> seq<Response>, now: int, interval: int, days: int)
    : (Tree, string, string) -> (Tree, Result<Outcome>)
  {
    (t, brand, url) => ProviderStep(t, brand, url, serve, now, interval, days)
  }

  /** A run of get_plans.py's `main`, whether it completes or raises,
      changes no path but the catalogs of the providers it visits: every
      path stays, and a node that is no visited provider's catalog keeps
      its value. In particular the catalogs saved before a raise stay. */
  lemma {:induction false} RunKeepsOthers(serve: string -> seq<Response>, now: int, interval: int, days: int,
                                          t: Tree, brands: seq<string>, urls: map<string, string>)
    requires forall b :: b in brands ==> b in urls
    ensures var t1 := RunProviders(PlansStep(serve, now, interval, days), t, brands, urls).0;
      forall p :: p in t ==> p in t1 && ((forall b :: b in brands ==> p != CatalogPath(b)) ==> t1[p] == t[p])
    decreases |brands|
  {
    if brands != [] {
      var step := PlansStep(serve, now, interval, days);
      var b := brands[0];
      assert step(t, b, urls[b]) == ProviderStep(t, b, urls[b], serve, now, interval, days);
      ProviderStepKeepsOthers(t, b, urls[b], serve, now, interval, days);
      var (t1, r) := step(t, b, urls[b]);
      if r.Ok? {
        RunKeepsOthers(serve, now, interval, days, t1, brands[1..], urls);
        assert forall c :: c in brands[1..] ==> c in brands;
      }
    }
  }

  /** The body of `main`'s loop for one provider. */
  method ProcessProvider(fs: FileSystem, brand: string, url: string, serve: string -> seq<Response>,
                         now: int, interval: int, days: int)
    returns (r: Result<Outcome>)
    modifies fs
    ensures (fs.nodes, r) == ProviderStep(old(fs.nodes), brand, url, serve, now, interval, days)
  {
    var plansFilePath := "brands/" + Lower(ReplaceChar(brand, ' ', '_')) + "/plans.json";
    if !IsFileOlderThan(fs.nodes, plansFilePath, interval, now) {
      return Ok(Skipped);
    }
    var plans, _ := FetchPlans(serve(url));
    if plans.Err? {
      return Err(plans.failure);
    }
    if plans.value == [] {
      return Ok(NoPlans);
    }
    var ok := SavePlansToFile(fs, brand, plans.value, now);
    if !ok {
      return Err(Raised);
    }
    var ids := PlanIds(plans.value);
    if ids.Err? {
      return Err(ids.failure);
    }
    var launched := UpdatePlanDetailsAsWritten(fs.nodes, brand, ids.value, now, days);
    r := Ok(Saved(|plans.value|, launched));
  }

  /** The loop of get_plans.py's `main` over the providers `brands`, in
      order, with their base URIs in `urls`: what happened to each, and the
      counters, which count the saved providers and their plans. */
  method VisitProviders(fs: FileSystem, brands: seq<string>, urls: map<string, string>,
                        serve: string -> seq<Response>, now: int, interval: int, days: int)
    returns (r: Result<seq<Outcome>>, totalProviders: nat, totalPlans: nat)
    requires forall b :: b in brands ==> b in urls
    modifies fs
    ensures (fs.nodes, r) == RunProviders(PlansStep(serve, now, interval, days), old(fs.nodes), brands, urls)
    ensures r.Ok? ==> |r.value| == |brands|
    ensures r.Ok? ==> totalProviders == SavedProviders(r.value) && totalPlans == SavedPlanCount(r.value)
  {
    ghost var step := PlansStep(serve, now, interval, days);
    ghost var t0 := fs.nodes;
    var outcomes: seq<Outcome> := [];
    totalProviders, totalPlans := 0, 0;
    assert brands[0..] == brands;
    ChainNothing(RunProviders(step, t0, brands, urls));
    for k := 0 to |brands|
      invariant |outcomes| == k
      invariant RunProviders(step, t0, brands, urls) == Chain(outcomes, RunProviders(step, fs.nodes, brands[k..], urls))
      invariant totalProviders == SavedProviders(outcomes) && totalPlans == SavedPlanCount(outcomes)
    {
      ghost var before := fs.nodes;
      var o := ProcessProvider(fs, brands[k], urls[brands[k]], serve, now, interval, days);
      assert step(before, brands[k], urls[brands[k]]) == ProviderStep(before, brands[k], urls[brands[k]], serve, now, interval, days);
      RunProvidersAt(step, before, brands, urls, k);
      if o.Err? {
        assert RunProviders(step, t0, brands, urls) == (fs.nodes, Err(o.failure));
        return Err(o.failure), totalProviders, totalPlans;
      }
      ChainChain(outcomes, [o.value], RunProviders(step, fs.nodes, brands[k + 1..], urls));
      assert (outcomes + [o.value])[..k] == outcomes;
      outcomes := outcomes + [o.value];
      if o.value.Saved? {
        totalProviders := totalProviders + 1;
        totalPlans := totalPlans + o.value.count;
      }
    }
    assert brands[|brands|..] == [];
    assert RunProviders(step, t0, brands, urls) == (fs.nodes, Ok(outcomes + []));
    assert outcomes + [] == outcomes;
    r := Ok(outcomes);
  }

  /** `main` of get_plans.py, on the register's records, the endpoint's
      responses per base URI, the clock and the catalog refresh interval in
      seconds: the providers are visited in the order of
      `provider_urls.items()`, and details are due after `REFRESH_DAYS`. */
  method GetPlansMain(fs: FileSystem, records: seq<Retailer>, serve: string -> seq<Response>,
                      now: int, interval: int)
    returns (r: Result<seq<Outcome>>, totalProviders: nat, totalPlans: nat)
    modifies fs
    ensures (fs.nodes, r) == RunProviders(PlansStep(serve, now, interval, PlanDetail.RefreshDays), old(fs.nodes),
                                          BrandOrder(records), ProviderUrls(records))
    ensures r.Ok? ==> |r.value| == |BrandOrder(records)|
    ensures r.Ok? ==> totalProviders == SavedProviders(r.value) && totalPlans == SavedPlanCount(r.value)
  {
    var urls := ProviderUrls(records);
    var brands := BrandOrder(records);
    r, totalProviders, totalPlans := VisitProviders(fs, brands, urls, serve, now, interval, PlanDetail.RefreshDays);
  }
}
