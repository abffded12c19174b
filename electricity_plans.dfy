/** electricity_plans.py, the older catalog fetcher: the same paging loop
    with pages of a hundred plans and no checks on the response, the
    catalog saved under `brands/<provider name>` with the name as given, no
    freshness test and no plan details launched. */
module ElectricityPlans {
  import opened Wrappers
  import opened Json
  import opened Store
  import opened Utilities
  import opened RetailerScan
  import opened GetPlans

  /** The step of electricity_plans.py on the response to page `page`:
      the status is ignored, and a body without `meta.totalPages` raises
      after its plans were appended. */
  function LegacyStep(r: Response, page: int): Step {
    match r.body
    case Unparsable => Fail(Raised)
    case Parsed(data) =>
      match PlansData(data)
      case Err(f) => Fail(f)
      case Ok(plansData) =>
        match Extension(plansData)
        case Err(f) => Fail(f)
        case Ok(items) =>
          match Subscript(data, "meta")
          case None => Fail(Raised)
          case Some(meta) =>
            match Subscript(meta, "totalPages")
            case None => Fail(Raised)
            case Some(total) =>
              match AsInt(total)
              case None => Fail(Raised)
              case Some(n) => Append(items, page >= n)
  }

  /** The older loop never stops early: where get_plans.py keeps a partial
      result, on a dict body without `meta`, it raises. */
  lemma LegacyStepNeverHalts(r: Response, page: int)
    ensures LegacyStep(r, page) != Halt
    ensures r.body.Parsed? && r.body.value.JObj? && "meta" !in r.body.value.fields ==>
      LegacyStep(r, page).Fail?
  {
  }

  /** On a response with a good status the two steps agree wherever the
      older one goes on. */
  lemma StepsAgree(r: Response, page: int)
    requires r.ok && LegacyStep(r, page).Append?
    ensures PageStep(r, page) == LegacyStep(r, page)
  {
    var data := r.body.value;
    var meta := Subscript(data, "meta").value;
    assert Contains(data, "meta") == Some(true);
    assert Contains(meta, "totalPages") == Some(true);
  }

  /** When every response has a good status, a run of the older loop that
      returns plans returns what get_plans.py's loop returns, after as many
      requests. */
  lemma {:induction false} FetchAgrees(responses: seq<Response>, page: nat)
    requires page >= 1
    requires forall i :: page - 1 <= i < |responses| ==> responses[i].ok
    requires FetchFrom(LegacyStep, responses, page).Ok?
    ensures FetchFrom(PageStep, responses, page) == FetchFrom(LegacyStep, responses, page)
    ensures RequestCount(PageStep, responses, page) == RequestCount(LegacyStep, responses, page)
    decreases |responses| + 1 - page
  {
    StepsAgree(responses[page - 1], page);
    var s := LegacyStep(responses[page - 1], page);
    if !s.last {
      FetchAgrees(responses, page + 1);
    }
  }

  /** `fetch_plans` of electricity_plans.py: pages of a hundred plans. */
  method FetchPlans(responses: seq<Response>) returns (r: Result<seq<Json>>, sent: seq<Request>)
    ensures r == FetchFrom(LegacyStep, responses, 1)
    ensures |sent| == RequestCount(LegacyStep, responses, 1)
    ensures forall i :: 0 <= i < |sent| ==> sent[i] == PlanRequest(i + 1, "100")
  {
    r, sent := FetchPages(LegacyStep, "100", responses);
  }

  /** Where electricity_plans.py keeps a provider's catalog: under the
      provider name as given. */
  function LegacyCatalogPath(provider: string): string {
    "brands/" + provider + "/plans.json"
  }

  /** The two revisions keep a provider's catalog at the same path exactly
      when its name is its own segment (no space, no upper-case letter). */
  lemma CatalogPathsAgree(provider: string)
    ensures LegacyCatalogPath(provider) == CatalogPath(provider) <==> BrandSegment(provider) == provider
  {
    if LegacyCatalogPath(provider) == CatalogPath(provider) {
      assert LegacyCatalogPath(provider)[7..7 + |provider|] == provider;
      assert CatalogPath(provider)[7..7 + |provider|] == BrandSegment(provider);
    }
  }

  /** The tree after `save_plans_to_file(provider, plans)` of
      electricity_plans.py, and whether it returned. */
  function LegacySavedPlans(t: Tree, provider: string, plans: seq<Json>, now: int): (Tree, bool) {
    PersistCatalog(WithDir(t, "brands/" + provider), LegacyCatalogPath(provider), plans, now)
  }

  /** `save_plans_to_file` of electricity_plans.py. */
  method SavePlansToFile(fs: FileSystem, provider: string, plans: seq<Json>, now: int) returns (ok: bool)
    modifies fs
    ensures (fs.nodes, ok) == LegacySavedPlans(old(fs.nodes), provider, plans, now)
  {
    var directory := "brands/" + provider;
    fs.EnsureDir(directory);
    var filename := directory + "/plans.json";
    ok := StoreCatalog(fs, filename, plans, now);
  }

  /** The work of electricity_plans.py's `main` on provider `brand` with
      base URI `url`: no freshness test, and nothing launched. A raise in
      the fetch changes nothing; a raise in the save leaves the tree
      `save_plans_to_file` left. */
  function LegacyProviderStep(t: Tree, brand: string, url: string, serve: string -> seq<Response>, now: int)
    : (r: (Tree, Result<Outcome>))
    ensures r.1.Ok? ==> !r.1.value.Skipped?
    ensures r.1.Ok? && r.1.value.Saved? ==>
      && r.1.value.launched == []
      && FetchFrom(LegacyStep, serve(url), 1).Ok?
      && r.1.value.count == |FetchFrom(LegacyStep, serve(url), 1).value| > 0
      && IsFile(r.0, LegacyCatalogPath(brand))
      && r.0[LegacyCatalogPath(brand)].doc == Parsed(JArr(FetchFrom(LegacyStep, serve(url), 1).value))
    ensures r.1.Err? && FetchFrom(LegacyStep, serve(url), 1).Err? ==> r.0 == t
    ensures r.1.Err? && FetchFrom(LegacyStep, serve(url), 1).Ok? ==>
      r.0 == LegacySavedPlans(t, brand, FetchFrom(LegacyStep, serve(url), 1).value, now).0
    ensures forall p :: p in t ==> p in r.0 && (p == LegacyCatalogPath(brand) || r.0[p] == t[p])
  {
    match FetchFrom(LegacyStep, serve(url), 1)
    case Err(f) => (t, Err(f))
    case Ok(plans) =>
      if plans == [] then (t, Ok(NoPlans))
      else
        var (saved, ok) := LegacySavedPlans(t, brand, plans, now);
        if !ok then (saved, Err(Raised)) else (saved, Ok(Saved(|plans|, [])))
  }

  /** The step of electricity_plans.py's `main`, as a value for `RunProviders`. */
  function LegacyPlansStep(serve: string -> seq<Response>, now: int): (Tree, string, string) -> (Tree, Result<Outcome>) {
    (t, brand, url) => LegacyProviderStep(t, brand, url, serve, now)
  }

  /** A run of electricity_plans.py's `main`, whether it completes or
      raises, changes no path but the catalogs of the providers it visits:
      every path stays, and a node that is no visited provider's catalog
      keeps its value. */
  lemma {:induction false} LegacyRunKeepsOthers(serve: string -> seq<Response>, now: int,
                                                t: Tree, brands: seq<string>, urls: map<string, string>)
    requires forall b :: b in brands ==> b in urls
    ensures var t1 := RunProviders(LegacyPlansStep(serve, now), t, brands, urls).0;
      forall p :: p in t ==> p in t1 && ((forall b :: b in brands ==> p != LegacyCatalogPath(b)) ==> t1[p] == t[p])
    decreases |brands|
  {
    if brands != [] {
      var step := LegacyPlansStep(serve, now);
      var b := brands[0];
      assert step(t, b, urls[b]) == LegacyProviderStep(t, b, urls[b], serve, now);
      var (t1, r) := step(t, b, urls[b]);
      if r.Ok? {
        LegacyRunKeepsOthers(serve, now, t1, brands[1..], urls);
        assert forall c :: c in brands[1..] ==> c in brands;
      }
    }
  }

  /** The body of the older `main`'s loop for one provider. */
  method ProcessProvider(fs: FileSystem, brand: string, url: string, serve: string -> seq<Response>, now: int)
    returns (r: Result<Outcome>)
    modifies fs
    ensures (fs.nodes, r) == LegacyProviderStep(old(fs.nodes), brand, url, serve, now)
  {
    var plans, _ := FetchPlans(serve(url));
    if plans.Err? {
      return Err(plans.failure);
    }
    if plans.value == [] {
      return Ok(NoPlans);
    }
    var ok := SavePlansToFile(fs, brand, plans.value, now);
    if !ok {
      return Err(Raised);
    }
    r := Ok(Saved(|plans.value|, []));
  }

  /** The loop of the older `main` over the providers `brands`, in order. */
  method VisitProviders(fs: FileSystem, brands: seq<string>, urls: map<string, string>,
                        serve: string -> seq<Response>, now: int)
    returns (r: Result<seq<Outcome>>, totalProviders: nat, totalPlans: nat)
    requires forall b :: b in brands ==> b in urls
    modifies fs
    ensures (fs.nodes, r) == RunProviders(LegacyPlansStep(serve, now), old(fs.nodes), brands, urls)
    ensures r.Ok? ==> |r.value| == |brands|
    ensures r.Ok? ==> totalProviders == SavedProviders(r.value) && totalPlans == SavedPlanCount(r.value)
  {
    ghost var step := LegacyPlansStep(serve, now);
    ghost var t0 := fs.nodes;
    var outcomes: seq<Outcome> := [];
    totalProviders, totalPlans := 0, 0;
    assert brands[0..] == brands;
    ChainNothing(RunProviders(step, t0, brands, urls));
    for k := 0 to |brands|
      invariant |outcomes| == k
      invariant RunProviders(step, t0, brands, urls) == Chain(outcomes, RunProviders(step, fs.nodes, brands[k..], urls))
      invariant totalProviders == SavedProviders(outcomes) && totalPlans == SavedPlanCount(outcomes)
    {
      ghost var before := fs.nodes;
      var o := ProcessProvider(fs, brands[k], urls[brands[k]], serve, now);
      assert step(before, brands[k], urls[brands[k]]) == LegacyProviderStep(before, brands[k], urls[brands[k]], serve, now);
      RunProvidersAt(step, before, brands, urls, k);
      if o.Err? {
        assert RunProviders(step, t0, brands, urls) == (fs.nodes, Err(o.failure));
        return Err(o.failure), totalProviders, totalPlans;
      }
      ChainChain(outcomes, [o.value], RunProviders(step, fs.nodes, brands[k + 1..], urls));
      assert (outcomes + [o.value])[..k] == outcomes;
      outcomes := outcomes + [o.value];
      if o.value.Saved? {
        totalProviders := totalProviders + 1;
        totalPlans := totalPlans + o.value.count;
      }
    }
    assert brands[|brands|..] == [];
    assert RunProviders(step, t0, brands, urls) == (fs.nodes, Ok(outcomes + []));
    assert outcomes + [] == outcomes;
    r := Ok(outcomes);
  }

  /** `main` of electricity_plans.py: `brands` is made first, then every
      provider of the register is fetched, in the order of
      `provider_urls.items()`, and saved when it has plans. */
  method LegacyMain(fs: FileSystem, records: seq<Retailer>, serve: string -> seq<Response>, now: int)
    returns (r: Result<seq<Outcome>>, totalProviders: nat, totalPlans: nat)
    modifies fs
    ensures (fs.nodes, r) == RunProviders(LegacyPlansStep(serve, now), WithDir(old(fs.nodes), "brands"),
                                          BrandOrder(records), ProviderUrls(records))
    ensures r.Ok? ==> |r.value| == |BrandOrder(records)|
    ensures r.Ok? ==> totalProviders == SavedProviders(r.value) && totalPlans == SavedPlanCount(r.value)
  {
    fs.EnsureDir("brands");
    var urls := ProviderUrls(records);
    var brands := BrandOrder(records);
    r, totalProviders, totalPlans := VisitProviders(fs, brands, urls, serve, now);
  }
}
