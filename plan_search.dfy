/** electricity_plan_search.py: the catalogs in a directory are read into one
    list of plans, the plans are filtered by a postcode in their geography,
    and the brand names or the display names of the plans that remain are
    reported. */
module PlanSearch {
  import opened Wrappers
  import opened Json
  import opened Store
  import opened Text

  /** `postcode in plan.get('geography', {}).get('includedPostcodes', [])`;
      Raised when a `.get` meets a value that is not a dict or the
      postcodes do not support `in`. */
  function CoversPostcode(plan: Json, postcode: string): (r: Result<bool>)
    ensures r.Ok? ==> plan.JObj?
    ensures r.Err? ==> r.failure == Raised
  {
    match Get(plan, "geography", JObj(map[]))
    case None => Err(Raised)
    case Some(geography) =>
      match Get(geography, "includedPostcodes", JArr([]))
      case None => Err(Raised)
      case Some(postcodes) =>
        match Contains(postcodes, postcode)
        case None => Err(Raised)
        case Some(b) => Ok(b)
  }

  /** A plan with a list of postcodes covers exactly the postcodes listed;
      a plan without a geography, or without postcodes, covers none. */
  lemma CoversListedPostcodes(plan: Json, postcode: string)
    requires plan.JObj?
    ensures "geography" !in plan.fields ==> CoversPostcode(plan, postcode) == Ok(false)
    ensures ("geography" in plan.fields && plan.fields["geography"].JObj?
      && "includedPostcodes" !in plan.fields["geography"].fields) ==>
      CoversPostcode(plan, postcode) == Ok(false)
    ensures ("geography" in plan.fields && plan.fields["geography"].JObj?
      && "includedPostcodes" in plan.fields["geography"].fields
      && plan.fields["geography"].fields["includedPostcodes"].JArr?) ==>
      CoversPostcode(plan, postcode)
        == Ok(JStr(postcode) in plan.fields["geography"].fields["includedPostcodes"].items)
  {
  }

  /** `filter_plans_by_postcode`: the plans that cover `postcode`, in their
      order; Raised at the first plan whose test raises. */
  function FilterPlansByPostcode(plans: seq<Json>, postcode: string): (r: Result<seq<Json>>)
    ensures r.Ok? ==> |r.value| <= |plans|
  {
    if plans == [] then Ok([])
    else
      match CoversPostcode(plans[0], postcode)
      case Err(f) => Err(f)
      case Ok(b) =>
        match FilterPlansByPostcode(plans[1..], postcode)
        case Err(f) => Err(f)
        case Ok(rest) => Ok(if b then [plans[0]] + rest else rest)
  }

  /** The filter returns exactly when every plan's test returns, and then
      it keeps exactly the plans that cover the postcode. */
  lemma {:induction false} FilterSelects(plans: seq<Json>, postcode: string)
    ensures FilterPlansByPostcode(plans, postcode).Ok?
      <==> forall i :: 0 <= i < |plans| ==> CoversPostcode(plans[i], postcode).Ok?
    ensures FilterPlansByPostcode(plans, postcode).Ok? ==> forall p ::
      p in FilterPlansByPostcode(plans, postcode).value <==> p in plans && CoversPostcode(p, postcode) == Ok(true)
  {
    if plans != [] {
      FilterSelects(plans[1..], postcode);
      assert forall p :: p in plans <==> p == plans[0] || p in plans[1..];
      assert forall i :: 1 <= i < |plans| ==> plans[i] == plans[1..][i - 1];
    }
  }

  /** Filtering the filtered plans by the same postcode changes nothing. */
  lemma {:induction false} FilterIdempotent(plans: seq<Json>, postcode: string)
    requires FilterPlansByPostcode(plans, postcode).Ok?
    ensures FilterPlansByPostcode(FilterPlansByPostcode(plans, postcode).value, postcode)
      == FilterPlansByPostcode(plans, postcode)
  {
    if plans != [] {
      FilterIdempotent(plans[1..], postcode);
      var rest := FilterPlansByPostcode(plans[1..], postcode).value;
      if CoversPostcode(plans[0], postcode) == Ok(true) {
        assert ([plans[0]] + rest)[1..] == rest;
      }
    }
  }

  /** The filter on a plan followed by more plans. */
  lemma FilterCons(p: Json, rest: seq<Json>, postcode: string)
    requires CoversPostcode(p, postcode).Ok? && FilterPlansByPostcode(rest, postcode).Ok?
    ensures FilterPlansByPostcode([p] + rest, postcode)
      == Ok(if CoversPostcode(p, postcode).value then [p] + FilterPlansByPostcode(rest, postcode).value
            else FilterPlansByPostcode(rest, postcode).value)
  {
    assert ([p] + rest)[0] == p;
    assert ([p] + rest)[1..] == rest;
  }

  /** The filter keeps the plans in their order: filtering a list made of
      two parts filters each part and keeps them in that order. */
  lemma {:induction false} FilterKeepsOrder(plans: seq<Json>, postcode: string, xs: seq<Json>)
    requires FilterPlansByPostcode(plans, postcode).Ok? && FilterPlansByPostcode(xs, postcode).Ok?
    ensures FilterPlansByPostcode(plans + xs, postcode)
      == Ok(FilterPlansByPostcode(plans, postcode).value + FilterPlansByPostcode(xs, postcode).value)
  {
    var b := FilterPlansByPostcode(xs, postcode).value;
    if plans == [] {
      assert plans + xs == xs;
      assert [] + b == b;
    } else {
      var p, rest := plans[0], plans[1..];
      assert plans == [p] + rest;
      assert CoversPostcode(p, postcode).Ok?;
      FilterKeepsOrder(rest, postcode, xs);
      var a := FilterPlansByPostcode(rest, postcode).value;
      FilterCons(p, rest, postcode);
      assert plans + xs == [p] + (rest + xs);
      FilterCons(p, rest + xs, postcode);
      assert [p] + (a + b) == ([p] + a) + b;
    }
  }

  /** A value `set()` accepts: dicts and lists are unhashable. */
  predicate Hashable(j: Json) {
    !j.JArr? && !j.JObj?
  }

  /** `get_providers_from_plans`: the distinct brand names of the plans. The
      order of the list `list(set(...))` makes is that of Python's set
      iteration and is not modelled: the result is the set. */
  function GetProvidersFromPlans(plans: seq<Json>): (r: Result<set<Json>>)
    ensures r.Ok? <==> forall i :: 0 <= i < |plans| ==>
      plans[i].JObj? && Hashable(Field(plans[i], "brandName").value)
    ensures r.Ok? ==> forall b :: b in r.value <==>
      exists i :: 0 <= i < |plans| && Field(plans[i], "brandName") == Some(b)
  {
    if plans == [] then Ok({})
    else
      var n := |plans| - 1;
      assert forall i :: 0 <= i < n ==> plans[i] == plans[..n][i];
      match GetProvidersFromPlans(plans[..n])
      case Err(f) => Err(f)
      case Ok(earlier) =>
        match Field(plans[n], "brandName")
        case None => Err(Raised)
        case Some(b) =>
          if !Hashable(b) then Err(Raised)
          else
            assert Field(plans[n], "brandName") == Some(b);
            Ok(earlier + {b})
  }

  /** `get_plan_names_from_plans`: the display name of every plan, in
      order (null where a plan has none). */
  function GetPlanNamesFromPlans(plans: seq<Json>): (r: Result<seq<Json>>)
    ensures r.Ok? <==> forall i :: 0 <= i < |plans| ==> plans[i].JObj?
    ensures r.Ok? ==> |r.value| == |plans|
    ensures r.Ok? ==> forall i :: 0 <= i < |plans| ==> Field(plans[i], "displayName") == Some(r.value[i])
  {
    if plans == [] then Ok([])
    else
      var n := |plans| - 1;
      assert forall i :: 0 <= i < n ==> plans[i] == plans[..n][i];
      match GetPlanNamesFromPlans(plans[..n])
      case Err(f) => Err(f)
      case Ok(earlier) =>
        match Field(plans[n], "displayName")
        case None => Err(Raised)
        case Some(name) => Ok(earlier + [name])
  }

  /** What one entry `name` of the directory contributes: nothing unless
      its name ends in `.json`; the items of the document otherwise, which
      raises when the path is missing, is a directory, is not JSON or holds
      no iterable. */
  function EntryPlans(t: Tree, dir: string, name: string): (r: Result<seq<Json>>)
    ensures !EndsWith(name, ".json") ==> r == Ok([])
    ensures r.Ok? && r.value != [] ==> IsFile(t, Join(dir, name)) && t[Join(dir, name)].doc.Parsed?
  {
    if !EndsWith(name, ".json") then Ok([])
    else
      var path := Join(dir, name);
      if path !in t then Err(Raised)
      else
        match t[path]
        case Directory => Err(Raised)
        case File(Unparsable, _) => Err(Raised)
        case File(Parsed(v), _) => Iterate(v)
  }

  /** The plans of the entries `listing`, in order, the first entry that
      raises ending the load. */
  function PlansOfEntries(t: Tree, dir: string, listing: seq<string>): Result<seq<Json>> {
    if listing == [] then Ok([])
    else
      var n := |listing| - 1;
      match PlansOfEntries(t, dir, listing[..n])
      case Err(f) => Err(f)
      case Ok(earlier) =>
        match EntryPlans(t, dir, listing[n])
        case Err(f) => Err(f)
        case Ok(items) => Ok(earlier + items)
  }

  /** `load_plans_from_directory(dir)`, whose entries are `listing` in
      `os.listdir` order; `os.listdir` raises when `dir` is not a directory. */
  function LoadedPlans(t: Tree, dir: string, listing: seq<string>): Result<seq<Json>> {
    if !IsDir(t, dir) then Err(Raised) else PlansOfEntries(t, dir, listing)
  }

  /** An entry whose name does not end in `.json` is skipped. */
  lemma SkipsOtherEntries(t: Tree, dir: string, listing: seq<string>, name: string)
    requires !EndsWith(name, ".json")
    ensures LoadedPlans(t, dir, listing + [name]) == LoadedPlans(t, dir, listing)
  {
    assert (listing + [name])[..|listing|] == listing;
    if IsDir(t, dir) && PlansOfEntries(t, dir, listing).Ok? {
      assert PlansOfEntries(t, dir, listing).value + [] == PlansOfEntries(t, dir, listing).value;
    }
  }

  /** Plan `p` is one of the items of entry `k`, a `.json` file. */
  predicate FromEntry(t: Tree, dir: string, listing: seq<string>, k: int, p: Json) {
    && 0 <= k < |listing|
    && EndsWith(listing[k], ".json")
    && IsFile(t, Join(dir, listing[k]))
    && EntryPlans(t, dir, listing[k]).Ok?
    && p in EntryPlans(t, dir, listing[k]).value
  }

  /** An entry that raises ends the load with its error. */
  lemma {:induction false} EntryErrorEndsLoad(t: Tree, dir: string, listing: seq<string>, m: nat)
    requires m <= |listing| && PlansOfEntries(t, dir, listing[..m]).Err?
    ensures PlansOfEntries(t, dir, listing) == PlansOfEntries(t, dir, listing[..m])
    decreases |listing| - m
  {
    if m == |listing| {
      assert listing[..m] == listing;
    } else {
      var n := |listing| - 1;
      assert listing[..n][..m] == listing[..m];
      EntryErrorEndsLoad(t, dir, listing[..n], m);
    }
  }

  /** Every loaded plan comes from a `.json` entry of the directory that is
      a file holding JSON. */
  lemma {:induction false} LoadedPlansComeFromFiles(t: Tree, dir: string, listing: seq<string>)
    requires PlansOfEntries(t, dir, listing).Ok?
    ensures forall p :: p in PlansOfEntries(t, dir, listing).value ==>
      exists k :: FromEntry(t, dir, listing, k, p)
  {
    if listing != [] {
      var n := |listing| - 1;
      LoadedPlansComeFromFiles(t, dir, listing[..n]);
      forall p | p in PlansOfEntries(t, dir, listing).value
        ensures exists k :: FromEntry(t, dir, listing, k, p)
      {
        if p in PlansOfEntries(t, dir, listing[..n]).value {
          var k :| FromEntry(t, dir, listing[..n], k, p);
          assert listing[k] == listing[..n][k];
          assert FromEntry(t, dir, listing, k, p);
        } else {
          assert FromEntry(t, dir, listing, n, p);
        }
      }
    }
  }

  /** The load of the entries `listing` raises exactly when one of them
      raises, and otherwise holds exactly the items of the entries. */
  lemma {:induction false} PlansOfEntriesMembers(t: Tree, dir: string, listing: seq<string>)
    ensures PlansOfEntries(t, dir, listing).Err?
      <==> exists k :: 0 <= k < |listing| && EntryPlans(t, dir, listing[k]).Err?
    ensures PlansOfEntries(t, dir, listing).Ok? ==> forall p :: p in PlansOfEntries(t, dir, listing).value <==>
      exists k :: 0 <= k < |listing| && EntryPlans(t, dir, listing[k]).Ok? && p in EntryPlans(t, dir, listing[k]).value
  {
    if listing != [] {
      var n := |listing| - 1;
      PlansOfEntriesMembers(t, dir, listing[..n]);
      assert forall k :: 0 <= k < n ==> listing[..n][k] == listing[k];
    }
  }

  /** Plan `p` is an item of a `.json` file of `dir`. */
  ghost predicate InJsonFile(t: Tree, dir: string, p: Json) {
    exists name :: InDir(t, dir, name) && EndsWith(name, ".json")
      && EntryPlans(t, dir, name).Ok? && p in EntryPlans(t, dir, name).value
  }

  /** Over the listing of `dir`, in whatever order `os.listdir` gives it,
      the load raises exactly when `dir` is not a directory or one of its
      entries raises, and otherwise holds exactly the items of the `.json`
      files of `dir`. */
  lemma LoadedPlansOverDirectory(t: Tree, dir: string, listing: seq<string>)
    requires ListsDir(t, dir, listing)
    ensures LoadedPlans(t, dir, listing).Err?
      <==> !IsDir(t, dir) || exists name :: InDir(t, dir, name) && EntryPlans(t, dir, name).Err?
    ensures LoadedPlans(t, dir, listing).Ok? ==>
      forall p :: p in LoadedPlans(t, dir, listing).value <==> InJsonFile(t, dir, p)
  {
    PlansOfEntriesMembers(t, dir, listing);
    if IsDir(t, dir) {
      if exists name :: InDir(t, dir, name) && EntryPlans(t, dir, name).Err? {
        var name :| InDir(t, dir, name) && EntryPlans(t, dir, name).Err?;
        var k :| 0 <= k < |listing| && listing[k] == name;
      }
      if PlansOfEntries(t, dir, listing).Ok? {
        var plans := PlansOfEntries(t, dir, listing).value;
        forall p | p in plans
          ensures InJsonFile(t, dir, p)
        {
          var k :| 0 <= k < |listing| && EntryPlans(t, dir, listing[k]).Ok? && p in EntryPlans(t, dir, listing[k]).value;
          assert InDir(t, dir, listing[k]);
        }
        forall p | InJsonFile(t, dir, p)
          ensures p in plans
        {
          var name :| InDir(t, dir, name) && EndsWith(name, ".json")
            && EntryPlans(t, dir, name).Ok? && p in EntryPlans(t, dir, name).value;
          var k :| 0 <= k < |listing| && listing[k] == name;
        }
      }
    }
  }

  /** `load_plans_from_directory`: the loop over the entries. */
  method LoadPlansFromDirectory(t: Tree, dir: string, listing: seq<string>) returns (r: Result<seq<Json>>)
    ensures r == LoadedPlans(t, dir, listing)
    ensures ListsDir(t, dir, listing) && r.Ok? ==> forall p :: p in r.value <==> InJsonFile(t, dir, p)
  {
    if ListsDir(t, dir, listing) {
      LoadedPlansOverDirectory(t, dir, listing);
    }
    if !IsDir(t, dir) {
      return Err(Raised);
    }
    var plans: seq<Json> := [];
    for k := 0 to |listing|
      invariant PlansOfEntries(t, dir, listing[..k]) == Ok(plans)
    {
      assert listing[..k + 1][..k] == listing[..k];
      var name := listing[k];
      if EndsWith(name, ".json") {
        var path := Join(dir, name);
        if path !in t || t[path].Directory? || t[path].doc.Unparsable? {
          EntryErrorEndsLoad(t, dir, listing, k + 1);
          return Err(Raised);
        }
        var items := Iterate(t[path].doc.value);
        if items.Err? {
          EntryErrorEndsLoad(t, dir, listing, k + 1);
          return Err(items.failure);
        }
        plans := plans + items.value;
      } else {
        assert plans + [] == plans;
      }
    }
    assert listing[..|listing|] == listing;
    r := Ok(plans);
  }

  /** What the search prints: the providers or the plan names. */
  datatype Answer = Providers(brands: set<Json>) | PlanNames(names: seq<Json>)

  /** `main` of electricity_plan_search.py on the catalogs under `plans`,
      for `postcode`, reporting providers when `providers` is set and plan
      names otherwise. */
  function Search(t: Tree, listing: seq<string>, postcode: string, providers: bool): (r: Result<Answer>)
    ensures r.Ok? ==> (r.value.Providers? <==> providers)
  {
    match LoadedPlans(t, "plans", listing)
    case Err(f) => Err(f)
    case Ok(plans) =>
      match FilterPlansByPostcode(plans, postcode)
      case Err(f) => Err(f)
      case Ok(filtered) =>
        if providers then
          match GetProvidersFromPlans(filtered)
          case Err(f) => Err(f)
          case Ok(brands) => Ok(Providers(brands))
        else
          match GetPlanNamesFromPlans(filtered)
          case Err(f) => Err(f)
          case Ok(names) => Ok(PlanNames(names))
  }

  /** A brand of a filtered plan is the brand of a plan that covers the
      postcode. */
  lemma ReportedBrandIsCovering(plans: seq<Json>, postcode: string, filtered: seq<Json>, brands: set<Json>, b: Json)
    requires FilterPlansByPostcode(plans, postcode) == Ok(filtered)
    requires GetProvidersFromPlans(filtered) == Ok(brands)
    requires b in brands
    ensures exists p :: p in plans && CoversPostcode(p, postcode) == Ok(true) && Field(p, "brandName") == Some(b)
  {
    FilterSelects(plans, postcode);
    var i :| 0 <= i < |filtered| && Field(filtered[i], "brandName") == Some(b);
    assert filtered[i] in filtered;
  }

  /** The brand of a plan that covers the postcode is a brand of the
      filtered plans. */
  lemma CoveringBrandIsReported(plans: seq<Json>, postcode: string, filtered: seq<Json>, brands: set<Json>,
                                p: Json, b: Json)
    requires FilterPlansByPostcode(plans, postcode) == Ok(filtered)
    requires GetProvidersFromPlans(filtered) == Ok(brands)
    requires p in plans && CoversPostcode(p, postcode) == Ok(true) && Field(p, "brandName") == Some(b)
    ensures b in brands
  {
    FilterSelects(plans, postcode);
    assert p in filtered;
    var i :| 0 <= i < |filtered| && filtered[i] == p;
  }

  /** The brands of the filtered plans are the brands of the plans that
      cover the postcode. */
  lemma ProvidersOfFiltered(plans: seq<Json>, postcode: string, filtered: seq<Json>, brands: set<Json>)
    requires FilterPlansByPostcode(plans, postcode) == Ok(filtered)
    requires GetProvidersFromPlans(filtered) == Ok(brands)
    ensures forall b :: b in brands <==>
      exists p :: p in plans && CoversPostcode(p, postcode) == Ok(true) && Field(p, "brandName") == Some(b)
  {
    forall b | b in brands
      ensures exists p :: p in plans && CoversPostcode(p, postcode) == Ok(true) && Field(p, "brandName") == Some(b)
    {
      ReportedBrandIsCovering(plans, postcode, filtered, brands, b);
    }
    forall b, p | p in plans && CoversPostcode(p, postcode) == Ok(true) && Field(p, "brandName") == Some(b)
      ensures b in brands
    {
      CoveringBrandIsReported(plans, postcode, filtered, brands, p, b);
    }
  }

  /** Every provider reported names a loaded plan that covers the postcode,
      and every such plan's brand is reported. */
  lemma SearchReportsCoveringBrands(t: Tree, listing: seq<string>, postcode: string)
    requires Search(t, listing, postcode, true).Ok?
    ensures var plans := LoadedPlans(t, "plans", listing).value;
      forall b :: b in Search(t, listing, postcode, true).value.brands <==>
        exists p :: p in plans && CoversPostcode(p, postcode) == Ok(true) && Field(p, "brandName") == Some(b)
  {
    var plans := LoadedPlans(t, "plans", listing).value;
    var filtered := FilterPlansByPostcode(plans, postcode).value;
    ProvidersOfFiltered(plans, postcode, filtered, Search(t, listing, postcode, true).value.brands);
  }

  /** The plan names reported are the display names of the loaded plans
      that cover the postcode, one per covering plan and in the order of
      the plans. */
  lemma SearchReportsCoveringNames(t: Tree, listing: seq<string>, postcode: string)
    requires Search(t, listing, postcode, false).Ok?
    ensures LoadedPlans(t, "plans", listing).Ok?
    ensures FilterPlansByPostcode(LoadedPlans(t, "plans", listing).value, postcode).Ok?
    ensures var plans := LoadedPlans(t, "plans", listing).value;
      var filtered := FilterPlansByPostcode(plans, postcode).value;
      var names := Search(t, listing, postcode, false).value.names;
      && |names| == |filtered|
      && (forall i :: 0 <= i < |filtered| ==> Field(filtered[i], "displayName") == Some(names[i]))
      && (forall p :: p in filtered <==> p in plans && CoversPostcode(p, postcode) == Ok(true))
  {
    var plans := LoadedPlans(t, "plans", listing).value;
    FilterSelects(plans, postcode);
  }

  /** Over the listing of `plans`, a brand is reported exactly when it is
      the brand of a plan in a `.json` file of `plans` that covers the
      postcode: the answer does not depend on the order of the entries. */
  lemma SearchReportsDirectoryBrands(t: Tree, listing: seq<string>, postcode: string)
    requires ListsDir(t, "plans", listing)
    requires Search(t, listing, postcode, true).Ok?
    ensures forall b :: b in Search(t, listing, postcode, true).value.brands <==>
      exists p :: InJsonFile(t, "plans", p) && CoversPostcode(p, postcode) == Ok(true) && Field(p, "brandName") == Some(b)
  {
    LoadedPlansOverDirectory(t, "plans", listing);
    SearchReportsCoveringBrands(t, listing, postcode);
  }
}
