/** The search for the brand of a plan id that the detail scripts run before
    fetching: the brand directories under a root are visited in listing
    order, each one's `plans.json` is read, and the first plan carrying the
    id gives the brand. electricity_plan_detail.py searches `plans`,
    archive/electricity_plan_detail.py searches `brands/`. */
module BrandLookup {
  import opened Wrappers
  import opened Json
  import opened Store

  /** `plan.get('planId') == planId` for a plan that is a dict. */
  predicate HasId(plan: Json, planId: string)
    requires plan.JObj?
  {
    Field(plan, "planId") == Some(JStr(planId))
  }

  /** `plan.get('brandName')` for a plan that is a dict. */
  function BrandNameOf(plan: Json): Json
    requires plan.JObj?
  {
    if "brandName" in plan.fields then plan.fields["brandName"] else JNull
  }

  /** Plan `i` is the first one with the id, and every plan before it is a
      dict without it. */
  predicate FirstWithId(plans: seq<Json>, planId: string, i: int) {
    0 <= i < |plans| && plans[i].JObj? && HasId(plans[i], planId)
    && forall j :: 0 <= j < i ==> plans[j].JObj? && !HasId(plans[j], planId)
  }

  /** Plan `i` is not a dict, and every plan before it is a dict without
      the id. */
  predicate FirstNonDict(plans: seq<Json>, planId: string, i: int) {
    0 <= i < |plans| && !plans[i].JObj?
    && forall j :: 0 <= j < i ==> plans[j].JObj? && !HasId(plans[j], planId)
  }

  /** The inner loop over one catalog: the brand name of the first plan with
      the id (None when no plan has it), or Raised when a plan reached
      before that is not a dict (`plan.get` raises AttributeError). */
  function MatchInPlans(plans: seq<Json>, planId: string): (r: Result<Option<Json>>)
    ensures r.Ok? && r.value.Some? ==>
      exists i :: FirstWithId(plans, planId, i) && r.value.value == BrandNameOf(plans[i])
    ensures r == Ok(None) ==> forall j :: 0 <= j < |plans| ==> plans[j].JObj? && !HasId(plans[j], planId)
    ensures r.Err? ==> r.failure == Raised && exists i :: FirstNonDict(plans, planId, i)
  {
    if plans == [] then Ok(None)
    else if !plans[0].JObj? then
      assert FirstNonDict(plans, planId, 0);
      Err(Raised)
    else if HasId(plans[0], planId) then
      assert FirstWithId(plans, planId, 0);
      Ok(Some(BrandNameOf(plans[0])))
    else
      var r := MatchInPlans(plans[1..], planId);
      if r.Ok? && r.value.Some? then
        var i :| FirstWithId(plans[1..], planId, i) && r.value.value == BrandNameOf(plans[1..][i]);
        assert FirstWithId(plans, planId, i + 1);
        r
      else if r.Err? then
        var i :| FirstNonDict(plans[1..], planId, i);
        assert !plans[i + 1].JObj?;
        assert FirstNonDict(plans, planId, i + 1) by {
          forall j | 0 <= j < i + 1
            ensures plans[j].JObj? && !HasId(plans[j], planId)
          {
            if j > 0 {
              assert plans[j] == plans[1..][j - 1];
            }
          }
        }
        r
      else
        assert forall j :: 0 <= j < |plans| ==> plans[j].JObj? && !HasId(plans[j], planId) by {
          forall j | 0 <= j < |plans|
            ensures plans[j].JObj? && !HasId(plans[j], planId)
          {
            if j > 0 {
              assert plans[j] == plans[1..][j - 1];
            }
          }
        }
        r
  }

  /** `for plan in plans` over a parsed `plans.json`: a list gives its plans;
      an empty dict or string gives none; the keys of a non-empty dict and
      the characters of a non-empty string are strings, on which `.get`
      raises; any other value is not iterable. */
  function CatalogMatch(plans: Json, planId: string): Result<Option<Json>> {
    match Iterate(plans)
    case Ok(items) => MatchInPlans(items, planId)
    case Err(_) => Err(Raised)
  }

  /** What one listing entry `dir` contributes: nothing when it is not a
      directory or has no `plans.json`; Raised when that path cannot be read
      as JSON. */
  function Probe(t: Tree, dir: string, planId: string): Result<Option<Json>> {
    var plansFile := Join(dir, "plans.json");
    if !IsDir(t, dir) || plansFile !in t then Ok(None)
    else
      match t[plansFile]
      case Directory => Err(Raised)
      case File(Unparsable, _) => Err(Raised)
      case File(Parsed(plans), _) => CatalogMatch(plans, planId)
  }

  /** A probe that ends the search with a brand. */
  predicate Hit(r: Result<Option<Json>>) {
    r.Ok? && r.value.Some? && Truthy(r.value.value)
  }

  /** The probes of the listing entries, in listing order. */
  function Probes(t: Tree, root: string, listing: seq<string>, planId: string): (ps: seq<Result<Option<Json>>>)
    ensures |ps| == |listing|
    ensures forall k :: 0 <= k < |listing| ==> ps[k] == Probe(t, Join(root, listing[k]), planId)
  {
    seq(|listing|, k requires 0 <= k < |listing| => Probe(t, Join(root, listing[k]), planId))
  }

  /** The outer loop over the probes `ps` of the remaining entries, `brand`
      holding the value found so far: it stops at the first error and at
      the first truthy brand. */
  function LookupOver(ps: seq<Result<Option<Json>>>, brand: Json): Result<Json> {
    if ps == [] then Ok(brand)
    else
      match ps[0]
      case Err(f) => Err(f)
      case Ok(found) =>
        var b := if found.Some? then found.value else brand;
        if Truthy(b) then Ok(b) else LookupOver(ps[1..], b)
  }

  /** The search of the detail scripts under `root`, whose entries are
      `listing` in `os.listdir` order; `os.listdir` raises when `root` is not
      a directory. The result is the final value of `brand`. */
  function FindBrand(t: Tree, root: string, listing: seq<string>, planId: string): Result<Json> {
    if !IsDir(t, root) then Err(Raised) else LookupOver(Probes(t, root, listing, planId), JNull)
  }

  /** Probe `k` is the first that finds a brand, and every probe before it
      ran without error. */
  predicate FirstHitAt(ps: seq<Result<Option<Json>>>, k: int) {
    && 0 <= k < |ps|
    && Hit(ps[k])
    && forall j :: 0 <= j < k ==> ps[j].Ok? && !Hit(ps[j])
  }

  /** Probe `k` is the first that raises, and no probe before it found a
      brand. */
  predicate FirstErrAt(ps: seq<Result<Option<Json>>>, k: int) {
    && 0 <= k < |ps|
    && ps[k].Err?
    && forall j :: 0 <= j < k ==> ps[j].Ok? && !Hit(ps[j])
  }

  /** The search returns the brand of the first entry that has one. */
  lemma {:induction false} LookupReachesFirstHit(ps: seq<Result<Option<Json>>>, brand: Json, k: int)
    requires !Truthy(brand) && FirstHitAt(ps, k)
    ensures LookupOver(ps, brand) == Ok(ps[k].value.value)
    decreases k
  {
    if k > 0 {
      var b := if ps[0].value.Some? then ps[0].value.value else brand;
      assert FirstHitAt(ps[1..], k - 1);
      LookupReachesFirstHit(ps[1..], b, k - 1);
    }
  }

  /** A truthy brand comes from the first entry that has one. */
  lemma {:induction false} LookupHitIsFirst(ps: seq<Result<Option<Json>>>, brand: Json)
    requires !Truthy(brand)
    requires LookupOver(ps, brand).Ok? && Truthy(LookupOver(ps, brand).value)
    ensures exists k :: FirstHitAt(ps, k) && LookupOver(ps, brand).value == ps[k].value.value
  {
    if Hit(ps[0]) {
      assert FirstHitAt(ps, 0);
    } else {
      var b := if ps[0].value.Some? then ps[0].value.value else brand;
      LookupHitIsFirst(ps[1..], b);
      var k :| FirstHitAt(ps[1..], k) && LookupOver(ps[1..], b).value == ps[1..][k].value.value;
      assert FirstHitAt(ps, k + 1);
    }
  }

  /** The search ends with a falsy brand only when every entry is searched
      without error and none has a brand. */
  lemma {:induction false} LookupMissPassesAll(ps: seq<Result<Option<Json>>>, brand: Json)
    requires LookupOver(ps, brand).Ok? && !Truthy(LookupOver(ps, brand).value)
    ensures forall k :: 0 <= k < |ps| ==> ps[k].Ok? && !Hit(ps[k])
  {
    if ps != [] {
      var b := if ps[0].value.Some? then ps[0].value.value else brand;
      LookupMissPassesAll(ps[1..], b);
      assert forall k :: 1 <= k < |ps| ==> ps[k] == ps[1..][k - 1];
    }
  }

  /** The search ends in an error exactly at the first probe that raises,
      with no brand found before it. */
  lemma {:induction false} LookupErrIsFirst(ps: seq<Result<Option<Json>>>, brand: Json)
    requires !Truthy(brand) && LookupOver(ps, brand).Err?
    ensures exists k :: FirstErrAt(ps, k) && LookupOver(ps, brand).failure == ps[k].failure
  {
    if ps[0].Ok? {
      var b := if ps[0].value.Some? then ps[0].value.value else brand;
      LookupErrIsFirst(ps[1..], b);
      var k :| FirstErrAt(ps[1..], k) && LookupOver(ps[1..], b).failure == ps[1..][k].failure;
      assert FirstErrAt(ps, k + 1);
    } else {
      assert FirstErrAt(ps, 0);
    }
  }

  /** The probe of entry `name` of `root` runs without error and finds no
      brand. */
  predicate Misses(t: Tree, root: string, name: string, planId: string) {
    Probe(t, Join(root, name), planId).Ok? && !Hit(Probe(t, Join(root, name), planId))
  }

  /** When no probe raises or finds a brand, the search ends with the
      falsy brand it started with or one a probe gave. */
  lemma {:induction false} LookupAllMiss(ps: seq<Result<Option<Json>>>, brand: Json)
    requires !Truthy(brand)
    requires forall k :: 0 <= k < |ps| ==> ps[k].Ok? && !Hit(ps[k])
    ensures LookupOver(ps, brand).Ok? && !Truthy(LookupOver(ps, brand).value)
  {
    if ps != [] {
      var b := if ps[0].value.Some? then ps[0].value.value else brand;
      assert forall k :: 0 <= k < |ps| - 1 ==> ps[1..][k] == ps[k + 1];
      LookupAllMiss(ps[1..], b);
    }
  }

  /** Over the listing of `root`, in whatever order `os.listdir` gives it,
      the search ends without a brand exactly when `root` is a directory and
      every entry of it is searched without error and without a brand; a
      brand it finds is the one an entry of `root` gave. */
  lemma FindBrandOverDirectory(t: Tree, root: string, listing: seq<string>, planId: string)
    requires ListsDir(t, root, listing)
    ensures (FindBrand(t, root, listing, planId).Ok? && !Truthy(FindBrand(t, root, listing, planId).value))
      <==> IsDir(t, root) && forall name :: InDir(t, root, name) ==> Misses(t, root, name, planId)
    ensures FindBrand(t, root, listing, planId).Ok? && Truthy(FindBrand(t, root, listing, planId).value) ==>
      exists name :: InDir(t, root, name)
        && Probe(t, Join(root, name), planId) == Ok(Some(FindBrand(t, root, listing, planId).value))
  {
    var r := FindBrand(t, root, listing, planId);
    if IsDir(t, root) {
      var ps := Probes(t, root, listing, planId);
      if r.Ok? && !Truthy(r.value) {
        LookupMissPassesAll(ps, JNull);
        forall name | InDir(t, root, name)
          ensures Misses(t, root, name, planId)
        {
          var k :| 0 <= k < |listing| && listing[k] == name;
          assert ps[k] == Probe(t, Join(root, name), planId);
        }
      }
      if forall name :: InDir(t, root, name) ==> Misses(t, root, name, planId) {
        forall k | 0 <= k < |ps|
          ensures ps[k].Ok? && !Hit(ps[k])
        {
          assert Misses(t, root, listing[k], planId);
        }
        LookupAllMiss(ps, JNull);
      }
      if r.Ok? && Truthy(r.value) {
        LookupHitIsFirst(ps, JNull);
        var k :| FirstHitAt(ps, k) && r.value == ps[k].value.value;
        assert InDir(t, root, listing[k]);
      }
    }
  }

  /** The search in the detail scripts' `main`: the outer loop over the
      listing and the inner loop over one catalog, each left by `break`. */
  method FindBrandIn(t: Tree, root: string, listing: seq<string>, planId: string) returns (r: Result<Json>)
    ensures r == FindBrand(t, root, listing, planId)
  {
    if !IsDir(t, root) {
      return Err(Raised);
    }
    ghost var ps := Probes(t, root, listing, planId);
    var brand := JNull;
    var k := 0;
    while k < |listing|
      invariant 0 <= k <= |listing|
      invariant !Truthy(brand)
      invariant LookupOver(ps, JNull) == LookupOver(ps[k..], brand)
    {
      ghost var before := brand;
      ghost var probe: Result<Option<Json>> := Ok(None);
      var brandPath := Join(root, listing[k]);
      if IsDir(t, brandPath) {
        var plansFile := Join(brandPath, "plans.json");
        if plansFile in t {
          var node := t[plansFile];
          if node.Directory? || node.doc.Unparsable? {
            assert Probe(t, brandPath, planId).Err?;
            return Err(Raised);
          }
          var items := Iterate(node.doc.value);
          if items.Err? {
            assert Probe(t, brandPath, planId).Err?;
            return Err(Raised);
          }
          var plans := items.value;
          assert Probe(t, brandPath, planId) == MatchInPlans(plans, planId);
          var i := 0;
          while i < |plans|
            invariant 0 <= i <= |plans|
            invariant MatchInPlans(plans, planId) == MatchInPlans(plans[i..], planId)
            invariant brand == before && probe == Ok(None)
          {
            var plan := plans[i];
            assert plans[i..][1..] == plans[i + 1..];
            if !plan.JObj? {
              assert Probe(t, brandPath, planId).Err?;
              return Err(Raised);
            }
            if Field(plan, "planId") == Some(JStr(planId)) {
              brand := BrandNameOf(plan);
              probe := Ok(Some(brand));
              break;
            }
            i := i + 1;
          }
          assert Probe(t, brandPath, planId) == probe;
        }
      }
      assert ps[k..][1..] == ps[k + 1..];
      assert brand == if probe.value.Some? then probe.value.value else before;
      assert ps[k] == probe;
      if Truthy(brand) {
        return Ok(brand);
      }
      k := k + 1;
    }
    return Ok(brand);
  }
}
