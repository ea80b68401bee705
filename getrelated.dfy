/**
 * Related-entity queries of the ftrack manager: the three batch entry points
 * (one reference with many specifications, many references with one
 * specification, and pairs of both), the single query that dispatches on the
 * specification type, and the shot, workflow and parent-grouping relations.
 */
module GetRelated {
  import opened Wrappers
  import opened Text
  import opened Seqs
  import opened Ftrack
  import opened Utils
  import opened AssetApi

  /** `[e.getEntityRef() for e in es]`. */
  function Refs(es: seq<Entity>): seq<string>
  {
    seq(|es|, i requires 0 <= i < |es| => EntityRef(es[i]))
  }

  /** Python truth of an optional string: present and non-empty. */
  predicate Truthy(o: Option<string>)
  {
    o.Some? && o.value != ""
  }

  // ---------------------------------------------------------------------------
  // Shots

  /**
   * `getRelatedShots`: a Sequence gives its child contexts (or the first one
   * with the hinted name); an asset, version or component gives the shot
   * above it, when no name is hinted or the shot has the hinted name.
   */
  function ShotRefs(store: Store, obj: Entity, spec: Specification): (r: seq<string>)
    requires ValidStore(store) && InStore(store, obj)
    ensures var hint := GetField(spec, HintNameField, None);
      var cs := ContextChildren(store, obj);
      ObjectType(Some(obj)) == "Sequence" && Truthy(hint) ==>
        |r| <= 1
        && (r != [] <==> exists i :: 0 <= i < |cs| && cs[i].name == hint)
        && (r != [] ==> exists c :: c in cs && r == [EntityRef(c)] && c.name == hint)
    ensures var t := ObjectType(Some(obj));
      t == "Asset" || t == "AssetVersion" || t == "Component" ==>
        var hint := GetField(spec, HintNameField, None);
        var shot := ShotOf(store, Some(obj));
        r == (if shot.Some? && (!Truthy(hint) || shot.value.name == hint) then [EntityRef(shot.value)] else [])
    ensures var t := ObjectType(Some(obj));
      t != "Sequence" && t != "Asset" && t != "AssetVersion" && t != "Component" ==> r == []
    ensures ObjectType(Some(obj)) == "Sequence" && !Truthy(GetField(spec, HintNameField, None)) ==>
      r == Refs(ContextChildren(store, obj))
  {
    var hint := GetField(spec, HintNameField, None);
    var t := ObjectType(Some(obj));
    if t == "Sequence" then
      var children := ContextChildren(store, obj);
      if Truthy(hint) then
        match FindNamed(children, hint.value)
        case Some(m) => [EntityRef(m)]
        case None => []
      else Refs(children)
    else if t == "Asset" || t == "AssetVersion" || t == "Component" then
      var shot := ShotOf(store, Some(obj));
      if shot.Some? && (!Truthy(hint) || shot.value.name == hint) then [EntityRef(shot.value)] else []
    else []
  }

  /** With a name hint, a Sequence gives the first of its child contexts carrying that name. */
  lemma ShotRefsFirstHinted(store: Store, obj: Entity, spec: Specification, i: nat)
    requires ValidStore(store) && InStore(store, obj)
    requires ObjectType(Some(obj)) == "Sequence" && Truthy(GetField(spec, HintNameField, None))
    requires i < |ContextChildren(store, obj)| && ContextChildren(store, obj)[i].name == GetField(spec, HintNameField, None)
    requires forall j :: 0 <= j < i ==> ContextChildren(store, obj)[j].name != GetField(spec, HintNameField, None)
    ensures ShotRefs(store, obj, spec) == [EntityRef(ContextChildren(store, obj)[i])]
  {
    FindNamedFirst(ContextChildren(store, obj), GetField(spec, HintNameField, None).value, i);
  }

  /**
   * The tasks proper and the assets listed under a Sequence are not among its
   * shots: when its raw listing holds nothing else, it has no related shot.
   */
  lemma ShotRefsSkipsTasksAndAssets(store: Store, obj: Entity, spec: Specification)
    requires ValidStore(store) && InStore(store, obj)
    requires ObjectType(Some(obj)) == "Sequence"
    requires forall i :: 0 <= i < |Children(store, obj)| ==>
      Children(store, obj)[i].objectType == Some("Task") || Children(store, obj)[i].cls == AssetClass
    ensures ShotRefs(store, obj, spec) == []
  {
    ContextsOfNone(Children(store, obj));
  }

  /** A Sequence whose raw listing holds only shots (or other contexts) gives all of them, in order. */
  lemma ShotRefsAllContexts(store: Store, obj: Entity, spec: Specification)
    requires ValidStore(store) && InStore(store, obj)
    requires ObjectType(Some(obj)) == "Sequence" && !Truthy(GetField(spec, HintNameField, None))
    requires forall i :: 0 <= i < |Children(store, obj)| ==> IsContext(Children(store, obj)[i])
    ensures ShotRefs(store, obj, spec) == Refs(Children(store, obj))
  {
    ContextsOfContexts(Children(store, obj));
  }

  // ---------------------------------------------------------------------------
  // Workflow relations

  /** `getCriteria()` of the workflow relationship widget: '<version>,<task type reference>'. */
  function Criteria(version: string, taskTypeRef: string): string
  {
    version + "," + taskTypeRef
  }

  /** The criteria string splits back into the version keyword and the task type reference. */
  lemma CriteriaRoundTrip(version: string, taskTypeRef: string)
    requires ',' !in version && ',' !in taskTypeRef
    ensures Split(Criteria(version, taskTypeRef), ',') == [version, taskTypeRef]
  {
    assert Join([version, taskTypeRef], [',']) == Criteria(version, taskTypeRef) by {
      assert Join([version, taskTypeRef][1..], [',']) == taskTypeRef;
    }
    SplitJoin([version, taskTypeRef], ',');
  }

  /** Whether a version's status is 'Approved'. */
  predicate Approved(v: Entity)
  {
    "status" in v.fields && v.fields["status"] == "Approved"
  }

  /** The position of the newest approved version: the first approved one walking `reversed(versions)`. */
  function LatestApprovedIndex(vs: seq<Entity>): (r: Option<nat>)
    ensures r.None? <==> forall i :: 0 <= i < |vs| ==> !Approved(vs[i])
    ensures r.Some? ==> r.value < |vs| && Approved(vs[r.value])
    ensures r.Some? ==> forall j :: r.value < j < |vs| ==> !Approved(vs[j])
  {
    if vs == [] then None
    else if Approved(vs[|vs| - 1]) then Some(|vs| - 1)
    else LatestApprovedIndex(vs[..|vs| - 1])
  }

  /** The newest approved version, if any. */
  function LatestApproved(vs: seq<Entity>): (r: Option<Entity>)
    ensures r.None? <==> forall i :: 0 <= i < |vs| ==> !Approved(vs[i])
    ensures r.Some? ==> r.value in vs && Approved(r.value)
  {
    match LatestApprovedIndex(vs)
    case None => None
    case Some(k) => Some(vs[k])
  }

  /** The version keywords of the workflow criteria. */
  const LatestKeyword := "latest"
  const LatestApprovedKeyword := "latestapproved"

  /** The version of an asset whose components are returned: the last, or the newest approved. */
  function TargetVersion(vs: seq<Entity>, version: string): (r: Option<Entity>)
    ensures r.Some? ==> r.value in vs
    ensures version == LatestKeyword && vs != [] ==> r == Some(vs[|vs| - 1])
    ensures version != LatestKeyword && version != LatestApprovedKeyword ==> r.None?
    ensures version == LatestApprovedKeyword ==> r == LatestApproved(vs)
  {
    if vs == [] then None
    else if version == LatestKeyword then Some(Last(vs))
    else if version == LatestApprovedKeyword then LatestApproved(vs)
    else None
  }

  /** `component.getMeta('img_main')` is truthy. */
  predicate IsImgMain(c: Entity)
  {
    "img_main" in c.meta && c.meta["img_main"] != ""
  }

  /** The references of the `img_main` components, in order. */
  function ImgMainRefs(comps: seq<Entity>): (r: seq<string>)
    ensures |r| <= |comps|
    ensures forall i :: 0 <= i < |r| ==> exists j :: 0 <= j < |comps| && IsImgMain(comps[j]) && r[i] == EntityRef(comps[j])
    ensures (forall j :: 0 <= j < |comps| ==> IsImgMain(comps[j])) ==> |r| == |comps|
    ensures forall j :: 0 <= j < |comps| && IsImgMain(comps[j]) ==> EntityRef(comps[j]) in r
    ensures |comps| == 1 ==> r == (if IsImgMain(comps[0]) then [EntityRef(comps[0])] else [])
  {
    if comps == [] then []
    else
      var rest := ImgMainRefs(comps[1..]);
      assert forall j :: 0 <= j < |comps| - 1 ==> comps[1..][j] == comps[j + 1];
      if IsImgMain(comps[0]) then [EntityRef(comps[0])] + rest else rest
  }

  /** The references of a concatenation are those of each part in turn: the order of the components is kept. */
  lemma {:induction false} ImgMainRefsAppend(a: seq<Entity>, b: seq<Entity>)
    ensures ImgMainRefs(a + b) == ImgMainRefs(a) + ImgMainRefs(b)
    decreases |a|
  {
    if a == [] {
      assert a + b == b;
    } else {
      assert (a + b)[0] == a[0];
      assert (a + b)[1..] == a[1..] + b;
      ImgMainRefsAppend(a[1..], b);
      if IsImgMain(a[0]) {
        AppendAssoc([EntityRef(a[0])], ImgMainRefs(a[1..]), ImgMainRefs(b));
      }
    }
  }

  /** What one asset contributes: the `img_main` components of its target version. */
  function AssetRefs(store: Store, asset: Entity, version: string): seq<string>
    requires ValidStore(store) && InStore(store, asset)
  {
    match TargetVersion(Versions(store, asset), version)
    case None => []
    case Some(v) => ImgMainRefs(Components(store, v))
  }

  function RefsOfAssets(store: Store, assets: seq<Entity>, version: string): seq<string>
    requires ValidStore(store) && forall i :: 0 <= i < |assets| ==> InStore(store, assets[i])
  {
    if assets == [] then [] else AssetRefs(store, assets[0], version) + RefsOfAssets(store, assets[1..], version)
  }

  /** The 'img' assets under a task, as `task.getAssets(assetTypes=['img'])` lists them. */
  function ImgAssets(store: Store, task: Entity): (r: seq<Entity>)
    requires ValidStore(store) && InStore(store, task)
    ensures forall i :: 0 <= i < |r| ==> InStore(store, r[i]) && r[i].cls == AssetClass && r[i].assetType == "img"
  {
    AssetsOfType(Children(store, task), "img")
  }

  /**
   * `getRefsFromTasks` as intended: for every 'img' asset under every task, in
   * order, the `img_main` components of the version the keyword selects
   * ('latest': the last version, 'latestapproved': the newest approved one);
   * an asset without such a version contributes nothing.
   */
  function RefsOfTasks(store: Store, tasks: seq<Entity>, version: string): seq<string>
    requires ValidStore(store) && forall i :: 0 <= i < |tasks| ==> InStore(store, tasks[i])
  {
    if tasks == [] then []
    else RefsOfAssets(store, ImgAssets(store, tasks[0]), version) + RefsOfTasks(store, tasks[1..], version)
  }

  /** The 'img' assets of all the tasks, in the order the loops visit them. */
  function AllImgAssets(store: Store, tasks: seq<Entity>): (r: seq<Entity>)
    requires ValidStore(store) && forall i :: 0 <= i < |tasks| ==> InStore(store, tasks[i])
    ensures forall i :: 0 <= i < |r| ==> InStore(store, r[i])
  {
    if tasks == [] then [] else ImgAssets(store, tasks[0]) + AllImgAssets(store, tasks[1..])
  }

  lemma {:induction false} RefsOfAssetsAppend(store: Store, a: seq<Entity>, b: seq<Entity>, version: string)
    requires ValidStore(store)
    requires forall i :: 0 <= i < |a| ==> InStore(store, a[i])
    requires forall i :: 0 <= i < |b| ==> InStore(store, b[i])
    ensures RefsOfAssets(store, a + b, version) == RefsOfAssets(store, a, version) + RefsOfAssets(store, b, version)
    decreases |a|
  {
    if a == [] {
      assert a + b == b;
    } else {
      assert (a + b)[0] == a[0];
      assert (a + b)[1..] == a[1..] + b;
      RefsOfAssetsAppend(store, a[1..], b, version);
      var head := AssetRefs(store, a[0], version);
      assert RefsOfAssets(store, a + b, version) == head + RefsOfAssets(store, a[1..] + b, version);
      AppendAssoc(head, RefsOfAssets(store, a[1..], version), RefsOfAssets(store, b, version));
    }
  }

  /** Walking the tasks then their assets is walking the flat list of their assets. */
  lemma {:induction false} RefsOfTasksFlat(store: Store, tasks: seq<Entity>, version: string)
    requires ValidStore(store) && forall i :: 0 <= i < |tasks| ==> InStore(store, tasks[i])
    ensures RefsOfTasks(store, tasks, version) == RefsOfAssets(store, AllImgAssets(store, tasks), version)
    decreases |tasks|
  {
    if tasks != [] {
      RefsOfTasksFlat(store, tasks[1..], version);
      RefsOfAssetsAppend(store, ImgAssets(store, tasks[0]), AllImgAssets(store, tasks[1..]), version);
    }
  }

  /** `getRefsFromTasks`, with the version keyword kept apart from the loop variables. */
  method GetRefsFromTasks(store: Store, tasks: seq<Entity>, version: string) returns (refs: seq<string>)
    requires ValidStore(store) && forall i :: 0 <= i < |tasks| ==> InStore(store, tasks[i])
    ensures refs == RefsOfTasks(store, tasks, version)
  {
    refs := [];
    var i := 0;
    while i < |tasks|
      invariant 0 <= i <= |tasks|
      invariant RefsOfTasks(store, tasks, version) == refs + RefsOfTasks(store, tasks[i..], version)
    {
      assert tasks[i..][1..] == tasks[i + 1..];
      ghost var refs0 := refs;
      var assets := ImgAssets(store, tasks[i]);
      refs := AppendAssetsRefs(store, refs, assets, version);
      AppendAssoc(refs0, RefsOfAssets(store, assets, version), RefsOfTasks(store, tasks[i + 1..], version));
      i := i + 1;
    }
    assert tasks[i..] == [];
  }

  /** The loop of `getRefsFromTasks` over the 'img' assets of one task. */
  method AppendAssetsRefs(store: Store, refs0: seq<string>, assets: seq<Entity>, version: string) returns (refs: seq<string>)
    requires ValidStore(store) && forall i :: 0 <= i < |assets| ==> InStore(store, assets[i])
    ensures refs == refs0 + RefsOfAssets(store, assets, version)
  {
    refs := refs0;
    var j := 0;
    while j < |assets|
      invariant 0 <= j <= |assets|
      invariant refs0 + RefsOfAssets(store, assets, version) == refs + RefsOfAssets(store, assets[j..], version)
    {
      assert assets[j..][1..] == assets[j + 1..];
      ghost var refs1 := refs;
      refs := AppendAssetRefs(store, refs, assets[j], version);
      AppendAssoc(refs1, AssetRefs(store, assets[j], version), RefsOfAssets(store, assets[j + 1..], version));
      j := j + 1;
    }
    assert assets[j..] == [];
  }

  /** One asset in `getRefsFromTasks`: the version the keyword selects, then its `img_main` components. */
  method AppendAssetRefs(store: Store, refs0: seq<string>, asset: Entity, version: string) returns (refs: seq<string>)
    requires ValidStore(store) && InStore(store, asset)
    ensures refs == refs0 + AssetRefs(store, asset, version)
  {
    var target := TargetVersion(Versions(store, asset), version);
    if target.Some? {
      refs := AppendImgMain(refs0, Components(store, target.value));
    } else {
      refs := refs0;
    }
  }

  /** The innermost loop of `getRefsFromTasks`: appends the `img_main` components' references. */
  method AppendImgMain(refs0: seq<string>, comps: seq<Entity>) returns (refs: seq<string>)
    ensures refs == refs0 + ImgMainRefs(comps)
  {
    refs := refs0;
    var k := 0;
    while k < |comps|
      invariant 0 <= k <= |comps|
      invariant refs0 + ImgMainRefs(comps) == refs + ImgMainRefs(comps[k..])
    {
      assert comps[k..][1..] == comps[k + 1..];
      if IsImgMain(comps[k]) {
        AppendAssoc(refs, [EntityRef(comps[k])], ImgMainRefs(comps[k + 1..]));
        refs := refs + [EntityRef(comps[k])];
      }
      k := k + 1;
    }
    assert comps[k..] == [];
  }

  // The code as written: `version` is also the loop variable of the
  // 'latestapproved' search, and `targetVersion` survives from one asset to
  // the next.

  /** The variable `version`: still the keyword string, or rebound to a version object. */
  datatype VersionVar = Keyword(s: string) | Bound(v: Entity)

  /** One asset of `getRefsFromTasks` as written: its refs and the two variables after it. */
  function AsWrittenAsset(store: Store, asset: Entity, version: VersionVar, target: Option<Entity>)
    : (r: Result<(seq<string>, VersionVar, Option<Entity>)>)
    requires ValidStore(store) && InStore(store, asset)
    requires target.Some? ==> InStore(store, target.value)
    ensures r.Success? && r.value.2.Some? ==> InStore(store, r.value.2.value)
  {
    var vs := Versions(store, asset);
    if vs == [] then Success(([], version, target))
    else
      var (version', target') :=
        if version == Keyword(LatestKeyword) then (version, Some(Last(vs)))
        else if version == Keyword(LatestApprovedKeyword) then
          match LatestApproved(vs)
          case Some(v) => (Bound(v), Some(v))
          case None => (Bound(vs[0]), target)
        else (version, target);
      if target'.None? then Failure(RuntimeFault("local variable 'targetVersion' referenced before assignment"))
      else Success((ImgMainRefs(Components(store, target'.value)), version', target'))
  }

  /** `getRefsFromTasks` as written, over the flat list of 'img' assets. */
  function AsWritten(store: Store, assets: seq<Entity>, version: VersionVar, target: Option<Entity>): Result<seq<string>>
    requires ValidStore(store) && forall i :: 0 <= i < |assets| ==> InStore(store, assets[i])
    requires target.Some? ==> InStore(store, target.value)
  {
    if assets == [] then Success([])
    else
      var (refs, version', target') :- AsWrittenAsset(store, assets[0], version, target);
      var rest :- AsWritten(store, assets[1..], version', target');
      Success(refs + rest)
  }

  /** With the keyword 'latest', the code as written does what is intended. */
  lemma {:induction false} AsWrittenLatest(store: Store, assets: seq<Entity>, target: Option<Entity>)
    requires ValidStore(store) && forall i :: 0 <= i < |assets| ==> InStore(store, assets[i])
    requires target.Some? ==> InStore(store, target.value)
    ensures AsWritten(store, assets, Keyword(LatestKeyword), target) == Success(RefsOfAssets(store, assets, LatestKeyword))
    decreases |assets|
  {
    if assets != [] {
      var vs := Versions(store, assets[0]);
      var next := if vs == [] then target else Some(Last(vs));
      AsWrittenLatest(store, assets[1..], next);
    }
  }

  /** The first 'latestapproved' asset with an approved version rebinds `version` to that version. */
  lemma AsWrittenSelects(store: Store, a: Entity, target: Option<Entity>)
    requires ValidStore(store) && InStore(store, a)
    requires target.Some? ==> InStore(store, target.value)
    requires LatestApproved(Versions(store, a)).Some?
    ensures var v := LatestApproved(Versions(store, a)).value;
      AsWrittenAsset(store, a, Keyword(LatestApprovedKeyword), target)
        == Success((ImgMainRefs(Components(store, v)), Bound(v), Some(v)))
  {
    assert |LatestApprovedKeyword| != |LatestKeyword|;
  }

  /** Once `version` is a version object, every later asset reuses the previous target version. */
  lemma AsWrittenKeepsBound(store: Store, a: Entity, v: Entity, t: Entity)
    requires ValidStore(store) && InStore(store, a) && InStore(store, t)
    requires Versions(store, a) != []
    ensures AsWrittenAsset(store, a, Bound(v), Some(t)) == Success((ImgMainRefs(Components(store, t)), Bound(v), Some(t)))
  {
  }

  /**
   * With 'latestapproved', the second asset reuses the version chosen for the
   * first: the first asset's components come back twice and the second's
   * never, while the intended result has each asset's own (`RefsOfTwoAssets`).
   */
  lemma AsWrittenLatestApprovedRepeats(store: Store, a1: Entity, a2: Entity, v1: Entity)
    requires ValidStore(store) && InStore(store, a1) && InStore(store, a2)
    requires InStore(store, v1) && LatestApproved(Versions(store, a1)) == Some(v1) && Versions(store, a2) != []
    ensures var r1 := ImgMainRefs(Components(store, v1));
      AsWritten(store, [a1, a2], Keyword(LatestApprovedKeyword), None) == Success(r1 + r1)
  {
    AsWrittenSelects(store, a1, None);
    AsWrittenSecond(store, a2, v1);
    PairCons(a1, a2);
    AsWrittenCons(store, a1, [a2], Keyword(LatestApprovedKeyword), None);
  }

  /** The second asset, with `v1` already bound, yields `v1`'s references. */
  lemma AsWrittenSecond(store: Store, a2: Entity, v1: Entity)
    requires ValidStore(store) && InStore(store, a2) && InStore(store, v1) && Versions(store, a2) != []
    ensures AsWritten(store, [a2], Bound(v1), Some(v1)) == Success(ImgMainRefs(Components(store, v1)))
  {
    AsWrittenKeepsBound(store, a2, v1, v1);
    assert AsWritten(store, [], Bound(v1), Some(v1)) == Success([]);
    SingletonCons(a2);
    AppendEmpty(ImgMainRefs(Components(store, v1)));
    AsWrittenCons(store, a2, [], Bound(v1), Some(v1));
  }

  /** The code as written on a non-empty list: the first asset's step, then the rest with the variables it leaves. */
  lemma AsWrittenCons(store: Store, a: Entity, rest: seq<Entity>, version: VersionVar, target: Option<Entity>)
    requires ValidStore(store) && InStore(store, a) && forall i :: 0 <= i < |rest| ==> InStore(store, rest[i])
    requires target.Some? ==> InStore(store, target.value)
    requires AsWrittenAsset(store, a, version, target).Success?
    ensures var step := AsWrittenAsset(store, a, version, target).value;
      var tail := AsWritten(store, rest, step.1, step.2);
      AsWritten(store, [a] + rest, version, target)
        == if tail.Success? then Success(step.0 + tail.value) else Failure(tail.error)
  {
    assert ([a] + rest)[0] == a;
    assert ([a] + rest)[1..] == rest;
  }

  /** The intended result on two assets: each asset's own references, in order. */
  lemma RefsOfTwoAssets(store: Store, a1: Entity, a2: Entity, version: string)
    requires ValidStore(store) && InStore(store, a1) && InStore(store, a2)
    ensures RefsOfAssets(store, [a1, a2], version) == AssetRefs(store, a1, version) + AssetRefs(store, a2, version)
  {
    assert [a1, a2][1..] == [a2];
    assert [a2][1..] == [];
    assert RefsOfAssets(store, [a2], version) == AssetRefs(store, a2, version) + [];
  }



  /** With 'latestapproved' and a first asset that has no approved version, the code as written raises. */
  lemma AsWrittenUnbound(store: Store, a1: Entity, rest: seq<Entity>)
    requires ValidStore(store) && InStore(store, a1) && forall i :: 0 <= i < |rest| ==> InStore(store, rest[i])
    requires Versions(store, a1) != [] && LatestApproved(Versions(store, a1)).None?
    ensures AsWritten(store, [a1] + rest, Keyword(LatestApprovedKeyword), None).Failure?
  {
    assert ([a1] + rest)[0] == a1;
  }

  /**
   * `getWorkflowRelations`: the criteria '<version>,<task type reference>'
   * select tasks of that type under a task, or under the shot of a component.
   */
  function Workflow(store: Store, obj: Entity, spec: Specification): (r: Result<seq<string>>)
    requires ValidStore(store) && InStore(store, obj)
    ensures !Truthy(GetField(spec, "criteria", None)) ==> r.Failure? && r.error.ValueError?
    ensures Truthy(GetField(spec, "criteria", None)) && ',' !in GetField(spec, "criteria", None).value ==> r.Failure?
    ensures obj.cls != TaskClass && obj.cls != ComponentClass && r.Success? ==> r.value == []
    ensures var criteria := GetField(spec, "criteria", None);
      Truthy(criteria) && ',' in criteria.value ==>
        var parts := Split(criteria.value, ',');
        |parts| >= 2
        && (Lookup(store, parts[1]).Failure? ==> r == Failure(Lookup(store, parts[1]).error))
        && (Lookup(store, parts[1]).Success? ==>
              var typeName := ObjectName(Some(Lookup(store, parts[1]).value));
              && (obj.cls == TaskClass ==>
                    r == Success(RefsOfTasks(store, TasksOfType(Children(store, obj), typeName), parts[0])))
              && (obj.cls == ComponentClass && ShotOfComponent(store, obj).Some? ==>
                    r == Success(RefsOfTasks(store, TasksOfType(Children(store, ShotOfComponent(store, obj).value), typeName), parts[0])))
              && (obj.cls == ComponentClass && ShotOfComponent(store, obj).None? ==> r.Failure? && r.error.RuntimeFault?))
  {
    var criteria := GetField(spec, "criteria", None);
    if !Truthy(criteria) then Failure(ValueError("No criteria specified with Workflow Specification"))
    else
      var parts := Split(criteria.value, ',');
      SplitNoSeparator(criteria.value, ',');
      if |parts| < 2 then Failure(RuntimeFault("list index out of range"))
      else
        var version := parts[0];
        var taskType :- Lookup(store, parts[1]);
        var typeName := ObjectName(Some(taskType));
        if obj.cls == TaskClass then
          Success(RefsOfTasks(store, TasksOfType(Children(store, obj), typeName), version))
        else if obj.cls == ComponentClass then
          var v := Parent(store, obj);
          if v.None? then Failure(RuntimeFault("'NoneType' object has no attribute 'getAsset'"))
          else
            var a := Parent(store, v.value);
            if a.None? then Failure(RuntimeFault("'NoneType' object has no attribute 'getParent'"))
            else
              var shot := Parent(store, a.value);
              if shot.None? then Failure(RuntimeFault("'NoneType' object has no attribute 'getTasks'"))
              else Success(RefsOfTasks(store, TasksOfType(Children(store, shot.value), typeName), version))
        else Success([])
  }

  /** `component.getVersion().getAsset().getParent()`, when each step has a parent. */
  function ShotOfComponent(store: Store, c: Entity): (r: Option<Entity>)
    requires ValidStore(store) && InStore(store, c)
    ensures r.Some? ==> InStore(store, r.value)
  {
    var v := Parent(store, c);
    if v.None? then None
    else
      var a := Parent(store, v.value);
      if a.None? then None else Parent(store, a.value)
  }

  /** A string splits into fewer than two parts exactly when it holds no separator. */
  lemma SplitNoSeparator(s: string, c: char)
    ensures |Split(s, c)| < 2 <==> c !in s
  {
    if c in s {
      var i :| 0 <= i < |s| && s[i] == c;
      SplitAt(s, c, i);
    } else {
      SplitNone(s, c);
    }
  }

  lemma {:induction false} SplitAt(s: string, c: char, i: nat)
    requires i < |s| && s[i] == c
    ensures |Split(s, c)| >= 2
    decreases i
  {
    if i > 0 && s[0] != c {
      SplitAt(s[1..], c, i - 1);
    }
  }

  // ---------------------------------------------------------------------------
  // Parent grouping

  /** The climb of `getParentGrouping` from anything that is not a Shot or Sequence. */
  function Climb(store: Store, obj: Entity): (r: Option<Entity>)
    requires ValidStore(store) && InStore(store, obj)
    ensures r.Some? ==> InStore(store, r.value)
  {
    var o1 := ClimbStep(store, Some(obj), ComponentClass, None);
    var o2 := ClimbStep(store, o1, AssetVersionClass, None);
    var o3 := ClimbStep(store, o2, AssetClass, None);
    ClimbStep(store, o3, TaskClass, Some("Task"))
  }

  /** Goes to the parent when the entity is of class `cls` (and object type `objType` when given). */
  function ClimbStep(store: Store, o: Option<Entity>, cls: EntityClass, objType: Option<string>): (r: Option<Entity>)
    requires ValidStore(store) && (o.Some? ==> InStore(store, o.value))
    ensures r.Some? ==> InStore(store, r.value)
  {
    if o.Some? && o.value.cls == cls && (objType.None? || o.value.objectType == objType) then Parent(store, o.value) else o
  }

  /** The climb ends at the object itself or above it. */
  lemma ClimbAbove(store: Store, obj: Entity)
    requires ValidStore(store) && InStore(store, obj)
    ensures Climb(store, obj).Some? ==> AtOrAbove(store, obj, Climb(store, obj).value)
  {
    var o1 := ClimbStep(store, Some(obj), ComponentClass, None);
    var o2 := ClimbStep(store, o1, AssetVersionClass, None);
    var o3 := ClimbStep(store, o2, AssetClass, None);
    var o4 := ClimbStep(store, o3, TaskClass, Some("Task"));
    AncestorStep(store, obj, o1);
    if o1.Some? { AncestorStep(store, o1.value, o2); AncestorTrans(store, obj, o1.value, o2); }
    if o2.Some? { AncestorStep(store, o2.value, o3); AncestorTrans(store, obj, o2.value, o3); }
    if o3.Some? { AncestorStep(store, o3.value, o4); AncestorTrans(store, obj, o3.value, o4); }
  }

  /** Being the object or above it. */
  ghost predicate AtOrAbove(store: Store, e: Entity, a: Entity)
    requires ValidStore(store) && InStore(store, e)
  {
    a == e || a in Parents(store, e)
  }

  lemma AncestorStep(store: Store, e: Entity, o: Option<Entity>)
    requires ValidStore(store) && InStore(store, e)
    requires o == Some(e) || o == Parent(store, e)
    ensures o.Some? ==> InStore(store, o.value) && AtOrAbove(store, e, o.value)
  {
  }

  lemma AncestorTrans(store: Store, e: Entity, m: Entity, o: Option<Entity>)
    requires ValidStore(store) && InStore(store, e) && InStore(store, m)
    requires AtOrAbove(store, e, m)
    requires o.Some? ==> InStore(store, o.value) && AtOrAbove(store, m, o.value)
    ensures o.Some? ==> AtOrAbove(store, e, o.value)
  {
    if o.Some? && m != e && o.value != m {
      ParentsTrans(store, e, m, o.value);
    }
  }

  /** An ancestor of an ancestor is an ancestor. */
  lemma {:induction false} ParentsTrans(store: Store, e: Entity, m: Entity, a: Entity)
    requires ValidStore(store) && InStore(store, e) && InStore(store, m)
    requires m in Parents(store, e) && a in Parents(store, m)
    ensures a in Parents(store, e)
    decreases e.depth
  {
    var p := Parent(store, e).value;
    if m != p {
      ParentsTrans(store, p, m, a);
    }
  }

  /**
   * `getParentGrouping`: nothing for a project; the parent of a Shot or
   * Sequence; otherwise the first entity that is not a component, version,
   * asset or 'Task' Task on the way up. Only a Task is returned.
   */
  function ParentGrouping(store: Store, obj: Entity): (r: seq<string>)
    requires ValidStore(store) && InStore(store, obj)
    ensures |r| <= 1
    ensures obj.cls == ProjectClass ==> r == []
    ensures r != [] ==> exists g :: InStore(store, g) && g.cls == TaskClass && AtOrAbove(store, obj, g) && r == [EntityRef(g)]
    ensures obj.cls == TaskClass && obj.objectType in {Some("Shot"), Some("Sequence")} ==>
      var p := Parent(store, obj);
      r == (if p.Some? && p.value.cls == TaskClass then [EntityRef(p.value)] else [])
    ensures obj.cls != ProjectClass && !(obj.cls == TaskClass && obj.objectType in {Some("Shot"), Some("Sequence")}) ==>
      var o := Climb(store, obj);
      r == (if o.Some? && o.value.cls == TaskClass then [EntityRef(o.value)] else [])
  {
    if obj.cls == ProjectClass then []
    else
      var o := if obj.cls == TaskClass && (obj.objectType == Some("Shot") || obj.objectType == Some("Sequence"))
        then Parent(store, obj) else Climb(store, obj);
      if o.Some? && o.value.cls == TaskClass then
        AncestorStep(store, obj, Parent(store, obj));
        ClimbAbove(store, obj);
        [EntityRef(o.value)]
      else []
  }

  // ---------------------------------------------------------------------------
  // Dispatch and batches

  /** `getRelatedSingle`: 'group.shot', then 'workflow', then exactly 'grouping.parent'; else nothing. */
  function RelatedSingle(store: Store, ref: string, spec: Specification): (r: Result<seq<string>>)
    requires ValidStore(store)
    ensures Lookup(store, ref).Failure? ==> r == Failure(Lookup(store, ref).error)
    ensures (Lookup(store, ref).Success? && !IsOfType(spec.typ, ShotType) && !IsOfType(spec.typ, "workflow")
      && spec.typ != "grouping.parent") ==> r == Success([])
    ensures Lookup(store, ref).Success? ==>
      var obj := Lookup(store, ref).value;
      && (IsOfType(spec.typ, ShotType) ==> r == Success(ShotRefs(store, obj, spec)))
      && (!IsOfType(spec.typ, ShotType) && IsOfType(spec.typ, "workflow") ==> r == Workflow(store, obj, spec))
      && (!IsOfType(spec.typ, ShotType) && !IsOfType(spec.typ, "workflow") && spec.typ == "grouping.parent" ==>
            r == Success(ParentGrouping(store, obj)))
  {
    var obj :- Lookup(store, ref);
    if IsOfType(spec.typ, ShotType) then Success(ShotRefs(store, obj, spec))
    else if IsOfType(spec.typ, "workflow") then Workflow(store, obj, spec)
    else if spec.typ == "grouping.parent" then Success(ParentGrouping(store, obj))
    else Success([])
  }

  /** Each query answered on its own. */
  function Answers(store: Store, queries: seq<(string, Specification)>): (r: seq<Result<seq<string>>>)
    requires ValidStore(store)
    ensures |r| == |queries|
    ensures forall i :: 0 <= i < |queries| ==> r[i] == RelatedSingle(store, queries[i].0, queries[i].1)
  {
    seq(|queries|, i requires 0 <= i < |queries| => RelatedSingle(store, queries[i].0, queries[i].1))
  }

  /** The answers gathered in order; the first exception ends the batch. */
  function Collect<T>(answers: seq<Result<T>>): (r: Result<seq<T>>)
    ensures r.Success? <==> forall i :: 0 <= i < |answers| ==> answers[i].Success?
    ensures r.Success? ==> |r.value| == |answers|
    ensures r.Success? ==> forall i :: 0 <= i < |answers| ==> answers[i] == Success(r.value[i])
  {
    if answers == [] then Success([])
    else
      var n := |answers| - 1;
      var prefix := answers[..n];
      assert forall i :: 0 <= i < n ==> prefix[i] == answers[i];
      var previous :- Collect(prefix);
      var last :- answers[n];
      Success(previous + [last])
  }

  /** The batch fails with the error of the first query that fails. */
  lemma {:induction false} CollectFirstFailure<T>(answers: seq<Result<T>>, k: nat)
    requires k < |answers| && answers[k].Failure?
    requires forall j :: 0 <= j < k ==> answers[j].Success?
    ensures Collect(answers) == Failure(answers[k].error)
    decreases |answers|
  {
    var n := |answers| - 1;
    var prefix := answers[..n];
    assert forall i :: 0 <= i < n ==> prefix[i] == answers[i];
    if k < n {
      CollectFirstFailure(prefix, k);
    }
  }

  /** One more successful answer extends the gathered answers by its value. */
  lemma CollectSnoc<T>(answers: seq<Result<T>>, i: nat)
    requires i < |answers| && answers[i].Success? && Collect(answers[..i]).Success?
    ensures Collect(answers[..i + 1]) == Success(Collect(answers[..i]).value + [answers[i].value])
  {
    assert answers[..i + 1][..i] == answers[..i];
  }

  /** Once the answers up to `i` succeed and the answer at `i` fails, the whole batch fails with it. */
  lemma CollectStopsAt<T>(answers: seq<Result<T>>, i: nat)
    requires i < |answers| && answers[i].Failure? && Collect(answers[..i]).Success?
    ensures Collect(answers) == Failure(answers[i].error)
  {
    assert forall j :: 0 <= j < i ==> answers[..i][j] == answers[j];
    CollectFirstFailure(answers, i);
  }

  /** The answers to a list of (reference, specification) queries, stopping at the first exception. */
  function Batch(store: Store, queries: seq<(string, Specification)>): (r: Result<seq<seq<string>>>)
    requires ValidStore(store)
    ensures r.Success? <==> forall i :: 0 <= i < |queries| ==> Answers(store, queries)[i].Success?
    ensures r.Success? ==> |r.value| == |queries|
    ensures r.Success? ==> forall i :: 0 <= i < |queries| ==> Answers(store, queries)[i] == Success(r.value[i])
  {
    Collect(Answers(store, queries))
  }

  /** The related-entity queries, with the module cache of child listings. */
  class RelatedQueries {
    var cache: MiniCache<Id, seq<Entity>>

    /** Every cached listing is the current `getChildren()` of a stored entity. */
    ghost predicate CacheValid(store: Store)
      reads this, cache
    {
      && ValidStore(store)
      && forall k :: k in cache.data ==> k in store && store[k].id == k && cache.data[k] == ContextChildren(store, store[k])
    }

    constructor ()
      ensures fresh(cache) && cache.data == map[]
    {
      cache := new MiniCache();
    }

    /** `getRelatedShots`, with a Sequence's children fetched through the cache. */
    method GetRelatedShots(store: Store, obj: Entity, spec: Specification) returns (refs: seq<string>)
      requires CacheValid(store) && InStore(store, obj)
      modifies cache
      ensures CacheValid(store)
      ensures refs == ShotRefs(store, obj, spec)
    {
      var hint := GetField(spec, HintNameField, None);
      var objType := ObjectType(Some(obj));
      refs := [];
      if objType == "Sequence" {
        var listing := ContextChildren(store, obj);
        var got, _ := cache.Get(obj.id, Callable(() => Some(listing)));
        var children := got.value;
        if Truthy(hint) {
          var m := FindNamed(children, hint.value);
          if m.Some? {
            refs := refs + [EntityRef(m.value)];
          }
        } else {
          refs := refs + Refs(children);
        }
      }
      if objType == "Asset" || objType == "AssetVersion" || objType == "Component" {
        var shot := ShotFromObj(store, Some(obj));
        if shot.Some? && (!Truthy(hint) || shot.value.name == hint) {
          refs := refs + [EntityRef(shot.value)];
        }
      }
    }

    /** `getWorkflowRelations`. */
    method GetWorkflowRelations(store: Store, obj: Entity, spec: Specification) returns (r: Result<seq<string>>)
      requires ValidStore(store) && InStore(store, obj)
      ensures r == Workflow(store, obj, spec)
    {
      var criteria := GetField(spec, "criteria", None);
      if !Truthy(criteria) {
        return Failure(ValueError("No criteria specified with Workflow Specification"));
      }
      var parts := Split(criteria.value, ',');
      if |parts| < 2 {
        SplitNoSeparator(criteria.value, ',');
        return Failure(RuntimeFault("list index out of range"));
      }
      var version := parts[0];
      var taskType :- Lookup(store, parts[1]);
      var typeName := ObjectName(Some(taskType));
      var tasks: seq<Entity>;
      if obj.cls == TaskClass {
        tasks := TasksOfType(Children(store, obj), typeName);
      } else if obj.cls == ComponentClass {
        var v := Parent(store, obj);
        if v.None? {
          return Failure(RuntimeFault("'NoneType' object has no attribute 'getAsset'"));
        }
        var a := Parent(store, v.value);
        if a.None? {
          return Failure(RuntimeFault("'NoneType' object has no attribute 'getParent'"));
        }
        var shot := Parent(store, a.value);
        if shot.None? {
          return Failure(RuntimeFault("'NoneType' object has no attribute 'getTasks'"));
        }
        tasks := TasksOfType(Children(store, shot.value), typeName);
      } else {
        return Success([]);
      }
      var refs := GetRefsFromTasks(store, tasks, version);
      r := Success(refs);
    }

    /** `getRelatedSingle`. */
    method GetRelatedSingle(store: Store, ref: string, spec: Specification) returns (r: Result<seq<string>>)
      requires CacheValid(store)
      modifies cache
      ensures CacheValid(store)
      ensures r == RelatedSingle(store, ref, spec)
    {
      var obj :- Lookup(store, ref);
      if IsOfType(spec.typ, ShotType) {
        var refs := GetRelatedShots(store, obj, spec);
        r := Success(refs);
      } else if IsOfType(spec.typ, "workflow") {
        r := GetWorkflowRelations(store, obj, spec);
      } else if spec.typ == "grouping.parent" {
        r := Success(ParentGrouping(store, obj));
      } else {
        r := Success([]);
      }
    }

    /** The loop shared by the three entry points: one answer per query, in order. */
    method RunBatch(store: Store, queries: seq<(string, Specification)>) returns (r: Result<seq<seq<string>>>)
      requires CacheValid(store)
      modifies cache
      ensures CacheValid(store)
      ensures r == Batch(store, queries)
    {
      ghost var answers := Answers(store, queries);
      var related: seq<seq<string>> := [];
      var i := 0;
      while i < |queries|
        invariant 0 <= i <= |queries|
        invariant CacheValid(store)
        invariant Collect(answers[..i]) == Success(related)
      {
        var one := GetRelatedSingle(store, queries[i].0, queries[i].1);
        assert answers[i] == one;
        if one.Failure? {
          CollectStopsAt(answers, i);
          return Failure(one.error);
        }
        CollectSnoc(answers, i);
        related := related + [one.value];
        i := i + 1;
      }
      assert answers[..i] == answers;
      r := Success(related);
    }

    /** `forSpecs`: one reference against each specification. */
    method ForSpecs(store: Store, ref: string, specs: seq<Specification>) returns (r: Result<seq<seq<string>>>)
      requires ValidStore(store)
      modifies cache
      ensures CacheValid(store)
      ensures r == Batch(store, seq(|specs|, i requires 0 <= i < |specs| => (ref, specs[i])))
    {
      cache.Clear();
      r := RunBatch(store, seq(|specs|, i requires 0 <= i < |specs| => (ref, specs[i])));
    }

    /** `forRefs`: each reference against one specification. */
    method ForRefs(store: Store, spec: Specification, refs: seq<string>) returns (r: Result<seq<seq<string>>>)
      requires ValidStore(store)
      modifies cache
      ensures CacheValid(store)
      ensures r == Batch(store, seq(|refs|, i requires 0 <= i < |refs| => (refs[i], spec)))
    {
      cache.Clear();
      r := RunBatch(store, seq(|refs|, i requires 0 <= i < |refs| => (refs[i], spec)));
    }

    /** `forPairs`: `zip(refs, specs)`, as long as the shorter list. */
    method ForPairs(store: Store, refs: seq<string>, specs: seq<Specification>) returns (r: Result<seq<seq<string>>>)
      requires ValidStore(store)
      modifies cache
      ensures CacheValid(store)
      ensures r == Batch(store, Zip(refs, specs))
    {
      cache.Clear();
      r := RunBatch(store, Zip(refs, specs));
    }
  }

  /** `zip(a, b)`: pairs by position, as long as the shorter list. */
  function Zip<A, B>(a: seq<A>, b: seq<B>): (r: seq<(A, B)>)
    ensures |r| == if |a| <= |b| then |a| else |b|
    ensures forall i :: 0 <= i < |r| ==> r[i] == (a[i], b[i])
  {
    var n := if |a| <= |b| then |a| else |b|;
    seq(n, i requires 0 <= i < n => (a[i], b[i]))
  }
}
