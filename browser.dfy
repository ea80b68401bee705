/**
 * The entity browser of the asset manager: which clicked entity is a valid
 * selection for a specification and context, where the create dialog
 * creates things, which components of a version can be imported, the
 * version rows, and where a click finally settles.
 */
module Browser {
  import opened Wrappers
  import opened Seqs
  import opened Ftrack
  import opened Utils
  import opened AssetApi

  /** Python's IndexError message for `versions[-1]` on an empty list. */
  const IndexOutOfRange: string := "list index out of range"

  /** Locales whose type starts with this belong to the publish dialog. */
  const PublishLocalePrefix: string := "ftrack.publish"

  predicate IsShotSpec(spec: Specification) { IsOfType(spec.typ, ShotType) }

  /** An image or file specification, or exactly a Hiero project one. */
  predicate IsFileSpec(spec: Specification)
  {
    IsOfType(spec.typ, ImageType) || IsOfType(spec.typ, FileType) || spec.typ == HieroProjectType
  }

  predicate IsPublishLocale(context: Context)
  {
    context.locale.Some? && PublishLocalePrefix <= context.locale.value
  }

  /** An asset, an asset version or a component: what a read can select. */
  predicate IsImportable(e: Entity)
  {
    e.cls == AssetClass || e.cls == AssetVersionClass || e.cls == ComponentClass
  }

  /**
   * `BrowserWidget.isValid`. For a shot specification only a sequence is
   * valid. For a file-like specification: under write, a task not directly
   * under the project, a sequence or shot, or an asset under plain write;
   * under read, an asset, version or component; a publish locale overrides
   * all of that with "is a task". Any other specification is never valid.
   */
  function IsValid(store: Store, spec: Specification, context: Context, obj: Entity): (r: Result<bool>)
    requires ValidStore(store) && InStore(store, obj)
    ensures var t := ObjectType(Some(obj));
      IsShotSpec(spec) ==> r == Success(t == "Sequence")
    ensures !IsShotSpec(spec) && !IsFileSpec(spec) ==> r == Success(false)
    ensures var t := ObjectType(Some(obj));
      r.Failure? <==> !IsShotSpec(spec) && IsFileSpec(spec) && t == "Task" && IsForWrite(context) && Parent(store, obj).None?
    ensures var t := ObjectType(Some(obj));
      (!IsShotSpec(spec) && IsFileSpec(spec) && IsPublishLocale(context) && r.Success?) ==> r.value == (t == "Task")
    ensures (!IsShotSpec(spec) && IsFileSpec(spec) && !IsPublishLocale(context) && IsForRead(context)) ==>
      r == Success(IsImportable(obj))
    ensures var t := ObjectType(Some(obj));
      (!IsShotSpec(spec) && IsFileSpec(spec) && !IsPublishLocale(context) && IsForWrite(context) && r.Success?) ==>
        (r.value <==>
          || (t == "Task" && Parent(store, obj).value.cls != ProjectClass)
          || t == "Sequence" || t == "Shot"
          || (t != "Task" && obj.cls == AssetClass && context.access == Write))
  {
    var t := ObjectType(Some(obj));
    if IsShotSpec(spec) then
      Success(t == "Sequence")
    else if IsFileSpec(spec) then
      var written :-
        if t == "Task" then
          if IsForWrite(context) then
            match Parent(store, obj)
            case None => Failure(RuntimeFault("'NoneType' object has no attribute 'get'"))
            case Some(p) => Success(RefType(p.cls) != "show")
          else Success(false)
        else if t == "Sequence" || t == "Shot" then Success(IsForWrite(context))
        else if obj.cls == AssetClass then Success(context.access == Write)
        else Success(false);
      var valid := if IsForRead(context) && IsImportable(obj) then true else written;
      if IsPublishLocale(context) then Success(t == "Task") else Success(valid)
    else Success(false)
  }

  // ---------------------------------------------------------------------------
  // Where to create

  /** How many parents `setWhereToCreate` climbs for each object type. */
  function ClimbSteps(t: string): nat
  {
    if t == "Component" then 3
    else if t == "AssetVersion" then 2
    else if t == "Asset" || t == "Task" then 1
    else 0
  }

  /** Climb `steps` parents; a missing parent faults. */
  function ClimbParents(store: Store, obj: Entity, steps: nat): (r: Result<Entity>)
    requires ValidStore(store) && InStore(store, obj)
    ensures r.Success? ==> InStore(store, r.value)
    decreases steps
  {
    if steps == 0 then Success(obj)
    else
      match Parent(store, obj)
      case None => Failure(RuntimeFault("'NoneType' object has no attribute 'getParent'"))
      case Some(p) => ClimbParents(store, p, steps - 1)
  }

  /** Climbing k parents reaches the k-th ancestor, and fails exactly when there are fewer. */
  lemma {:induction false} ClimbParentsAncestor(store: Store, obj: Entity, steps: nat)
    requires ValidStore(store) && InStore(store, obj)
    ensures ClimbParents(store, obj, steps).Success? <==> steps <= |Parents(store, obj)|
    ensures steps == 0 ==> ClimbParents(store, obj, steps) == Success(obj)
    ensures 0 < steps <= |Parents(store, obj)| ==> ClimbParents(store, obj, steps) == Success(Parents(store, obj)[steps - 1])
    decreases steps
  {
    if steps > 0 {
      match Parent(store, obj)
      case None =>
      case Some(p) =>
        ClimbParentsAncestor(store, p, steps - 1);
        assert Parents(store, obj) == [p] + Parents(store, p);
    }
  }

  /**
   * `CreateDialog.setWhereToCreate`: a component or version climbs to its
   * asset's parent, an asset or task to its parent, anything else stays.
   */
  function SetWhereToCreate(store: Store, obj: Entity): (r: Result<string>)
    requires ValidStore(store) && InStore(store, obj)
    ensures var k := ClimbSteps(ObjectType(Some(obj)));
      && (r.Success? <==> k <= |Parents(store, obj)|)
      && (k == 0 ==> r == Success(EntityRef(obj)))
      && (0 < k <= |Parents(store, obj)| ==> r == Success(EntityRef(Parents(store, obj)[k - 1])))
  {
    var k := ClimbSteps(ObjectType(Some(obj)));
    ClimbParentsAncestor(store, obj, k);
    var target :- ClimbParents(store, obj, k);
    Success(EntityRef(target))
  }

  // ---------------------------------------------------------------------------
  // Importable components

  /** A filter list that Python finds true: given and not empty. */
  predicate NonEmpty(f: Option<seq<string>>) { f.Some? && f.value != [] }

  /**
   * `comp in compFilter`: Python compares the component object with each
   * name using ftrack's own equality, passed in as `eq`.
   */
  function MatchesAny(comp: Entity, names: seq<string>, eq: (Entity, string) -> bool): (r: bool)
    ensures r <==> exists i :: 0 <= i < |names| && eq(comp, names[i])
  {
    if names == [] then false else eq(comp, names[0]) || MatchesAny(comp, names[1..], eq)
  }

  /** The component once for each meta filter key present in its metadata. */
  function MetaHits(comp: Entity, filters: seq<string>): (r: seq<Entity>)
    ensures forall x :: x in r ==> x == comp
  {
    if filters == [] then [] else (if filters[0] in comp.meta then [comp] else []) + MetaHits(comp, filters[1..])
  }

  /** How many of the filter keys are in the metadata, counting repeats. */
  function CountPresent(filters: seq<string>, meta: map<string, string>): nat
  {
    if filters == [] then 0 else (if filters[0] in meta then 1 else 0) + CountPresent(filters[1..], meta)
  }

  /** A component is listed once per filter key present in its metadata, and nothing else is listed. */
  lemma {:induction false} MetaHitsCount(comp: Entity, filters: seq<string>)
    ensures |MetaHits(comp, filters)| == CountPresent(filters, comp.meta)
  {
    if filters != [] {
      MetaHitsCount(comp, filters[1..]);
    }
  }

  /** The rows one component contributes. */
  function ComponentRows(comp: Entity, compFilter: Option<seq<string>>, metaFilters: Option<seq<string>>,
                         eq: (Entity, string) -> bool): (r: seq<Entity>)
    ensures forall x :: x in r ==> x == comp
    ensures NonEmpty(compFilter) && !MatchesAny(comp, compFilter.value, eq) ==> r == []
    ensures !(NonEmpty(compFilter) && !MatchesAny(comp, compFilter.value, eq)) && !NonEmpty(metaFilters) ==> r == [comp]
    ensures !(NonEmpty(compFilter) && !MatchesAny(comp, compFilter.value, eq)) && NonEmpty(metaFilters) ==>
      |r| == CountPresent(metaFilters.value, comp.meta)
  {
    MetaHitsCount(comp, if metaFilters.Some? then metaFilters.value else []);
    if NonEmpty(compFilter) && !MatchesAny(comp, compFilter.value, eq) then []
    else if NonEmpty(metaFilters) then MetaHits(comp, metaFilters.value)
    else [comp]
  }

  /** The importable components of a version, in order. */
  function Importable(comps: seq<Entity>, compFilter: Option<seq<string>>, metaFilters: Option<seq<string>>,
                      eq: (Entity, string) -> bool): (r: seq<Entity>)
    ensures forall x :: x in r ==> x in comps
    ensures NonEmpty(compFilter) ==> forall x :: x in r ==> MatchesAny(x, compFilter.value, eq)
    ensures !NonEmpty(compFilter) && !NonEmpty(metaFilters) ==> r == comps
  {
    if comps == [] then []
    else
      var rows := ComponentRows(comps[0], compFilter, metaFilters, eq);
      rows + Importable(comps[1..], compFilter, metaFilters, eq)
  }

  /** Without filters every component is importable, once, in order. */
  lemma {:induction false} ImportableUnfiltered(comps: seq<Entity>, eq: (Entity, string) -> bool)
    ensures Importable(comps, None, None, eq) == comps
  {
    if comps != [] {
      ImportableUnfiltered(comps[1..], eq);
      assert comps == [comps[0]] + comps[1..];
    }
  }

  /** One step of the loop of `ImportableComponents`: the rows of component `i` follow those before it. */
  lemma ImportableStep(comps: seq<Entity>, i: nat, acc: seq<Entity>, rows: seq<Entity>,
                       compFilter: Option<seq<string>>, metaFilters: Option<seq<string>>, eq: (Entity, string) -> bool)
    requires i < |comps|
    requires Importable(comps, compFilter, metaFilters, eq) == acc + Importable(comps[i..], compFilter, metaFilters, eq)
    requires rows == ComponentRows(comps[i], compFilter, metaFilters, eq)
    ensures Importable(comps, compFilter, metaFilters, eq) == (acc + rows) + Importable(comps[i + 1..], compFilter, metaFilters, eq)
  {
    assert comps[i..][1..] == comps[i + 1..];
    ghost var rest := Importable(comps[i + 1..], compFilter, metaFilters, eq);
    assert acc + (rows + rest) == (acc + rows) + rest;
  }

  /** The inner loop: the component once per meta filter key it carries. */
  method CollectMetaHits(comp: Entity, filters: seq<string>) returns (hits: seq<Entity>)
    ensures hits == MetaHits(comp, filters)
  {
    hits := [];
    var j := 0;
    while j < |filters|
      invariant 0 <= j <= |filters|
      invariant MetaHits(comp, filters) == hits + MetaHits(comp, filters[j..])
    {
      assert filters[j..][1..] == filters[j + 1..];
      if filters[j] in comp.meta {
        hits := hits + [comp];
      }
      j := j + 1;
    }
    assert filters[j..] == [];
  }

  /** The rows of one component, as the loop body computes them. */
  method RowsOf(comp: Entity, compFilter: Option<seq<string>>, metaFilters: Option<seq<string>>,
                eq: (Entity, string) -> bool)
    returns (rows: seq<Entity>)
    ensures rows == ComponentRows(comp, compFilter, metaFilters, eq)
  {
    rows := [];
    if !(NonEmpty(compFilter) && !MatchesAny(comp, compFilter.value, eq)) {
      if NonEmpty(metaFilters) {
        rows := CollectMetaHits(comp, metaFilters.value);
      } else {
        rows := [comp];
      }
    }
  }

  /** The loop of `updateMainWidget` that collects the importable components. */
  method ImportableComponents(components: seq<Entity>, compFilter: Option<seq<string>>, metaFilters: Option<seq<string>>,
                              eq: (Entity, string) -> bool)
    returns (importable: seq<Entity>)
    ensures importable == Importable(components, compFilter, metaFilters, eq)
  {
    importable := [];
    var i := 0;
    while i < |components|
      invariant 0 <= i <= |components|
      invariant Importable(components, compFilter, metaFilters, eq)
        == importable + Importable(components[i..], compFilter, metaFilters, eq)
    {
      var rows := RowsOf(components[i], compFilter, metaFilters, eq);
      ImportableStep(components, i, importable, rows, compFilter, metaFilters, eq);
      importable := importable + rows;
      i := i + 1;
    }
    assert components[i..] == [];
  }

  // ---------------------------------------------------------------------------
  // Versions

  /**
   * `updateVersionsWidget`: the version rows, newest first, and the version
   * opened next (the last one; an asset without versions raises IndexError).
   */
  method VersionRows(versions: seq<Entity>) returns (rows: seq<string>, latest: Result<Entity>)
    ensures |rows| == |versions|
    ensures forall i :: 0 <= i < |versions| ==> rows[i] == EntityRef(versions[|versions| - 1 - i])
    ensures latest.Success? <==> |versions| > 0
    ensures latest.Failure? ==> latest.error == RuntimeFault(IndexOutOfRange)
    ensures latest.Success? ==> latest.value == Last(versions) && rows[0] == EntityRef(latest.value)
  {
    rows := [];
    var numVersions := |versions|;
    var i := 0;
    while i < numVersions
      invariant 0 <= i <= numVersions
      invariant |rows| == i
      invariant forall k :: 0 <= k < i ==> rows[k] == EntityRef(versions[numVersions - 1 - k])
    {
      var j := numVersions - i - 1;
      rows := rows + [EntityRef(versions[j])];
      i := i + 1;
    }
    if numVersions == 0 {
      latest := Failure(RuntimeFault(IndexOutOfRange));
    } else {
      latest := Success(versions[numVersions - 1]);
    }
  }

  /**
   * `asset.getVersions(componentNames=...)`: with a filter, only versions
   * holding a component that the filter matches.
   */
  function AssetVersions(store: Store, asset: Entity, compFilter: Option<seq<string>>, eq: (Entity, string) -> bool)
    : (r: seq<Entity>)
    requires ValidStore(store) && InStore(store, asset)
    ensures forall i :: 0 <= i < |r| ==> InStore(store, r[i]) && r[i].cls == AssetVersionClass
    ensures !NonEmpty(compFilter) ==> r == Versions(store, asset)
    ensures NonEmpty(compFilter) ==> forall v :: v in r <==> v in Versions(store, asset) && HasMatchingComponent(store, v, compFilter.value, eq)
  {
    var all := Versions(store, asset);
    assert forall i :: 0 <= i < |all| ==> all[i] in Children(store, asset);
    if NonEmpty(compFilter) then KeepWithComponent(store, all, compFilter.value, eq) else all
  }

  /** Whether one of the version's components matches one of the names. */
  predicate HasMatchingComponent(store: Store, v: Entity, names: seq<string>, eq: (Entity, string) -> bool)
    requires ValidStore(store) && InStore(store, v)
  {
    var comps := Components(store, v);
    exists k :: 0 <= k < |comps| && MatchesAny(comps[k], names, eq)
  }

  /** The versions holding a matching component, in their order. */
  function KeepWithComponent(store: Store, vs: seq<Entity>, names: seq<string>, eq: (Entity, string) -> bool)
    : (r: seq<Entity>)
    requires ValidStore(store) && forall i :: 0 <= i < |vs| ==> InStore(store, vs[i])
    ensures |r| <= |vs|
    ensures forall i :: 0 <= i < |r| ==> r[i] in vs
    ensures forall v :: v in r <==> v in vs && HasMatchingComponent(store, v, names, eq)
    ensures |vs| == 1 ==> r == (if HasMatchingComponent(store, vs[0], names, eq) then vs else [])
  {
    if vs == [] then []
    else
      var rest := KeepWithComponent(store, vs[1..], names, eq);
      assert forall v :: v in vs <==> v == vs[0] || v in vs[1..];
      (if HasMatchingComponent(store, vs[0], names, eq) then [vs[0]] else []) + rest
  }

  /** Filtering a concatenation filters each part in turn, so the kept versions stay in order. */
  lemma {:induction false} KeepWithComponentAppend(store: Store, a: seq<Entity>, b: seq<Entity>, names: seq<string>,
                                                   eq: (Entity, string) -> bool)
    requires ValidStore(store)
    requires forall i :: 0 <= i < |a| ==> InStore(store, a[i])
    requires forall i :: 0 <= i < |b| ==> InStore(store, b[i])
    ensures KeepWithComponent(store, a + b, names, eq)
      == KeepWithComponent(store, a, names, eq) + KeepWithComponent(store, b, names, eq)
    decreases |a|
  {
    if a == [] {
      assert a + b == b;
    } else {
      var ab := a + b;
      assert ab[0] == a[0] && ab[1..] == a[1..] + b;
      var head := if HasMatchingComponent(store, a[0], names, eq) then [a[0]] else [];
      var ka, kb := KeepWithComponent(store, a[1..], names, eq), KeepWithComponent(store, b, names, eq);
      KeepWithComponentAppend(store, a[1..], b, names, eq);
      assert KeepWithComponent(store, ab, names, eq) == head + (ka + kb);
      assert KeepWithComponent(store, a, names, eq) == head + ka;
      AppendAssoc(head, ka, kb);
    }
  }

  /** The order in which a click descends: asset, then version, then the rest. */
  function ClassRank(cls: EntityClass): nat
  {
    if cls == AssetClass then 2 else if cls == AssetVersionClass then 1 else 0
  }

  // ---------------------------------------------------------------------------
  // The widget's state

  /** The fields the setters and `updateMainWidget` change. */
  datatype BrowserState = BrowserState(
    validSelection: bool,
    compFilter: Option<seq<string>>,
    metaFilters: Option<seq<string>>,
    showAssets: bool,
    showTasks: bool,
    showAssetVersions: bool,
    showShots: bool,
    shotsEnabled: bool,
    currentBrowsingId: Option<string>)

  /**
   * One visit of `updateMainWidget`: check the selection, then say where the
   * click moves on to, if anywhere. An asset whose versions are shown moves
   * on to its last version (none raises IndexError); a version moves on to
   * its first importable component; anything else stays.
   */
  function NextStop(store: Store, spec: Specification, context: Context, obj: Entity, showAssetVersions: bool,
                    compFilter: Option<seq<string>>, metaFilters: Option<seq<string>>, eq: (Entity, string) -> bool)
    : (r: Result<Option<Entity>>)
    requires ValidStore(store) && InStore(store, obj)
    ensures r.Failure? <==> (IsValid(store, spec, context, obj).Failure?
      || (obj.cls == AssetClass && showAssetVersions && AssetVersions(store, obj, compFilter, eq) == []))
    ensures r.Success? && r.value.Some? ==> InStore(store, r.value.value) && ClassRank(r.value.value.cls) < ClassRank(obj.cls)
    ensures r.Success? && obj.cls == AssetClass && showAssetVersions ==>
      r.value == Some(Last(AssetVersions(store, obj, compFilter, eq)))
    ensures r.Success? && obj.cls == AssetVersionClass ==>
      var importable := Importable(Components(store, obj), compFilter, metaFilters, eq);
      r.value == (if importable == [] then None else Some(importable[0]))
    ensures r.Success? && r.value.Some? && obj.cls == AssetVersionClass ==> r.value.value.cls == ComponentClass
    ensures r.Success? && !(obj.cls == AssetClass && showAssetVersions) && obj.cls != AssetVersionClass ==> r.value == None
  {
    var valid :- IsValid(store, spec, context, obj);
    if obj.cls == AssetClass && showAssetVersions then
      var versions := AssetVersions(store, obj, compFilter, eq);
      if versions == [] then Failure(RuntimeFault(IndexOutOfRange))
      else Success(Some(Last(versions)))
    else if obj.cls == AssetVersionClass then
      var comps := Components(store, obj);
      var importable := Importable(comps, compFilter, metaFilters, eq);
      if importable == [] then Success(None)
      else
        assert importable[0] in comps;
        Success(Some(importable[0]))
    else Success(None)
  }

  /** Where a click on `obj` settles after following every move. */
  function Settle(store: Store, spec: Specification, context: Context, obj: Entity, showAssetVersions: bool,
                  compFilter: Option<seq<string>>, metaFilters: Option<seq<string>>, eq: (Entity, string) -> bool)
    : (r: Result<Entity>)
    requires ValidStore(store) && InStore(store, obj)
    ensures r.Success? ==> InStore(store, r.value) && IsValid(store, spec, context, r.value).Success?
    ensures r.Success? && obj.cls == AssetClass && showAssetVersions ==> r.value.cls != AssetClass
    ensures r.Success? && obj.cls == AssetVersionClass && Importable(Components(store, obj), compFilter, metaFilters, eq) != [] ==>
      r.value.cls == ComponentClass
    ensures r.Success? && !(obj.cls == AssetClass && showAssetVersions) && obj.cls != AssetVersionClass ==> r.value == obj
    ensures r.Success? ==> ClassRank(r.value.cls) <= ClassRank(obj.cls)
    decreases ClassRank(obj.cls)
  {
    var next :- NextStop(store, spec, context, obj, showAssetVersions, compFilter, metaFilters, eq);
    match next
    case None => Success(obj)
    case Some(n) => Settle(store, spec, context, n, showAssetVersions, compFilter, metaFilters, eq)
  }

  /**
   * The widget's state after a click on `obj`, clicked as `ref`, whether or
   * not the click settles: each entity visited becomes the current one (the
   * clicked one under the reference given, every later one under its own
   * reference), and each that is checked without error sets the selection
   * flag; the walk stops at the first error.
   */
  function AfterClick(store: Store, spec: Specification, context: Context, ref: string, obj: Entity, st: BrowserState,
                      eq: (Entity, string) -> bool)
    : (r: BrowserState)
    requires ValidStore(store) && InStore(store, obj)
    ensures r == st.(currentBrowsingId := r.currentBrowsingId, validSelection := r.validSelection)
    ensures r.currentBrowsingId.Some?
    ensures IsValid(store, spec, context, obj).Failure? ==>
      r == st.(currentBrowsingId := Some(ref))
    decreases ClassRank(obj.cls)
  {
    var valid := IsValid(store, spec, context, obj);
    var st1 := st.(currentBrowsingId := Some(ref),
                   validSelection := if valid.Success? then valid.value else st.validSelection);
    match NextStop(store, spec, context, obj, st.showAssetVersions, st.compFilter, st.metaFilters, eq)
    case Success(Some(n)) => AfterClick(store, spec, context, EntityRef(n), n, st1, eq)
    case _ => st1
  }

  /**
   * A click that settles leaves the settled entity current, with its validity
   * as the selection flag: under the reference clicked when the click stays
   * where it landed, under the settled entity's own reference when it moved on.
   */
  lemma {:induction false} AfterClickSettled(store: Store, spec: Specification, context: Context, ref: string,
                                             obj: Entity, st: BrowserState, eq: (Entity, string) -> bool)
    requires ValidStore(store) && InStore(store, obj)
    requires Settle(store, spec, context, obj, st.showAssetVersions, st.compFilter, st.metaFilters, eq).Success?
    ensures var settled := Settle(store, spec, context, obj, st.showAssetVersions, st.compFilter, st.metaFilters, eq).value;
      AfterClick(store, spec, context, ref, obj, st, eq)
        == st.(currentBrowsingId := Some(if settled == obj then ref else EntityRef(settled)),
               validSelection := IsValid(store, spec, context, settled).value)
    decreases ClassRank(obj.cls)
  {
    var valid := IsValid(store, spec, context, obj);
    var st1 := st.(currentBrowsingId := Some(ref), validSelection := valid.value);
    match NextStop(store, spec, context, obj, st.showAssetVersions, st.compFilter, st.metaFilters, eq)
    case Success(Some(n)) =>
      AfterClickSettled(store, spec, context, EntityRef(n), n, st1, eq);
    case _ =>
  }

  /**
   * A click that moves on from `obj` to `n` settles and ends as a click on
   * `n` under its own reference would, and never settles back on `obj`.
   */
  lemma ClickMovesOn(store: Store, spec: Specification, context: Context, ref: string, obj: Entity, st: BrowserState,
                     eq: (Entity, string) -> bool)
    requires ValidStore(store) && InStore(store, obj)
    requires var next := NextStop(store, spec, context, obj, st.showAssetVersions, st.compFilter, st.metaFilters, eq);
      next.Success? && next.value.Some?
    ensures var n := NextStop(store, spec, context, obj, st.showAssetVersions, st.compFilter, st.metaFilters, eq).value.value;
      var st1 := st.(currentBrowsingId := Some(ref), validSelection := IsValid(store, spec, context, obj).value);
      var settled := Settle(store, spec, context, n, st.showAssetVersions, st.compFilter, st.metaFilters, eq);
      && Settle(store, spec, context, obj, st.showAssetVersions, st.compFilter, st.metaFilters, eq) == settled
      && AfterClick(store, spec, context, ref, obj, st, eq) == AfterClick(store, spec, context, EntityRef(n), n, st1, eq)
      && (settled.Success? ==> settled.value != obj)
  {
  }

  /** The part of one visit after the selection was found valid: where the click moves on to. */
  method MoveOn(store: Store, spec: Specification, context: Context, obj: Entity, showAssetVersions: bool,
                compFilter: Option<seq<string>>, metaFilters: Option<seq<string>>, eq: (Entity, string) -> bool)
    returns (r: Result<Option<Entity>>)
    requires ValidStore(store) && InStore(store, obj)
    requires IsValid(store, spec, context, obj).Success?
    ensures r == NextStop(store, spec, context, obj, showAssetVersions, compFilter, metaFilters, eq)
  {
    if obj.cls == AssetClass && showAssetVersions {
      var versions := AssetVersions(store, obj, compFilter, eq);
      var rows, latest := VersionRows(versions);
      if latest.Failure? {
        return Failure(latest.error);
      }
      r := Success(Some(latest.value));
    } else if obj.cls == AssetVersionClass {
      var comps := Components(store, obj);
      var importable := ImportableComponents(comps, compFilter, metaFilters, eq);
      if |importable| >= 1 {
        r := Success(Some(importable[0]));
      } else {
        r := Success(None);
      }
    } else {
      r := Success(None);
    }
  }

  /** The browser widget: its specification and context, and its filters, flags and current selection. */
  class BrowserWidget {
    const spec: Specification
    const context: Context
    var validSelection: bool
    var compFilter: Option<seq<string>>
    var metaFilters: Option<seq<string>>
    var showAssets: bool
    var showTasks: bool
    var showAssetVersions: bool
    var showShots: bool
    var shotsEnabled: bool
    var currentBrowsingId: Option<string>

    function State(): BrowserState
      reads this
    {
      BrowserState(validSelection, compFilter, metaFilters, showAssets, showTasks, showAssetVersions, showShots,
                   shotsEnabled, currentBrowsingId)
    }

    /** Nothing is selected or filtered, and everything is shown and enabled. */
    constructor (spec: Specification, context: Context)
      ensures this.spec == spec && this.context == context
      ensures State() == BrowserState(false, None, None, true, true, true, true, true, None)
    {
      this.spec := spec;
      this.context := context;
      validSelection := false;
      compFilter := None;
      metaFilters := None;
      showAssets := true;
      showTasks := true;
      showAssetVersions := true;
      showShots := true;
      shotsEnabled := true;
      currentBrowsingId := None;
    }

    method SetShowAssets(val: bool)
      modifies this
      ensures State() == old(State()).(showAssets := val)
    {
      showAssets := val;
    }

    method SetShowTasks(val: bool)
      modifies this
      ensures State() == old(State()).(showTasks := val)
    {
      showTasks := val;
    }

    method SetShowAssetVersions(val: bool)
      modifies this
      ensures State() == old(State()).(showAssetVersions := val)
    {
      showAssetVersions := val;
    }

    method SetShotsEnabled(val: bool)
      modifies this
      ensures State() == old(State()).(shotsEnabled := val)
    {
      shotsEnabled := val;
    }

    method SetComponentFilter(val: Option<seq<string>>)
      modifies this
      ensures State() == old(State()).(compFilter := val)
    {
      compFilter := val;
    }

    method SetMetaFilters(val: Option<seq<string>>)
      modifies this
      ensures State() == old(State()).(metaFilters := val)
    {
      metaFilters := val;
    }

    /**
     * One visit of `updateMainWidget`: browse to `obj`, recording the
     * reference it was reached by, record whether it is a valid selection,
     * and find where the click moves on to.
     */
    method Visit(store: Store, ref: string, obj: Entity, eq: (Entity, string) -> bool) returns (r: Result<Option<Entity>>)
      requires ValidStore(store) && InStore(store, obj)
      modifies this
      ensures r == NextStop(store, spec, context, obj, old(showAssetVersions), old(compFilter), old(metaFilters), eq)
      ensures var valid := IsValid(store, spec, context, obj);
        State() == old(State()).(currentBrowsingId := Some(ref),
                                 validSelection := if valid.Success? then valid.value else old(validSelection))
    {
      currentBrowsingId := Some(ref);
      var valid := IsValid(store, spec, context, obj);
      if valid.Failure? {
        return Failure(valid.error);
      }
      validSelection := valid.value;
      r := MoveOn(store, spec, context, obj, showAssetVersions, compFilter, metaFilters, eq);
    }

    /**
     * The visits of `updateMainWidget` from `obj`, reached by `ref`: each
     * further visit is the recursive call on the next entity's own reference.
     */
    method Browse(store: Store, ref: string, obj: Entity, eq: (Entity, string) -> bool) returns (r: Result<()>)
      requires ValidStore(store) && InStore(store, obj)
      modifies this
      ensures r.Success? <==> Settle(store, spec, context, obj, old(showAssetVersions), old(compFilter), old(metaFilters), eq).Success?
      ensures State() == AfterClick(store, spec, context, ref, obj, old(State()), eq)
      decreases ClassRank(obj.cls)
    {
      var next := Visit(store, ref, obj, eq);
      if next.Failure? {
        return Failure(next.error);
      }
      if next.value.None? {
        return Success(());
      }
      ClickMovesOn(store, spec, context, ref, obj, old(State()), eq);
      r := Browse(store, EntityRef(next.value.value), next.value.value, eq);
    }

    /**
     * `updateMainWidget(targetRef)`: resolve the reference (a reference that
     * does not resolve raises before anything changes), browse to it and
     * follow the click down to where it settles; the widget then shows that
     * entity and whether it is valid.
     */
    method UpdateMainWidget(store: Store, targetRef: string, eq: (Entity, string) -> bool) returns (r: Result<()>)
      requires ValidStore(store)
      modifies this
      ensures Lookup(store, targetRef).Failure? ==>
        r == Failure(Lookup(store, targetRef).error) && State() == old(State())
      ensures Lookup(store, targetRef).Success? ==>
        var obj := Lookup(store, targetRef).value;
        var settled := Settle(store, spec, context, obj, old(showAssetVersions), old(compFilter), old(metaFilters), eq);
        && (r.Success? <==> settled.Success?)
        && (r.Success? ==>
              State() == old(State()).(currentBrowsingId := Some(if settled.value == obj then targetRef else EntityRef(settled.value)),
                                       validSelection := IsValid(store, spec, context, settled.value).value))
        && State() == AfterClick(store, spec, context, targetRef, obj, old(State()), eq)
    {
      var found := Lookup(store, targetRef);
      if found.Failure? {
        return Failure(found.error);
      }
      r := Browse(store, targetRef, found.value, eq);
      if r.Success? {
        AfterClickSettled(store, spec, context, targetRef, found.value, old(State()), eq);
      }
    }
  }
}
