/**
 * The ftrack browser panel that wraps the entity browser: how it configures
 * the browser's filters and flags for a specification and context, how it
 * captures a clicked selection (descending from an asset to a component
 * when reading), and how it appends an asset-name override to the stored
 * selection.
 */
module FtrackBrowser {
  import opened Wrappers
  import opened Seqs
  import opened Ftrack
  import opened Utils
  import opened AssetApi
  import opened Browser

  /** Component names a nukescript or hrox read filters on and picks. */
  const NukeScriptComponent: string := "nukescript"
  const HieroProjectComponent: string := "hieroproject"
  /** The metadata key an image read filters on. */
  const ImgMainKey: string := "img_main"
  /** The locale type of the publish dialog. */
  const PublishLocaleType: string := "ftrack.publish"
  /** The query parameter `getSelection` appends. */
  const AssetNameParam: string := "&assetName="

  predicate PublishLocale(context: Context)
  {
    LocaleIsOfType(Some(context), PublishLocaleType)
  }

  /** A file, image or hrox specification: the branch that adjusts tasks and assets. */
  predicate FileLike(spec: Specification)
  {
    IsOfType(spec.typ, FileType) || IsOfType(spec.typ, ImageType) || IsOfType(spec.typ, HieroProjectType)
  }

  /**
   * The browser's state once the panel's constructor has applied all its
   * setters, each flag stated on its own: the component filter for
   * nukescript and hrox specifications, the meta filter for images, asset
   * versions hidden for writes, shots disabled and tasks and assets hidden
   * for shot specifications, tasks shown for file-like writes (hidden for
   * reads of anything but a grouping), assets hidden for multiple writes and
   * publish locales.
   */
  function Configured(spec: Specification, context: Context): (r: BrowserState)
    ensures spec.typ == NukeScriptType ==> r.compFilter == Some([NukeScriptComponent])
    ensures spec.typ == HieroProjectType ==> r.compFilter == Some([HieroProjectComponent])
    ensures spec.typ != NukeScriptType && spec.typ != HieroProjectType ==> r.compFilter == None
    ensures r.metaFilters.Some? <==> IsOfType(spec.typ, ImageType)
    ensures r.showAssetVersions <==> !IsForWrite(context)
    ensures IsOfType(spec.typ, ShotType) ==> !r.shotsEnabled && !r.showTasks && !r.showAssets
    ensures !IsOfType(spec.typ, ShotType) && FileLike(spec) && IsForWrite(context) ==> r.showTasks
    ensures !IsOfType(spec.typ, ShotType) && FileLike(spec) && PublishLocale(context) ==> !r.showAssets
    ensures !r.validSelection && r.currentBrowsingId == None && r.showShots
  {
    var isShot := IsOfType(spec.typ, ShotType);
    var isGrouping := IsOfType(spec.typ, GroupingType);
    BrowserState(
      validSelection := false,
      compFilter :=
        if spec.typ == NukeScriptType then Some([NukeScriptComponent])
        else if spec.typ == HieroProjectType then Some([HieroProjectComponent])
        else None,
      metaFilters := if IsOfType(spec.typ, ImageType) then Some([ImgMainKey]) else None,
      showAssets :=
        if isShot then false
        else if FileLike(spec) then !(context.access == WriteMultiple || PublishLocale(context))
        else true,
      showTasks :=
        if isShot then false
        else if FileLike(spec) && IsForWrite(context) then true
        else isGrouping || !IsForRead(context),
      showAssetVersions := !IsForWrite(context),
      showShots := true,
      shotsEnabled := !isShot,
      currentBrowsingId := None)
  }

  /**
   * Whether the asset-name box is shown: not for multiple selections, reads
   * of a non-grouping specification, publish-locale writes of one, writes
   * of a non-file specification, or shot specifications.
   */
  function AssetNameShown(spec: Specification, context: Context): (r: bool)
    ensures IsForMultiple(context) ==> !r
    ensures IsForRead(context) && !IsOfType(spec.typ, GroupingType) ==> !r
    ensures IsOfType(spec.typ, ShotType) ==> !r
    ensures IsForWrite(context) && !IsOfType(spec.typ, FileType) ==> !r
    ensures (context.access == Write && IsOfType(spec.typ, FileType) && !IsOfType(spec.typ, ShotType)
      && !PublishLocale(context)) ==> r
  {
    var isGrouping := IsOfType(spec.typ, GroupingType);
    && !IsForMultiple(context)
    && !(!isGrouping && IsForRead(context))
    && !(!isGrouping && !IsForRead(context) && PublishLocale(context))
    && !(IsForWrite(context) && !IsOfType(spec.typ, FileType))
    && !IsOfType(spec.typ, ShotType)
  }

  /** The component a read of this specification picks by name, if any. */
  function ComponentName(spec: Specification): Option<string>
  {
    if IsOfType(spec.typ, NukeScriptType) then Some(NukeScriptComponent)
    else if IsOfType(spec.typ, HieroProjectType) then Some(HieroProjectComponent)
    else None
  }

  /**
   * Whether `version.getComponent(name=...)` raises: a name applies and the
   * version holds no component of that name.
   */
  predicate MissingNamedComponent(store: Store, spec: Specification, version: Entity)
    requires ValidStore(store) && InStore(store, version)
  {
    ComponentName(spec).Some? && FindNamed(Components(store, version), ComponentName(spec).value).None?
  }

  /**
   * The reference a read captures from a version: the component named for
   * nukescript and hrox specifications, whose absence raises FTrackError
   * (its message is the API's and is not modelled: the error carries the
   * name asked for); else its only component; else the clicked reference,
   * with the valid-selection flag cleared.
   */
  function FromVersion(store: Store, spec: Specification, version: Entity, clicked: string): (r: Result<(string, bool)>)
    requires ValidStore(store) && InStore(store, version)
    ensures r.Failure? <==> MissingNamedComponent(store, spec, version)
    ensures r.Failure? ==> r.error == FTrackError(ComponentName(spec).value)
    ensures r.Success? && r.value.1 <==> ComponentName(spec).None? && |Components(store, version)| != 1
    ensures r.Success? && r.value.1 ==> r.value.0 == clicked
    ensures r.Success? && r.value.0 != clicked ==> exists c :: InStore(store, c) && c.cls == ComponentClass && r.value.0 == EntityRef(c)
    ensures ComponentName(spec).None? && |Components(store, version)| == 1 ==>
      r == Success((EntityRef(Components(store, version)[0]), false))
    ensures ComponentName(spec).Some? && FindNamed(Components(store, version), ComponentName(spec).value).Some? ==>
      r == Success((EntityRef(FindNamed(Components(store, version), ComponentName(spec).value).value), false))
  {
    var comps := Components(store, version);
    match ComponentName(spec)
    case Some(name) =>
      (match FindNamed(comps, name)
       case Some(c) => Success((EntityRef(c), false))
       case None => Failure(FTrackError(name)))
    case None =>
      if |comps| == 1 then
        assert comps[0] in comps;
        Success((EntityRef(comps[0]), false))
      else Success((clicked, true))
  }

  /** `_captureSelection` as a value: the reference stored as the selection,
   * and whether the browser's valid-selection flag is cleared. Under read,
   * an asset stands for its latest version and a version for one of its
   * components, as `FromVersion` picks it; a lookup that fails, an asset
   * without versions and a missing named component raise.
   */
  function Captured(store: Store, spec: Specification, context: Context, clicked: string): (r: Result<(string, bool)>)
    requires ValidStore(store)
    ensures !IsForRead(context) ==> r == Success((clicked, false))
    ensures r.Failure? <==> (IsForRead(context) && (Lookup(store, clicked).Failure?
      || (var obj := Lookup(store, clicked).value;
          || (obj.cls == AssetClass && Versions(store, obj) == [])
          || (obj.cls == AssetClass && Versions(store, obj) != [] &&
                var vs := Versions(store, obj);
                assert Last(vs) in vs;
                MissingNamedComponent(store, spec, Last(vs)))
          || (obj.cls == AssetVersionClass && MissingNamedComponent(store, spec, obj)))))
    ensures IsForRead(context) && Lookup(store, clicked).Failure? ==> r == Failure(Lookup(store, clicked).error)
    ensures r.Success? && r.value.1 ==> IsForRead(context) && ComponentName(spec).None? && r.value.0 == clicked
    ensures r.Success? && r.value.0 != clicked ==> exists c :: InStore(store, c) && c.cls == ComponentClass && r.value.0 == EntityRef(c)
    ensures IsForRead(context) && Lookup(store, clicked).Success? ==>
      var obj := Lookup(store, clicked).value;
      && (obj.cls == AssetClass && Versions(store, obj) == [] ==> r == Failure(RuntimeFault(IndexOutOfRange)))
      && (obj.cls == AssetClass && Versions(store, obj) != [] ==>
            var vs := Versions(store, obj);
            assert Last(vs) in vs;
            r == FromVersion(store, spec, Last(vs), clicked))
      && (obj.cls == AssetVersionClass ==> r == FromVersion(store, spec, obj, clicked))
      && (obj.cls != AssetClass && obj.cls != AssetVersionClass ==> r == Success((clicked, false)))
  {
    if !IsForRead(context) then Success((clicked, false))
    else
      var obj :- Lookup(store, clicked);
      if obj.cls != AssetClass && obj.cls != AssetVersionClass then Success((clicked, false))
      else
        var versions := if obj.cls == AssetClass then Versions(store, obj) else [obj];
        if versions == [] then Failure(RuntimeFault(IndexOutOfRange))
        else
          var version := Last(versions);
          assert version in versions;
          FromVersion(store, spec, version, clicked)
  }

  /** Every stored selection with the asset-name parameter appended. */
  function WithAssetName(selection: seq<string>, name: string): (r: seq<string>)
    ensures |r| == |selection|
    ensures forall i :: 0 <= i < |r| ==> |r[i]| == |selection[i]| + |AssetNameParam| + |name|
    ensures forall i :: 0 <= i < |r| ==> selection[i] <= r[i]
  {
    if selection == [] then []
    else [selection[0] + AssetNameParam + name] + WithAssetName(selection[1..], name)
  }

  /** The asset name `getSelection` appends: the override text, when the box is checked and the text is not empty. */
  function AssetNameOverride(checked: bool, text: string): (r: Option<string>)
    ensures r.Some? <==> checked && text != ""
  {
    if checked && text != "" then Some(text) else None
  }

  /**
   * `getSelection` writes the suffix back, so a second call appends it
   * again: the call is not idempotent once there is a selection and a name.
   */
  lemma {:induction false} WithAssetNameNotIdempotent(selection: seq<string>, name: string)
    requires selection != []
    ensures WithAssetName(WithAssetName(selection, name), name) != WithAssetName(selection, name)
    ensures |WithAssetName(WithAssetName(selection, name), name)[0]| == |selection[0]| + 2 * (|AssetNameParam| + |name|)
  {
    var once := WithAssetName(selection, name);
    var twice := WithAssetName(once, name);
    assert |once[0]| == |selection[0]| + |AssetNameParam| + |name|;
    assert |twice[0]| == |once[0]| + |AssetNameParam| + |name|;
  }

  /** The browser's initial state. */
  const Initial: BrowserState := BrowserState(false, None, None, true, true, true, true, true, None)

  /** Tasks hidden for reads of anything but a grouping; asset versions hidden for writes. */
  method ConfigureAccess(b: BrowserWidget, spec: Specification, context: Context)
    requires b.State() == Initial
    modifies b
    ensures b.State() == Initial.(showTasks := IsOfType(spec.typ, GroupingType) || !IsForRead(context),
                                  showAssetVersions := !IsForWrite(context))
  {
    if !IsOfType(spec.typ, GroupingType) && IsForRead(context) {
      b.SetShowTasks(false);
    }
    if IsForWrite(context) {
      b.SetShowAssetVersions(false);
    }
  }

  /** The component filter for nukescript and hrox specifications, the meta filter for images. */
  method ConfigureFilters(b: BrowserWidget, spec: Specification, context: Context)
    requires b.compFilter == None && b.metaFilters == None
    modifies b
    ensures b.State() == old(b.State()).(compFilter := Configured(spec, context).compFilter,
                                         metaFilters := Configured(spec, context).metaFilters)
  {
    if spec.typ == NukeScriptType {
      b.SetComponentFilter(Some([NukeScriptComponent]));
    } else if spec.typ == HieroProjectType {
      b.SetComponentFilter(Some([HieroProjectComponent]));
    }
    if IsOfType(spec.typ, ImageType) {
      b.SetMetaFilters(Some([ImgMainKey]));
    }
  }

  /** The shot branch and the file-like branch, which override the flags set before. */
  method ConfigureKind(b: BrowserWidget, spec: Specification, context: Context)
    requires b.showAssets && b.shotsEnabled
    modifies b
    ensures var c := Configured(spec, context);
      b.State() == old(b.State()).(showAssets := c.showAssets, shotsEnabled := c.shotsEnabled,
                                   showTasks := if IsOfType(spec.typ, ShotType) || (FileLike(spec) && IsForWrite(context))
                                                then c.showTasks else old(b.showTasks))
  {
    if IsOfType(spec.typ, ShotType) {
      b.SetShotsEnabled(false);
      b.SetShowTasks(false);
      b.SetShowAssets(false);
    } else if FileLike(spec) {
      if context.access == Write {
        b.SetShowTasks(true);
        b.SetShowAssets(true);
      } else if context.access == WriteMultiple {
        b.SetShowTasks(true);
        b.SetShowAssets(false);
      }
      if PublishLocale(context) {
        b.SetShowAssets(false);
      }
    }
  }

  /** The panel: the browser it wraps, whether the asset-name box is shown, and the stored selection. */
  class FTrackBrowserWidget {
    const spec: Specification
    const context: Context
    const browser: BrowserWidget
    var showAssetNameOption: bool
    var versionsHidden: bool
    var selection: seq<string>

    /**
     * Creates the browser and applies the setters in the source's order,
     * later ones overriding earlier ones; the browser ends in the
     * configured state.
     */
    constructor (spec: Specification, context: Context)
      ensures this.spec == spec && this.context == context
      ensures fresh(browser) && browser.spec == spec && browser.context == context
      ensures browser.State() == Configured(spec, context)
      ensures showAssetNameOption == AssetNameShown(spec, context)
      ensures versionsHidden == IsForWrite(context)
      ensures selection == []
    {
      var b := new BrowserWidget(spec, context);
      var showName := true;
      if IsForMultiple(context) {
        showName := false;
      }
      if !IsOfType(spec.typ, GroupingType) && (IsForRead(context) || PublishLocale(context)) {
        showName := false;
      }
      if IsForWrite(context) && !IsOfType(spec.typ, FileType) {
        showName := false;
      }
      if IsOfType(spec.typ, ShotType) {
        showName := false;
      }
      ConfigureAccess(b, spec, context);
      ConfigureFilters(b, spec, context);
      ConfigureKind(b, spec, context);
      this.spec := spec;
      this.context := context;
      browser := b;
      showAssetNameOption := showName;
      versionsHidden := IsForWrite(context);
      selection := [];
    }

    /** The component choice of `_captureSelection` for one version. */
    method PickComponent(store: Store, version: Entity, clicked: string) returns (r: Result<(string, bool)>)
      requires ValidStore(store) && InStore(store, version)
      ensures r == FromVersion(store, spec, version, clicked)
    {
      var name := ComponentName(spec);
      var comps := Components(store, version);
      if name.Some? {
        var component := FindNamed(comps, name.value);
        if component.None? {
          return Failure(FTrackError(name.value));
        }
        r := Success((EntityRef(component.value), false));
      } else if |comps| == 1 {
        r := Success((EntityRef(comps[0]), false));
      } else {
        r := Success((clicked, true));
      }
    }

    /** The lookup and descent of `_captureSelection`, before anything is stored. */
    method Capture(store: Store, clicked: string) returns (r: Result<(string, bool)>)
      requires ValidStore(store)
      ensures r == Captured(store, spec, context, clicked)
    {
      if !IsForRead(context) {
        return Success((clicked, false));
      }
      var found := Lookup(store, clicked);
      if found.Failure? {
        return Failure(found.error);
      }
      var obj := found.value;
      if obj.cls != AssetClass && obj.cls != AssetVersionClass {
        return Success((clicked, false));
      }
      var version := obj;
      if obj.cls == AssetClass {
        var versions := Versions(store, obj);
        if |versions| == 0 {
          return Failure(RuntimeFault(IndexOutOfRange));
        }
        version := versions[|versions| - 1];
        assert version in versions;
      }
      r := PickComponent(store, version, clicked);
    }

    /**
     * `_captureSelection`: store the captured reference as a one-element
     * selection and clear the browser's valid-selection flag where the
     * version has no single component; when the capture raises nothing changes.
     */
    method CaptureSelection(store: Store, clicked: string) returns (r: Result<()>)
      requires ValidStore(store)
      modifies this, browser
      ensures var captured := Captured(store, spec, context, clicked);
        && (r.Success? <==> captured.Success?)
        && (r.Success? ==>
              && selection == [captured.value.0]
              && browser.State() == old(browser.State()).(validSelection := old(browser.validSelection) && !captured.value.1))
        && (r.Failure? ==> selection == old(selection) && browser.State() == old(browser.State()))
      ensures showAssetNameOption == old(showAssetNameOption) && versionsHidden == old(versionsHidden)
    {
      var captured := Capture(store, clicked);
      if captured.Failure? {
        return Failure(captured.error);
      }
      if captured.value.1 {
        browser.validSelection := false;
      }
      selection := [captured.value.0];
      r := Success(());
    }

    /**
     * `getSelection`: append the asset-name override to every stored
     * selection, writing it back, and return the stored list.
     */
    method GetSelection(overrideChecked: bool, assetNameText: string) returns (result: seq<string>)
      modifies this
      ensures var name := AssetNameOverride(overrideChecked, assetNameText);
        selection == if name.Some? then WithAssetName(old(selection), name.value) else old(selection)
      ensures result == selection
      ensures showAssetNameOption == old(showAssetNameOption) && versionsHidden == old(versionsHidden)
    {
      var assetName := AssetNameOverride(overrideChecked, assetNameText);
      if assetName.Some? {
        ghost var before := selection;
        WithAssetNameElements(before, assetName.value);
        var i := 0;
        while i < |selection|
          invariant 0 <= i <= |selection| == |before|
          invariant forall k :: 0 <= k < i ==> selection[k] == before[k] + AssetNameParam + assetName.value
          invariant forall k :: i <= k < |selection| ==> selection[k] == before[k]
          invariant showAssetNameOption == old(showAssetNameOption) && versionsHidden == old(versionsHidden)
        {
          selection := selection[i := selection[i] + AssetNameParam + assetName.value];
          i := i + 1;
        }
        assert selection == WithAssetName(before, assetName.value);
      }
      result := selection;
    }
  }

  /** Each element of the suffixed list is the element with the parameter appended. */
  lemma {:induction false} WithAssetNameElements(selection: seq<string>, name: string)
    ensures forall i :: 0 <= i < |selection| ==> WithAssetName(selection, name)[i] == selection[i] + AssetNameParam + name
  {
    if selection != [] {
      WithAssetNameElements(selection[1..], name);
    }
  }
}
