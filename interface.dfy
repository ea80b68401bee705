/**
 * `FTrackInterface`: the ftrack implementation of the FnAssetAPI manager
 * interface. Entity references are resolved to file paths or names, frame
 * patterns are rewritten for the host, versions are listed and chosen,
 * metadata is read and written through a key map, and batch queries and
 * registrations are dispatched to `FTrackGetRelated` and `FTrackPublish`.
 */
module Interface {
  import opened Wrappers
  import opened Text
  import opened Seqs
  import opened Ftrack
  import opened Utils
  import opened AssetApi
  import opened GetRelated
  import opened Publish

  // ---------------------------------------------------------------------------
  // Frame patterns

  /** A run of `n` hash characters. */
  function Hashes(n: nat): (s: string)
    ensures |s| == n && forall i :: 0 <= i < n ==> s[i] == '#'
  {
    seq(n, _ => '#')
  }

  /** The longest run the pattern `#{1,20}` takes at once. */
  const MaxHashRun: nat := 20

  /** How many of the leading characters of `s` the greedy `#{0,max}` takes. */
  function HashRun(s: string, max: nat): (n: nat)
    ensures n <= max && n <= |s|
    ensures forall k :: 0 <= k < n ==> s[k] == '#'
    ensures n < max && n < |s| ==> s[n] != '#'
  {
    if max == 0 || s == [] || s[0] != '#' then 0 else 1 + HashRun(s[1..], max - 1)
  }

  /** The printf token for a run of `n` hashes: '%', `n` padded to two digits, 'd'. */
  function FrameToken(n: nat): string
  {
    "%" + ZFill(NatToString(n), 2) + "d"
  }

  /**
   * `convertHashes`: the first run of hashes (at most 20 of them) becomes a
   * `%0Nd` token. A path without '#' has no match, and the code then fails
   * on `match.start`.
   */
  function ConvertHashes(path: string): (r: Result<string>)
    ensures r.Failure? <==> '#' !in path
    ensures r.Failure? ==> r.error.RuntimeFault?
  {
    var i := FirstOf(path, {'#'});
    if i == |path| then Failure(RuntimeFault("'NoneType' object has no attribute 'start'"))
    else
      var n := HashRun(path[i..], MaxHashRun);
      Success(path[..i] + FrameToken(n) + path[i + n..])
  }

  /** The first '#' of `pre + rest` is the first character of `rest` when `pre` has none. */
  lemma FirstHashAt(pre: string, rest: string)
    requires '#' !in pre && |rest| > 0 && rest[0] == '#'
    ensures FirstOf(pre + rest, {'#'}) == |pre|
  {
    assert forall j :: 0 <= j < |pre| ==> pre[j] !in {'#'};
    FirstOfAppend(pre, rest, {'#'});
  }

  /** A run of `k` hashes is taken whole when `k` is at most `max`, else its first `max`. */
  lemma HashRunOf(k: nat, post: string, max: nat)
    requires post == [] || post[0] != '#'
    ensures HashRun(Hashes(k) + post, max) == if k <= max then k else max
  {
    var s := Hashes(k) + post;
    assert forall j :: 0 <= j < k ==> s[j] == Hashes(k)[j];
    assert k < |s| ==> s[k] == post[0];
  }

  /**
   * Text before the first '#' and after the run is kept; a run of up to 20
   * hashes becomes one token for its length, and a longer run keeps the
   * hashes past the twentieth.
   */
  lemma ConvertHashesRun(pre: string, k: nat, post: string)
    requires '#' !in pre && k >= 1
    requires post == [] || post[0] != '#'
    ensures var n := if k <= MaxHashRun then k else MaxHashRun;
      ConvertHashes(pre + Hashes(k) + post) == Success(pre + FrameToken(n) + Hashes(k - n) + post)
  {
    var n := if k <= MaxHashRun then k else MaxHashRun;
    var rest := Hashes(k) + post;
    var path := pre + rest;
    AppendAssoc(pre, Hashes(k), post);
    FirstHashAt(pre, rest);
    assert path[..|pre|] == pre;
    assert path[|pre|..] == rest;
    HashRunOf(k, post, MaxHashRun);
    var tail := Hashes(k - n) + post;
    assert rest[n..] == tail;
    assert path[|pre| + n..] == tail;
    AppendAssoc(pre + FrameToken(n), Hashes(k - n), post);
  }

  /** The token is '%', two digits that read back as the run length, and 'd'. */
  lemma FrameTokenReadsBack(n: nat)
    requires 1 <= n <= MaxHashRun
    ensures var t := FrameToken(n);
      && |t| == 4 && t[0] == '%' && t[3] == 'd'
      && AllDigits(t[1..3]) && ParseNat(t[1..3]) == n
  {
    ZFillNat(n, 2);
    NatToStringShort(n);
    if n >= 10 {
      assert |NatToString(n)| == 2 by {
        assert NatToString(n) == NatToString(n / 10) + [DigitChar(n % 10)];
      }
    }
    var t := FrameToken(n);
    assert t[1..3] == ZFill(NatToString(n), 2);
  }

  // ---------------------------------------------------------------------------
  // Resolving references

  /**
   * `resolveEntityReference`: a component resolves to its import path, with
   * hashes converted when it has any; writing over a component is refused;
   * any other entity resolves to its name.
   */
  function ResolveEntityReference(store: Store, ref: string, context: Option<Context>): (r: Result<string>)
    requires ValidStore(store)
    ensures Lookup(store, ref).Failure? ==> r == Failure(Lookup(store, ref).error)
    ensures Lookup(store, ref).Success? ==>
      var obj := Lookup(store, ref).value;
      && (obj.cls == ComponentClass && context.Some? && IsForWrite(context.value) ==>
            r == Failure(InvalidEntityReference("You can't overwrite an existing asset")))
      && (obj.cls == ComponentClass && !(context.Some? && IsForWrite(context.value)) ==>
            r.Success? && ('#' !in obj.path ==> r.value == obj.path))
      && (obj.cls != ComponentClass ==> r == Success(ObjectName(Some(obj))))
  {
    var obj :- Lookup(store, ref);
    if obj.cls == ComponentClass then
      if context.Some? && IsForWrite(context.value) then
        Failure(InvalidEntityReference("You can't overwrite an existing asset"))
      else if '#' in obj.path then ConvertHashes(obj.path)
      else Success(obj.path)
    else Success(ObjectName(Some(obj)))
  }

  /** `entityExists`: whether `objectById(ref, False)` finds an object; malformed references still raise. */
  function EntityExists(store: Store, ref: string): (r: Result<bool>)
  {
    var found := ObjectByIdSpec(store, map[], ref, false).0;
    if found.Failure? then Failure(found.error) else Success(found.value.Some?)
  }

  /**
   * `throw` only decides what happens when nothing is found: an object found
   * or an exception raised is the same either way, and a miss without
   * `throw` is an InvalidEntityReference with it.
   */
  lemma ThrowOnlyMissing(store: Store, cache: map<string, Option<Entity>>, ref: string)
    ensures var quiet := ObjectByIdSpec(store, cache, ref, false).0;
      var loud := ObjectByIdSpec(store, cache, ref, true).0;
      && (quiet.Failure? ==> loud == quiet)
      && (quiet.Success? && quiet.value.Some? ==> loud == quiet)
      && (quiet.Success? && quiet.value.None? ==> loud.Failure? && loud.error.InvalidEntityReference?)
  {
    if ref != "" && IsSubstring("ftrack://", ref) {
      var url := UrlSplit(ref);
      assert ObjectByIdSpec(store, cache, ref, false) == RefObjectById(store, cache, url, false);
      assert ObjectByIdSpec(store, cache, ref, true) == RefObjectById(store, cache, url, true);
    }
  }

  /** A reference exists exactly when looking it up (with `throw` set) succeeds. */
  lemma ExistsIffLookup(store: Store, ref: string)
    requires ValidStore(store)
    ensures EntityExists(store, ref) == Success(true) <==> Lookup(store, ref).Success?
    ensures EntityExists(store, ref) == Success(false) ==> Lookup(store, ref).error.InvalidEntityReference?
  {
    ThrowOnlyMissing(store, map[], ref);
  }

  /** Every stored entity's reference exists, and its name and resolution follow from the record. */
  lemma StoredEntityResolves(store: Store, e: Entity, context: Option<Context>)
    requires ValidStore(store) && InStore(store, e) && NoDelimiters(e.id)
    ensures EntityExists(store, EntityRef(e)) == Success(true)
    ensures GetEntityName(store, EntityRef(e)) == Success(ObjectName(Some(e)))
    ensures e.cls != ComponentClass ==> ResolveEntityReference(store, EntityRef(e), context) == Success(ObjectName(Some(e)))
    ensures e.cls == ComponentClass && '#' !in e.path && !(context.Some? && IsForWrite(context.value)) ==>
      ResolveEntityReference(store, EntityRef(e), context) == Success(e.path)
  {
    LookupEntityRef(store, e);
    ExistsIffLookup(store, EntityRef(e));
  }

  /** `thumbnailSpecification`: files and shots get thumbnails. */
  predicate ThumbnailSpecification(spec: Option<Specification>)
  {
    spec.Some? && (IsOfType(spec.value.typ, FileType) || IsOfType(spec.value.typ, ShotType))
  }

  /** Every kind of file the manager publishes and a shot get thumbnails; projects and sequences do not. */
  lemma ThumbnailTypes(fields: map<string, string>)
    ensures ThumbnailSpecification(Some(Specification(ImageType, fields)))
    ensures ThumbnailSpecification(Some(Specification(NukeScriptType, fields)))
    ensures ThumbnailSpecification(Some(Specification(HieroProjectType, fields)))
    ensures ThumbnailSpecification(Some(Specification(ShotType, fields)))
    ensures !ThumbnailSpecification(Some(Specification(ProjectType, fields)))
    ensures !ThumbnailSpecification(Some(Specification(GroupingType, fields)))
    ensures !ThumbnailSpecification(None)
  {
    assert FileType + "." <= ImageType;
    assert FileType + "." <= NukeScriptType;
    assert FileType + "." <= HieroProjectType;
    assert ProjectType[..5] != FileType;
    assert ProjectType[6] != ShotType[6];
    assert ProjectType[0] != FileType[0];
  }

  /** `getEntityName`. */
  function GetEntityName(store: Store, ref: string): (r: Result<string>)
    requires ValidStore(store)
    ensures r.Success? <==> Lookup(store, ref).Success?
  {
    var obj :- Lookup(store, ref);
    Success(ObjectName(Some(obj)))
  }

  // ---------------------------------------------------------------------------
  // Display names

  /** The names of a list of entities, in order. */
  function Names(es: seq<Entity>): (r: seq<string>)
    ensures |r| == |es|
    ensures forall i :: 0 <= i < |es| ==> r[i] == ObjectName(Some(es[i]))
  {
    seq(|es|, i requires 0 <= i < |es| => ObjectName(Some(es[i])))
  }

  /** The hierarchy display name: the names root first, the object last, joined by ' / '. */
  function HierarchyName(store: Store, obj: Entity): string
    requires ValidStore(store) && InStore(store, obj)
  {
    Join(Reverse([ObjectName(Some(obj))] + Names(Parents(store, obj))), " / ")
  }

  /** `_displayNameForClip`: a component shows as the name of its asset; anything else as ''. */
  function DisplayNameForClip(store: Store, obj: Entity): (r: Result<string>)
    requires ValidStore(store) && InStore(store, obj)
    ensures obj.cls != ComponentClass ==> r == Success("")
    ensures obj.cls == ComponentClass ==>
      (r.Success? <==>
        && Parent(store, obj).Some?
        && Parent(store, Parent(store, obj).value).Some?
        && Parent(store, Parent(store, obj).value).value.name.Some?)
    ensures obj.cls == ComponentClass && r.Success? ==>
      r.value == Parent(store, Parent(store, obj).value).value.name.value
    ensures r.Failure? ==> r.error.RuntimeFault?
  {
    if obj.cls != ComponentClass then Success("")
    else match Parent(store, obj)
      case None => Failure(RuntimeFault("'NoneType' object has no attribute 'getAsset'"))
      case Some(version) =>
        match Parent(store, version)
        case None => Failure(RuntimeFault("'NoneType' object has no attribute 'getName'"))
        case Some(asset) =>
          if asset.name.Some? then Success(asset.name.value)
          else Failure(RuntimeFault("object has no attribute 'getName'"))
  }

  /**
   * `getEntityDisplayName`: under a clip locale a component shows as its
   * asset's name; otherwise (or when that name is empty) as the hierarchy path.
   */
  function GetEntityDisplayName(store: Store, ref: string, context: Option<Context>): (r: Result<string>)
    requires ValidStore(store)
    ensures Lookup(store, ref).Failure? ==> r == Failure(Lookup(store, ref).error)
    ensures Lookup(store, ref).Success? && !LocaleIsOfType(context, "clip") ==>
      r == Success(HierarchyName(store, Lookup(store, ref).value))
    ensures Lookup(store, ref).Success? && Lookup(store, ref).value.cls != ComponentClass ==>
      r == Success(HierarchyName(store, Lookup(store, ref).value))
    ensures Lookup(store, ref).Success? && LocaleIsOfType(context, "clip") ==>
      var obj := Lookup(store, ref).value;
      && (DisplayNameForClip(store, obj).Failure? ==> r == Failure(DisplayNameForClip(store, obj).error))
      && (DisplayNameForClip(store, obj).Success? && DisplayNameForClip(store, obj).value != "" ==>
            r == DisplayNameForClip(store, obj))
      && (DisplayNameForClip(store, obj) == Success("") ==> r == Success(HierarchyName(store, obj)))
  {
    var obj :- Lookup(store, ref);
    var name :- if LocaleIsOfType(context, "clip") then DisplayNameForClip(store, obj) else Success("");
    if name != "" then Success(name) else Success(HierarchyName(store, obj))
  }

  /** Naming commutes with reversing. */
  lemma {:induction false} ReverseOfNames(ps: seq<Entity>)
    ensures Reverse(Names(ps)) == Names(Reverse(ps))
  {
    if ps != [] {
      ReverseOfNames(ps[1..]);
      assert Names(ps)[1..] == Names(ps[1..]);
      assert Names(Reverse(ps[1..]) + [ps[0]]) == Names(Reverse(ps[1..])) + [ObjectName(Some(ps[0]))];
    }
  }

  /** Reversing the names of an object and its ancestors names the ancestors root first, then the object. */
  lemma ReverseNames(x: Entity, ps: seq<Entity>)
    ensures Reverse([ObjectName(Some(x))] + Names(ps)) == Names(Reverse(ps) + [x])
  {
    var s := [ObjectName(Some(x))] + Names(ps);
    assert s[1..] == Names(ps);
    ReverseOfNames(ps);
    assert Names(Reverse(ps) + [x]) == Names(Reverse(ps)) + [ObjectName(Some(x))];
  }

  /** Without asset types, the parts of a path are the names of the ancestors root first, then the object. */
  lemma PathPartsAreNames(store: Store, obj: Entity)
    requires ValidStore(store) && InStore(store, obj)
    ensures PathParts(store, obj, false) == Names(Reverse(Parents(store, obj)) + [obj])
  {
  }

  /**
   * The hierarchy display name is the path `getPath` builds with ' / ' and
   * without asset types (a project without a parent shows as its name).
   */
  lemma HierarchyNameIsSlashPath(store: Store, obj: Entity)
    requires ValidStore(store) && InStore(store, obj)
    requires obj.cls == ProjectClass ==> obj.parent.None?
    ensures HierarchyName(store, obj) == GetPath(store, obj, false, true, false)
  {
    var ps := Parents(store, obj);
    ReverseNames(obj, ps);
    if obj.cls == ProjectClass {
      assert ps == [];
      assert Names(Reverse(ps) + [obj]) == [ObjectName(Some(obj))];
    } else {
      PathPartsAreNames(store, obj);
    }
  }

  // ---------------------------------------------------------------------------
  // Versions

  /** `str(v.getVersion())`. */
  function VersionLabelOf(v: Entity): string
  {
    if v.version.Some? then IntToString(v.version.value) else "None"
  }

  /**
   * `str(_getVersionName(obj))`: the version of a component's version, of a
   * version, or of an asset's latest version; '' for anything else.
   */
  function VersionName(store: Store, obj: Entity): (r: Result<string>)
    requires ValidStore(store) && InStore(store, obj)
    ensures r.Failure? <==>
      || (obj.cls == ComponentClass && Parent(store, obj).None?)
      || (obj.cls == AssetClass && Versions(store, obj) == [])
    ensures r.Success? && obj.cls !in {ComponentClass, AssetVersionClass, AssetClass} ==> r.value == ""
    ensures obj.cls == AssetVersionClass ==> r == Success(VersionLabelOf(obj))
    ensures obj.cls == ComponentClass && Parent(store, obj).Some? ==>
      r == Success(VersionLabelOf(Parent(store, obj).value))
    ensures obj.cls == AssetClass && Versions(store, obj) != [] ==>
      r == Success(VersionLabelOf(Last(Versions(store, obj))))
  {
    match obj.cls
    case ComponentClass =>
      (match Parent(store, obj)
       case None => Failure(RuntimeFault("'NoneType' object has no attribute 'getVersion'"))
       case Some(v) => Success(VersionLabelOf(v)))
    case AssetVersionClass => Success(VersionLabelOf(obj))
    case AssetClass =>
      var vs := Versions(store, obj);
      if vs == [] then Failure(RuntimeFault("list index out of range")) else Success(VersionLabelOf(Last(vs)))
    case _ => Success("")
  }

  /**
   * A component, the version it belongs to, and an asset whose latest
   * version that is all carry the same version name.
   */
  lemma VersionNameAgrees(store: Store, c: Entity, asset: Entity)
    requires ValidStore(store) && InStore(store, c) && InStore(store, asset)
    requires c.cls == ComponentClass && Parent(store, c).Some?
    requires asset.cls == AssetClass && Versions(store, asset) != []
    requires Last(Versions(store, asset)) == Parent(store, c).value
    requires Parent(store, c).value.cls == AssetVersionClass
    ensures VersionName(store, c).Success?
    ensures VersionName(store, c) == VersionName(store, Parent(store, c).value) == VersionName(store, asset)
  {
  }

  /**
   * The versions `_objectVersions` walks and the component name it looks for:
   * the asset's versions and the component's own name for a component, the
   * asset's versions and 'main' for a version or an asset, nothing otherwise.
   */
  function VersionsToSearch(store: Store, obj: Entity): (r: Result<(seq<Entity>, string)>)
    requires ValidStore(store) && InStore(store, obj)
    ensures r.Success? ==> forall i :: 0 <= i < |r.value.0| ==> InStore(store, r.value.0[i])
    ensures r.Success? && obj.cls != ComponentClass ==> r.value.1 == "main"
    ensures obj.cls == AssetClass ==> r == Success((Versions(store, obj), "main"))
  {
    assert forall e :: InStore(store, e) ==> forall i :: 0 <= i < |Versions(store, e)| ==> InStore(store, Versions(store, e)[i]);
    match obj.cls
    case ComponentClass =>
      (match Parent(store, obj)
       case None => Failure(RuntimeFault("'NoneType' object has no attribute 'getParent'"))
       case Some(v) =>
         match Parent(store, v)
         case None => Failure(RuntimeFault("'NoneType' object has no attribute 'getVersions'"))
         case Some(a) => Success((Versions(store, a), ObjectName(Some(obj)))))
    case AssetVersionClass =>
      (match Parent(store, obj)
       case None => Failure(RuntimeFault("'NoneType' object has no attribute 'getVersions'"))
       case Some(a) => Success((Versions(store, a), "main")))
    case AssetClass => Success((Versions(store, obj), "main"))
    case _ => Success(([], "main"))
  }

  /** For each version in turn, its component called `name`; versions without one are skipped. */
  function NamedComponents(store: Store, versions: seq<Entity>, name: string): (r: seq<Entity>)
    requires ValidStore(store) && forall i :: 0 <= i < |versions| ==> InStore(store, versions[i])
    ensures |r| <= |versions|
    ensures forall i :: 0 <= i < |r| ==> InStore(store, r[i]) && r[i].cls == ComponentClass && r[i].name == Some(name)
  {
    if versions == [] then []
    else
      var rest := NamedComponents(store, versions[1..], name);
      match FindNamed(Components(store, versions[0]), name)
      case None => rest
      case Some(c) =>
        assert c in Children(store, versions[0]);
        [c] + rest
  }

  /** When every version has a component of that name, there is exactly one per version, in version order. */
  lemma {:induction false} NamedComponentsOnePerVersion(store: Store, versions: seq<Entity>, name: string)
    requires ValidStore(store) && forall i :: 0 <= i < |versions| ==> InStore(store, versions[i])
    requires forall i :: 0 <= i < |versions| ==> FindNamed(Components(store, versions[i]), name).Some?
    ensures var r := NamedComponents(store, versions, name);
      && |r| == |versions|
      && forall i :: 0 <= i < |versions| ==> r[i] == FindNamed(Components(store, versions[i]), name).value
  {
    if versions != [] {
      NamedComponentsOnePerVersion(store, versions[1..], name);
    }
  }

  /** The result of `_objectVersions`: the matching component of every relevant version. */
  function ObjectVersionsOf(store: Store, obj: Entity): (r: Result<seq<Entity>>)
    requires ValidStore(store) && InStore(store, obj)
    ensures r.Success? ==> forall i :: 0 <= i < |r.value| ==> InStore(store, r.value[i]) && r.value[i].cls == ComponentClass
    ensures r.Success? && obj.cls !in {ComponentClass, AssetVersionClass, AssetClass} ==> r.value == []
  {
    var (versions, name) :- VersionsToSearch(store, obj);
    Success(NamedComponents(store, versions, name))
  }

  /** Trimming to `maxResults`: the most recent ones when there are more, else all of them. */
  function TrimVersions<T>(vs: seq<T>, maxResults: int): (r: seq<T>)
    ensures |r| == if maxResults > 0 && |vs| > maxResults then maxResults else |vs|
    ensures r == vs[|vs| - |r|..]
  {
    if maxResults > 0 && |vs| > maxResults then vs[|vs| - maxResults..] else vs
  }

  /** `dict(zip(keys, vals))`: built left to right, so a later key wins. */
  function DictOf(keys: seq<string>, vals: seq<string>): (r: map<string, string>)
    requires |keys| == |vals|
    ensures forall k :: k in r <==> k in keys
    ensures forall k :: k in r ==> r[k] in vals
  {
    if keys == [] then map[]
    else
      var n := |keys| - 1;
      DictOf(keys[..n], vals[..n])[keys[n] := vals[n]]
  }

  /** A key maps to the value paired with its last occurrence. */
  lemma {:induction false} DictOfLastWins(keys: seq<string>, vals: seq<string>, i: nat)
    requires |keys| == |vals| && i < |keys|
    requires forall j :: i < j < |keys| ==> keys[j] != keys[i]
    ensures keys[i] in DictOf(keys, vals) && DictOf(keys, vals)[keys[i]] == vals[i]
    decreases |keys|
  {
    var n := |keys| - 1;
    if i < n {
      DictOfLastWins(keys[..n], vals[..n], i);
    }
  }

  /** The version names of a list of components, stopping at the first that fails. */
  function VersionNames(store: Store, cs: seq<Entity>): (r: Result<seq<string>>)
    requires ValidStore(store) && forall i :: 0 <= i < |cs| ==> InStore(store, cs[i])
    ensures r.Success? ==> |r.value| == |cs| && forall i :: 0 <= i < |cs| ==> VersionName(store, cs[i]) == Success(r.value[i])
  {
    Collect(seq(|cs|, i requires 0 <= i < |cs| => VersionName(store, cs[i])))
  }

  /** `dict((str(_getVersionName(v)), v.getEntityRef()) for v in cs)`. */
  function VersionRefs(store: Store, cs: seq<Entity>): (r: Result<map<string, string>>)
    requires ValidStore(store) && forall i :: 0 <= i < |cs| ==> InStore(store, cs[i])
    ensures r.Success? ==> forall k :: k in r.value ==> r.value[k] in Refs(cs)
  {
    var names :- VersionNames(store, cs);
    Success(DictOf(names, Refs(cs)))
  }

  /**
   * A component whose version name no later component shares is listed
   * under that name with its own reference.
   */
  lemma VersionRefsListed(store: Store, cs: seq<Entity>, i: nat)
    requires ValidStore(store) && forall i :: 0 <= i < |cs| ==> InStore(store, cs[i])
    requires VersionNames(store, cs).Success? && i < |cs|
    requires forall j :: i < j < |cs| ==> VersionName(store, cs[j]) != VersionName(store, cs[i])
    ensures var name := VersionName(store, cs[i]).value;
      VersionRefs(store, cs).Success? && name in VersionRefs(store, cs).value
      && VersionRefs(store, cs).value[name] == EntityRef(cs[i])
  {
    var names := VersionNames(store, cs).value;
    DictOfLastWins(names, Refs(cs), i);
  }

  /**
   * `getEntityVersions`: the version name and reference of each relevant
   * component, the list trimmed to the `maxResults` most recent; errors while
   * listing become EntityResolutionError.
   */
  function GetEntityVersions(store: Store, ref: string, maxResults: int): (r: Result<map<string, string>>)
    requires ValidStore(store)
    ensures Lookup(store, ref).Failure? ==> r == Failure(Lookup(store, ref).error)
    ensures Lookup(store, ref).Success? && ObjectVersionsOf(store, Lookup(store, ref).value).Failure? ==>
      r == Failure(EntityResolutionError(ObjectVersionsOf(store, Lookup(store, ref).value).error.msg))
    ensures r.Success? ==>
      var kept := TrimVersions(ObjectVersionsOf(store, Lookup(store, ref).value).value, maxResults);
      forall k :: k in r.value ==> r.value[k] in Refs(kept)
    ensures Lookup(store, ref).Success? && ObjectVersionsOf(store, Lookup(store, ref).value).Success? ==>
      var found := ObjectVersionsOf(store, Lookup(store, ref).value).value;
      var kept := TrimVersions(found, maxResults);
      && (forall i :: 0 <= i < |kept| ==> kept[i] == found[|found| - |kept| + i])
      && (r.Success? <==> VersionNames(store, kept).Success?)
      && (r.Success? ==>
            && r.value == DictOf(VersionNames(store, kept).value, Refs(kept))
            && forall k :: k in r.value <==> k in VersionNames(store, kept).value)
  {
    var obj :- Lookup(store, ref);
    var found := ObjectVersionsOf(store, obj);
    if found.Failure? then Failure(EntityResolutionError(found.error.msg))
    else
      var kept := TrimVersions(found.value, maxResults);
      assert forall i :: 0 <= i < |kept| ==> kept[i] == found.value[|found.value| - |kept| + i];
      VersionRefs(store, kept)
  }

  /** `getEntityVersionName`. */
  function GetEntityVersionName(store: Store, ref: string): (r: Result<string>)
    requires ValidStore(store)
    ensures Lookup(store, ref).Success? ==> r == VersionName(store, Lookup(store, ref).value)
  {
    var obj :- Lookup(store, ref);
    VersionName(store, obj)
  }

  /**
   * `getFinalizedEntityVersion`: the reference itself when no version is
   * asked for or the asked one is the current one; else the reference of the
   * relevant component with that version name; else EntityResolutionError.
   */
  function GetFinalizedEntityVersion(store: Store, ref: string, context: Option<Context>, version: Option<string>)
    : (r: Result<string>)
    requires ValidStore(store)
    ensures Lookup(store, ref).Failure? ==> r == Failure(Lookup(store, ref).error)
    ensures (&& Lookup(store, ref).Success? && GetEntityVersionName(store, ref).Success?
             && (version.None? || version.value == "" || version.value == GetEntityVersionName(store, ref).value))
      ==> r == Success(ref)
    ensures r.Success? && r.value != ref ==>
      && version.Some?
      && ObjectVersionsOf(store, Lookup(store, ref).value).Success?
      && r.value in Refs(ObjectVersionsOf(store, Lookup(store, ref).value).value)
  {
    var obj :- Lookup(store, ref);
    var objVersion :- VersionName(store, obj);
    if version.None? || version.value == "" || objVersion == version.value then Success(ref)
    else
      var comps :- ObjectVersionsOf(store, obj);
      var versions :- VersionRefs(store, comps);
      if version.value in versions then Success(versions[version.value])
      else
        var display :- GetEntityDisplayName(store, ref, context);
        Failure(EntityResolutionError("Unable to find a version matching '" + version.value + "' for '" + display + "'"))
  }

  /**
   * Asking for another version's name gives the reference of the last
   * relevant component carrying that version name.
   */
  lemma FinalizedPicksNamedVersion(store: Store, ref: string, context: Option<Context>, i: nat)
    requires ValidStore(store) && Lookup(store, ref).Success?
    requires GetEntityVersionName(store, ref).Success?
    requires ObjectVersionsOf(store, Lookup(store, ref).value).Success?
    requires var cs := ObjectVersionsOf(store, Lookup(store, ref).value).value;
      && VersionNames(store, cs).Success? && i < |cs|
      && VersionName(store, cs[i]).value != ""
      && VersionName(store, cs[i]).value != GetEntityVersionName(store, ref).value
      && forall j :: i < j < |cs| ==> VersionName(store, cs[j]) != VersionName(store, cs[i])
    ensures var cs := ObjectVersionsOf(store, Lookup(store, ref).value).value;
      GetFinalizedEntityVersion(store, ref, context, Some(VersionName(store, cs[i]).value)) == Success(EntityRef(cs[i]))
  {
    var cs := ObjectVersionsOf(store, Lookup(store, ref).value).value;
    VersionRefsListed(store, cs, i);
  }

  // ---------------------------------------------------------------------------
  // Metadata

  /** `_metamap`: native ftrack keys and the FnAssetAPI field names they stand for. */
  const Metamap: map<string, string> :=
    map["fullname" := DisplayNameField, "fstart" := FrameStartField, "fend" := FrameEndField]

  /** The inverse of `Metamap`, written out. */
  const RevMetamap: map<string, string> :=
    map[DisplayNameField := "fullname", FrameStartField := "fstart", FrameEndField := "fend"]

  /** `rev` undoes `m` and `m` undoes `rev`. */
  ghost predicate IsInverse(rev: map<string, string>, m: map<string, string>)
  {
    && (forall k :: k in m ==> m[k] in rev && rev[m[k]] == k)
    && (forall v :: v in rev ==> rev[v] in m && m[rev[v]] == v)
  }

  /** No two native keys map to the same field name. */
  lemma MetamapInjective()
    ensures forall k1, k2 :: k1 in Metamap && k2 in Metamap && Metamap[k1] == Metamap[k2] ==> k1 == k2
  {
  }

  /** The written-out reverse map is the inverse of `Metamap`. */
  lemma RevMetamapInverse()
    ensures IsInverse(RevMetamap, Metamap)
  {
  }

  /** Adding one native key to the reverse map being built adds its own reverse entry and no other. */
  lemma InverseStep(k: string)
    requires k in Metamap
    ensures Metamap[k] in RevMetamap && RevMetamap[Metamap[k]] == k
    ensures forall v :: v in RevMetamap && RevMetamap[v] == k ==> v == Metamap[k]
  {
  }

  /** A map has at most one inverse. */
  lemma InverseUnique(a: map<string, string>, b: map<string, string>, m: map<string, string>)
    requires IsInverse(a, m) && IsInverse(b, m)
    ensures a == b
  {
    assert forall v :: v in a ==> v in b && b[v] == a[v] by {
      forall v | v in a
        ensures v in b && b[v] == a[v]
      {
        assert m[a[v]] == v;
      }
    }
    assert forall v :: v in b ==> v in a by {
      forall v | v in b
        ensures v in a
      {
        assert m[b[v]] == v;
      }
    }
  }

  /** `obj.__class__.__name__`. */
  function ClassName(cls: EntityClass): string
  {
    match cls
    case ProjectClass => "Project"
    case TaskClass => "Task"
    case AssetClass => "Asset"
    case AssetVersionClass => "AssetVersion"
    case ComponentClass => "Component"
    case TaskTypeClass => "TaskType"
  }

  /** `_metakeys.get(name, [])`: the native keys each class exposes as metadata. */
  function MetaKeysOf(className: string): seq<string>
  {
    if className == "Project" then ["fullname", "startdate", "enddate"]
    else if className == "Task" then ["fstart", "fend"]
    else if className == "AssetVersion" then ["comment"]
    else []
  }

  function MetaKeys(cls: EntityClass): seq<string>
  {
    MetaKeysOf(ClassName(cls))
  }

  /** `_metamap.get(k, k)`. */
  function MapKey(k: string): string
  {
    if k in Metamap then Metamap[k] else k
  }

  /** `_revMetamap.get(fnKey, fnKey)`. */
  function RevKey(fnKey: string): string
  {
    if fnKey in RevMetamap then RevMetamap[fnKey] else fnKey
  }

  /** Every class lists distinct keys, under distinct field names, none of them 'handles', each read back by `RevKey`. */
  lemma MetaKeysWellFormed(cls: EntityClass)
    ensures var ks := MetaKeys(cls);
      && (forall i, j :: 0 <= i < j < |ks| ==> ks[i] != ks[j] && MapKey(ks[i]) != MapKey(ks[j]))
      && "handles" !in ks
      && forall i :: 0 <= i < |ks| ==> RevKey(MapKey(ks[i])) == ks[i]
  {
  }

  /** `obj.get(k)`: the native attribute, None when the object has none. */
  function NativeValue(e: Entity, k: string): Option<string>
  {
    if k in e.fields then Some(e.fields[k]) else None
  }

  /** `obj.getMeta()` as a dictionary whose values may also be None. */
  function MetaValues(meta: map<string, string>): (r: map<string, Option<string>>)
    ensures forall k :: k in r <==> k in meta
    ensures forall k :: k in r ==> r[k] == Some(meta[k])
  {
    map k | k in meta :: Some(meta[k])
  }

  /** The loop of `getEntityMetadata`: each listed native key overwrites the entry of its field name. */
  function MappedMetadata(md: map<string, Option<string>>, e: Entity, keys: seq<string>): map<string, Option<string>>
    decreases |keys|
  {
    if keys == [] then md
    else MappedMetadata(md[MapKey(keys[0]) := NativeValue(e, keys[0])], e, keys[1..])
  }

  /** An entry no listed key maps to is left as it was. */
  lemma {:induction false} MappedMetadataUntouched(md: map<string, Option<string>>, e: Entity, keys: seq<string>, x: string)
    requires forall j :: 0 <= j < |keys| ==> MapKey(keys[j]) != x
    ensures x in MappedMetadata(md, e, keys) <==> x in md
    ensures x in md ==> MappedMetadata(md, e, keys)[x] == md[x]
    decreases |keys|
  {
    if keys != [] {
      MappedMetadataUntouched(md[MapKey(keys[0]) := NativeValue(e, keys[0])], e, keys[1..], x);
    }
  }

  /** A listed key whose field name no later key shares ends up holding its native value. */
  lemma {:induction false} MappedMetadataSets(md: map<string, Option<string>>, e: Entity, keys: seq<string>, i: nat)
    requires i < |keys|
    requires forall j :: i < j < |keys| ==> MapKey(keys[j]) != MapKey(keys[i])
    ensures MapKey(keys[i]) in MappedMetadata(md, e, keys)
    ensures MappedMetadata(md, e, keys)[MapKey(keys[i])] == NativeValue(e, keys[i])
    decreases |keys|
  {
    var md' := md[MapKey(keys[0]) := NativeValue(e, keys[0])];
    if i == 0 {
      MappedMetadataUntouched(md', e, keys[1..], MapKey(keys[0]));
    } else {
      MappedMetadataSets(md', e, keys[1..], i - 1);
    }
  }

  /** The result of `getEntityMetadata` for an entity. */
  function EntityMetadata(e: Entity): map<string, Option<string>>
  {
    MappedMetadata(MetaValues(e.meta), e, MetaKeys(e.cls))
  }

  /**
   * The metadata of an entity shows each native key of its class under its
   * field name, with the native value, and every other meta entry as stored.
   */
  lemma EntityMetadataContents(e: Entity)
    ensures var ks := MetaKeys(e.cls);
      forall i :: 0 <= i < |ks| ==> MapKey(ks[i]) in EntityMetadata(e) && EntityMetadata(e)[MapKey(ks[i])] == NativeValue(e, ks[i])
    ensures var ks := MetaKeys(e.cls);
      forall x :: x in e.meta && (forall i :: 0 <= i < |ks| ==> MapKey(ks[i]) != x) ==>
        x in EntityMetadata(e) && EntityMetadata(e)[x] == Some(e.meta[x])
  {
    var ks := MetaKeys(e.cls);
    MetaKeysWellFormed(e.cls);
    forall i | 0 <= i < |ks|
      ensures MapKey(ks[i]) in EntityMetadata(e) && EntityMetadata(e)[MapKey(ks[i])] == NativeValue(e, ks[i])
    {
      MappedMetadataSets(MetaValues(e.meta), e, ks, i);
    }
    forall x | x in e.meta && (forall i :: 0 <= i < |ks| ==> MapKey(ks[i]) != x)
      ensures x in EntityMetadata(e) && EntityMetadata(e)[x] == Some(e.meta[x])
    {
      MappedMetadataUntouched(MetaValues(e.meta), e, ks, x);
    }
  }

  /** `getEntityMetadataEntry`: the native value when the key maps to one the class lists, else the meta entry. */
  function MetadataEntry(e: Entity, fnKey: string): Option<string>
  {
    var key := RevKey(fnKey);
    if key in MetaKeys(e.cls) then NativeValue(e, key)
    else if fnKey in e.meta then Some(e.meta[fnKey])
    else None
  }

  /**
   * Reading one entry agrees with reading the whole metadata, for every
   * field name that is not itself a native key of the map.
   */
  lemma EntryAgreesWithMetadata(e: Entity, fnKey: string)
    requires fnKey in EntityMetadata(e) && fnKey !in Metamap
    ensures MetadataEntry(e, fnKey) == EntityMetadata(e)[fnKey]
  {
    var ks := MetaKeys(e.cls);
    MetaKeysWellFormed(e.cls);
    EntityMetadataContents(e);
    if i :| 0 <= i < |ks| && MapKey(ks[i]) == fnKey {
      assert RevKey(fnKey) == ks[i];
    } else {
      MappedMetadataUntouched(MetaValues(e.meta), e, ks, fnKey);
      assert RevKey(fnKey) !in ks;
    }
  }

  /** `setEntityMetadataEntry` as written: the meta entry is stored under the native key, not the field name. */
  function SetEntryAsWritten(e: Entity, fnKey: string, value: string): Entity
  {
    var key := RevKey(fnKey);
    var e1 := if key in MetaKeys(e.cls) then e.(fields := e.fields[key := value]) else e;
    e1.(meta := e1.meta[key := value])
  }

  /** `setEntityMetadataEntry` with the meta entry stored under the field name it was given. */
  function SetEntry(e: Entity, fnKey: string, value: string): (r: Entity)
    ensures r == e.(fields := r.fields, meta := r.meta)
  {
    var key := RevKey(fnKey);
    var e1 := if key in MetaKeys(e.cls) then e.(fields := e.fields[key := value]) else e;
    e1.(meta := e1.meta[fnKey := value])
  }

  /** After setting an entry, reading it gives the value back and no other entry changes. */
  lemma SetEntryRoundTrip(e: Entity, fnKey: string, value: string)
    ensures MetadataEntry(SetEntry(e, fnKey, value), fnKey) == Some(value)
    ensures forall g :: g != fnKey && RevKey(g) != RevKey(fnKey) ==>
      MetadataEntry(SetEntry(e, fnKey, value), g) == MetadataEntry(e, g)
  {
  }

  /**
   * As written, a field name that maps to a native key the class does not
   * list (a project's start frame) is stored under the native key, so
   * reading it back finds nothing.
   */
  lemma AsWrittenEntryLost(e: Entity, value: string)
    requires e.cls == ProjectClass && FrameStartField !in e.meta
    ensures MetadataEntry(SetEntryAsWritten(e, FrameStartField, value), FrameStartField) == None
    ensures SetEntryAsWritten(e, FrameStartField, value).meta["fstart"] == value
    ensures MetadataEntry(SetEntry(e, FrameStartField, value), FrameStartField) == Some(value)
  {
    assert RevKey(FrameStartField) == "fstart";
    assert "fstart" !in MetaKeys(e.cls);
  }

  /** For field names outside the map the code as written and the corrected one agree. */
  lemma AsWrittenAgreesOffMap(e: Entity, fnKey: string, value: string)
    requires fnKey !in RevMetamap
    ensures SetEntryAsWritten(e, fnKey, value) == SetEntry(e, fnKey, value)
  {
  }

  /** An optionally signed run of decimal digits, white space allowed after the sign. */
  function ParseSigned(t: string): (r: Option<int>)
  {
    if |t| > 0 && (t[0] == '-' || t[0] == '+') then
      var d := LStrip(t[1..]);
      if |d| > 0 && AllDigits(d) then
        var n: int := ParseNat(d);
        Some(if t[0] == '-' then -n else n)
      else None
    else if |t| > 0 && AllDigits(t) then Some(ParseNat(t))
    else None
  }

  /**
   * `int(s)` in base 10 as Python 2 reads a string: white space around the
   * literal is skipped.
   */
  function ParseIntLiteral(s: string): (r: Option<int>)
  {
    ParseSigned(RStrip(LStrip(s)))
  }

  /** An unsigned run of digits reads as its value. */
  lemma {:induction false} ParseSignedDigits(d: string)
    requires |d| > 0 && AllDigits(d)
    ensures ParseSigned(d) == Some(ParseNat(d))
  {
    assert IsDigit(d[0]);
  }

  /** A '-' followed by a run of digits reads as the negated value. */
  lemma {:induction false} ParseSignedMinus(d: string)
    requires |d| > 0 && AllDigits(d)
    ensures ParseSigned("-" + d) == Some(-(ParseNat(d) as int))
  {
    assert ("-" + d)[1..] == d;
    LStripDigits(d);
  }

  /** `str(i)` of a non-negative integer reads back as `i`. */
  lemma {:induction false} ParseSignedOfNonNegative(i: int)
    requires i >= 0
    ensures ParseSigned(IntToString(i)) == Some(i)
  {
    var d := NatToString(i);
    assert IntToString(i) == d;
    calc {
      ParseSigned(d);
      == { ParseSignedDigits(d); }
      Some(ParseNat(d) as int);
      == { ParseNatToString(i); }
      Some(i);
    }
  }

  /** `str(i)` of a negative integer reads back as `i`. */
  lemma {:induction false} ParseSignedOfNegative(i: int)
    requires i < 0
    ensures ParseSigned(IntToString(i)) == Some(i)
  {
    var d := NatToString(-i);
    assert IntToString(i) == "-" + d;
    calc {
      ParseSigned("-" + d);
      == { ParseSignedMinus(d); }
      Some(-(ParseNat(d) as int));
      == { ParseNatToString(-i); }
      Some(i);
    }
  }

  /** `str(i)` reads back as `i`. */
  lemma {:induction false} ParseSignedOfString(i: int)
    ensures ParseSigned(IntToString(i)) == Some(i)
  {
    if i < 0 {
      ParseSignedOfNegative(i);
    } else {
      ParseSignedOfNonNegative(i);
    }
  }

  /** A literal padded with white space still reads as its integer. */
  lemma ParseIntLiteralPadded(pre: string, i: int, post: string)
    requires AllSpace(pre) && AllSpace(post)
    ensures ParseIntLiteral(pre + IntToString(i) + post) == Some(i)
  {
    var s := IntToString(i);
    assert !IsSpace(s[0]) && !IsSpace(s[|s| - 1]);
    RStripPadded(s, post);
    assert pre + s + post == pre + (s + post);
    assert !IsSpace((s + post)[0]);
    LStripPadded(pre, s + post);
    ParseSignedOfString(i);
  }

  /** `int(str(i)) == i`. */
  lemma ParseIntLiteralOfString(i: int)
    ensures ParseIntLiteral(IntToString(i)) == Some(i)
  {
    ParseIntLiteralPadded("", i, "");
    assert "" + IntToString(i) + "" == IntToString(i);
  }

  /** `int(s)`, raising ValueError on anything else. */
  function ToInt(s: string): (r: Result<int>)
    ensures r.Success? <==> ParseIntLiteral(s).Some?
    ensures r.Success? ==> r.value == ParseIntLiteral(s).value
    ensures r.Failure? ==> r.error.ValueError?
  {
    match ParseIntLiteral(s)
    case Some(n) => Success(n)
    case None => Failure(ValueError("invalid literal for int() with base 10: '" + s + "'"))
  }

  /**
   * The handle width: the frame-in minus the frame-start, when both are
   * given and non-empty; None when either is missing or empty.
   */
  function HandleWidth(data: map<string, string>): (r: Result<Option<int>>)
    ensures !(Truthy(GetOpt(data, FrameInField)) && Truthy(GetOpt(data, FrameStartField))) ==> r == Success(None)
    ensures (Truthy(GetOpt(data, FrameInField)) && Truthy(GetOpt(data, FrameStartField))
      && ParseIntLiteral(data[FrameStartField]).Some? && ParseIntLiteral(data[FrameInField]).Some?) ==>
      r == Success(Some(ParseIntLiteral(data[FrameInField]).value - ParseIntLiteral(data[FrameStartField]).value))
    ensures r.Failure? ==> r.error.ValueError?
  {
    if Truthy(GetOpt(data, FrameInField)) && Truthy(GetOpt(data, FrameStartField)) then
      var frameStart :- ToInt(data[FrameStartField]);
      var frameIn :- ToInt(data[FrameInField]);
      Success(Some(frameIn - frameStart))
    else Success(None)
  }

  /** `d.get(k, None)`. */
  function GetOpt(d: map<string, string>, k: string): Option<string>
  {
    if k in d then Some(d[k]) else None
  }

  /** The field names of a list of native keys. */
  function MappedKeys(keys: seq<string>): set<string>
  {
    set i | 0 <= i < |keys| :: MapKey(keys[i])
  }

  /**
   * The key loop of `setEntityMetadata`: each listed native key whose field
   * name is in the data is popped from the data and set on the object.
   */
  function PopMapped(e: Entity, data: map<string, string>, keys: seq<string>): (out: (Entity, map<string, string>))
    decreases |keys|
  {
    if keys == [] then (e, data)
    else
      var fnKey := MapKey(keys[0]);
      if fnKey in data then PopMapped(e.(fields := e.fields[keys[0] := data[fnKey]]), data - {fnKey}, keys[1..])
      else PopMapped(e, data, keys[1..])
  }

  /**
   * Popping takes exactly the field names of the listed keys out of the
   * data, sets each listed key that was present, and changes nothing else.
   */
  lemma {:induction false} PopMappedFacts(e: Entity, data: map<string, string>, keys: seq<string>)
    requires forall i, j :: 0 <= i < j < |keys| ==> keys[i] != keys[j] && MapKey(keys[i]) != MapKey(keys[j])
    ensures var (e', rest) := PopMapped(e, data, keys);
      && e' == e.(fields := e'.fields)
      && rest == data - MappedKeys(keys)
      && (forall i :: 0 <= i < |keys| && MapKey(keys[i]) in data ==>
            keys[i] in e'.fields && e'.fields[keys[i]] == data[MapKey(keys[i])])
      && (forall f :: f !in keys ==> NativeValue(e', f) == NativeValue(e, f))
    decreases |keys|
  {
    if keys != [] {
      var fnKey := MapKey(keys[0]);
      var e1 := if fnKey in data then e.(fields := e.fields[keys[0] := data[fnKey]]) else e;
      var d1 := if fnKey in data then data - {fnKey} else data;
      PopMappedFacts(e1, d1, keys[1..]);
      assert MappedKeys(keys) == {fnKey} + MappedKeys(keys[1..]) by {
        forall x | x in MappedKeys(keys)
          ensures x in {fnKey} + MappedKeys(keys[1..])
        {
          var i :| 0 <= i < |keys| && MapKey(keys[i]) == x;
          if i > 0 {
            assert MapKey(keys[1..][i - 1]) == x;
          }
        }
      }
      var (e', rest) := PopMapped(e, data, keys);
      assert keys[0] !in keys[1..];
      forall i | 0 <= i < |keys| && MapKey(keys[i]) in data
        ensures keys[i] in e'.fields && e'.fields[keys[i]] == data[MapKey(keys[i])]
      {
        if i > 0 {
          assert keys[1..][i - 1] == keys[i];
        }
      }
    }
  }

  /**
   * `setEntityMetadata` on an entity once the handle width `h` is known: the
   * new entity and the data left after popping. Handles are set first, then
   * the listed native keys, then the meta is replaced by the remaining data,
   * merged over the existing meta when `merge` is set.
   */
  function SetMetadataWith(e: Entity, data: map<string, string>, h: Option<int>, merge: bool)
    : (Entity, map<string, string>)
  {
    var e1 := if h.Some? then e.(fields := e.fields["handles" := IntToString(h.value)]) else e;
    var (e2, rest) := PopMapped(e1, data, MetaKeys(e.cls));
    (e2.(meta := if merge then e2.meta + rest else rest), rest)
  }

  /** `setEntityMetadata` on an entity, including the ValueError of an unreadable frame number. */
  function SetMetadataSpec(e: Entity, data: map<string, string>, merge: bool)
    : (r: Result<(Entity, map<string, string>)>)
    ensures r.Failure? <==> HandleWidth(data).Failure?
    ensures r.Success? ==> r.value == SetMetadataWith(e, data, HandleWidth(data).value, merge)
  {
    var h :- HandleWidth(data);
    Success(SetMetadataWith(e, data, h, merge))
  }

  /** The effects of `SetMetadataWith`, whatever the handle width. */
  lemma SetMetadataWithEffects(e: Entity, data: map<string, string>, h: Option<int>, merge: bool)
    ensures var (e', rest) := SetMetadataWith(e, data, h, merge);
      var ks := MetaKeys(e.cls);
      && e'.id == e.id && e'.parent == e.parent && e'.children == e.children && e'.depth == e.depth
      && (h.Some? ==> NativeValue(e', "handles") == Some(IntToString(h.value)))
      && rest == data - MappedKeys(ks)
      && (forall i :: 0 <= i < |ks| && MapKey(ks[i]) in data ==> NativeValue(e', ks[i]) == Some(data[MapKey(ks[i])]))
      && (forall k :: k in rest ==> k in e'.meta && e'.meta[k] == rest[k])
      && (merge ==> forall k :: k in e.meta && k !in rest ==> k in e'.meta && e'.meta[k] == e.meta[k])
      && (!merge ==> e'.meta == rest)
  {
    var e1 := if h.Some? then e.(fields := e.fields["handles" := IntToString(h.value)]) else e;
    MetaKeysWellFormed(e.cls);
    PopMappedFacts(e1, data, MetaKeys(e.cls));
  }

  /**
   * After `setEntityMetadata`: the handle width is stored, every listed key
   * given under its field name is set natively and popped from the data,
   * and the meta holds the remaining data, over the old meta when merging.
   */
  lemma SetMetadataEffects(e: Entity, data: map<string, string>, merge: bool)
    requires SetMetadataSpec(e, data, merge).Success?
    ensures var (e', rest) := SetMetadataSpec(e, data, merge).value;
      var ks := MetaKeys(e.cls);
      && e'.id == e.id && e'.parent == e.parent && e'.children == e.children && e'.depth == e.depth
      && (HandleWidth(data).value.Some? ==> NativeValue(e', "handles") == Some(IntToString(HandleWidth(data).value.value)))
      && rest == data - MappedKeys(ks)
      && (forall i :: 0 <= i < |ks| && MapKey(ks[i]) in data ==> NativeValue(e', ks[i]) == Some(data[MapKey(ks[i])]))
      && (forall k :: k in rest ==> k in e'.meta && e'.meta[k] == rest[k])
      && (merge ==> forall k :: k in e.meta && k !in rest ==> k in e'.meta && e'.meta[k] == e.meta[k])
      && (!merge ==> e'.meta == rest)
  {
    SetMetadataWithEffects(e, data, HandleWidth(data).value, merge);
  }

  /** The manager interface object; its state is the reverse key map built on construction. */
  class FTrackInterface {
    var revMetamap: map<string, string>

    ghost predicate Valid()
      reads this
    {
      revMetamap == RevMetamap
    }

    /** `__init__`: builds `_revMetamap` from `_metamap`, one item at a time. */
    constructor ()
      ensures IsInverse(revMetamap, Metamap)
      ensures Valid()
    {
      var rev: map<string, string> := map[];
      var todo := Metamap.Keys;
      RevMetamapInverse();
      while todo != {}
        invariant todo <= Metamap.Keys
        invariant forall v :: v in rev <==> v in RevMetamap && RevMetamap[v] !in todo
        invariant forall v :: v in rev ==> rev[v] == RevMetamap[v]
        decreases |todo|
      {
        var k :| k in todo;
        InverseStep(k);
        rev := rev[Metamap[k] := k];
        todo := todo - {k};
      }
      revMetamap := rev;
    }

    /** `getEntityMetadata`. */
    method GetEntityMetadata(store: Store, ref: string) returns (r: Result<map<string, Option<string>>>)
      requires ValidStore(store)
      ensures Lookup(store, ref).Failure? ==> r == Failure(Lookup(store, ref).error)
      ensures Lookup(store, ref).Success? ==> r == Success(EntityMetadata(Lookup(store, ref).value))
    {
      var found := Lookup(store, ref);
      if found.Failure? {
        return Failure(found.error);
      }
      var obj := found.value;
      var metadata := MetaValues(obj.meta);
      var keys := MetaKeysOf(ClassName(obj.cls));
      var i := 0;
      while i < |keys|
        invariant 0 <= i <= |keys|
        invariant MappedMetadata(metadata, obj, keys[i..]) == EntityMetadata(obj)
      {
        assert keys[i..][1..] == keys[i + 1..];
        metadata := metadata[MapKey(keys[i]) := NativeValue(obj, keys[i])];
        i := i + 1;
      }
      r := Success(metadata);
    }

    /** `getEntityMetadataEntry`. */
    method GetEntityMetadataEntry(store: Store, ref: string, fnKey: string) returns (r: Result<Option<string>>)
      requires Valid() && ValidStore(store)
      ensures Lookup(store, ref).Failure? ==> r == Failure(Lookup(store, ref).error)
      ensures Lookup(store, ref).Success? ==> r == Success(MetadataEntry(Lookup(store, ref).value, fnKey))
    {
      var found := Lookup(store, ref);
      if found.Failure? {
        return Failure(found.error);
      }
      var obj := found.value;
      var keys := MetaKeysOf(ClassName(obj.cls));
      var key := if fnKey in revMetamap then revMetamap[fnKey] else fnKey;
      if key in keys {
        return Success(NativeValue(obj, key));
      }
      r := Success(if fnKey in obj.meta then Some(obj.meta[fnKey]) else None);
    }

    /** `setEntityMetadataEntry`, storing the meta entry under the field name it was given. */
    method SetEntityMetadataEntry(server: Server, ref: string, fnKey: string, value: string) returns (r: Result<()>)
      requires Valid() && server.Valid()
      modifies server
      ensures server.Valid()
      ensures Lookup(old(server.entities), ref).Failure? ==>
        r == Failure(Lookup(old(server.entities), ref).error) && server.entities == old(server.entities)
      ensures Lookup(old(server.entities), ref).Success? ==>
        var e := Lookup(old(server.entities), ref).value;
        r.Success? && server.entities == old(server.entities)[e.id := SetEntry(e, fnKey, value)]
    {
      var found := Lookup(server.entities, ref);
      if found.Failure? {
        return Failure(found.error);
      }
      var obj := found.value;
      var keys := MetaKeysOf(ClassName(obj.cls));
      var key := if fnKey in revMetamap then revMetamap[fnKey] else fnKey;
      if key in keys {
        obj := obj.(fields := obj.fields[key := value]);
      }
      obj := obj.(meta := obj.meta[fnKey := value]);
      server.Update(obj);
      r := Success(());
    }

    /**
     * `setEntityMetadata`: answers the caller's data as left after the
     * mapped keys were popped from it.
     */
    method SetEntityMetadata(server: Server, ref: string, data: map<string, string>, merge: bool)
      returns (r: Result<map<string, string>>)
      requires server.Valid()
      modifies server
      ensures server.Valid()
      ensures Lookup(old(server.entities), ref).Failure? ==>
        r == Failure(Lookup(old(server.entities), ref).error) && server.entities == old(server.entities)
      ensures Lookup(old(server.entities), ref).Success? ==>
        var e := Lookup(old(server.entities), ref).value;
        match SetMetadataSpec(e, data, merge)
        case Failure(err) => r == Failure(err) && server.entities == old(server.entities)
        case Success(out) => r == Success(out.1) && server.entities == old(server.entities)[e.id := out.0]
    {
      var found := Lookup(server.entities, ref);
      if found.Failure? {
        return Failure(found.error);
      }
      var obj := found.value;
      var h := HandleWidth(data);
      if h.Failure? {
        return Failure(h.error);
      }
      if h.value.Some? {
        obj := obj.(fields := obj.fields["handles" := IntToString(h.value.value)]);
      }
      ghost var start := obj;
      var keys := MetaKeysOf(ClassName(obj.cls));
      var rest := data;
      var i := 0;
      while i < |keys|
        invariant 0 <= i <= |keys|
        invariant PopMapped(obj, rest, keys[i..]) == PopMapped(start, data, keys)
        invariant obj.id == start.id && obj.parent == start.parent && obj.children == start.children
        invariant obj.depth == start.depth && obj.cls == start.cls
      {
        assert keys[i..][1..] == keys[i + 1..];
        var fnKey := MapKey(keys[i]);
        if fnKey in rest {
          var v := rest[fnKey];
          rest := rest - {fnKey};
          obj := obj.(fields := obj.fields[keys[i] := v]);
        }
        i := i + 1;
      }
      if merge {
        obj := obj.(meta := obj.meta + rest);
      } else {
        obj := obj.(meta := rest);
      }
      server.Update(obj);
      r := Success(rest);
    }

    /** `getRelatedReferences`: the batch entry point chosen by the counts of references and specifications. */
    method GetRelatedReferences(queries: RelatedQueries, store: Store, refs: seq<string>, specs: seq<Specification>)
      returns (r: Result<seq<seq<string>>>)
      requires ValidStore(store)
      modifies queries.cache
      ensures BatchShapeOf(|refs|, |specs|).Failure? ==> r == Failure(BatchShapeOf(|refs|, |specs|).error)
      ensures BatchShapeOf(|refs|, |specs|) == Success(PairsShape) ==> r == Batch(store, Zip(refs, specs))
      ensures BatchShapeOf(|refs|, |specs|) == Success(SpecsShape) ==>
        r == Batch(store, seq(|specs|, i requires 0 <= i < |specs| => (refs[0], specs[i])))
      ensures BatchShapeOf(|refs|, |specs|) == Success(RefsShape) ==>
        r == Batch(store, seq(|refs|, i requires 0 <= i < |refs| => (refs[i], specs[0])))
      ensures r.Success? ==> |r.value| == if |refs| == 1 && |refs| != |specs| then |specs| else |refs|
    {
      var shape := BatchShapeOf(|refs|, |specs|);
      if shape.Failure? {
        return Failure(shape.error);
      }
      match shape.value {
        case PairsShape =>
          r := queries.ForPairs(store, refs, specs);
        case SpecsShape =>
          r := queries.ForSpecs(store, refs[0], specs);
        case RefsShape =>
          r := queries.ForRefs(store, specs[0], refs);
      }
    }

    /**
     * `register`: hands the registration to the publisher for the first
     * matching kind of specification. The identifiers are those the server
     * gives to the entities it creates.
     */
    method Register(server: Server, stringData: string, targetRef: string, spec: Specification,
                    context: Option<Context>, hostId: string, id1: Id, id2: Id, id3: Id, id4: Id)
      returns (r: Result<string>)
      requires server.Valid()
      requires id1 !in server.entities && id2 !in server.entities && id3 !in server.entities && id4 !in server.entities
      requires id1 != id2 && id1 != id3 && id1 != id4 && id2 != id3 && id2 != id4 && id3 != id4
      modifies server
      ensures server.Valid()
      ensures RegisterRoute(spec).Failure? ==>
        r == Failure(RegisterRoute(spec).error) && server.entities == old(server.entities)
      ensures RegisterRoute(spec) == Success(ProjectRoute) ==>
        r == Success(EntityRef(ProjectEntity(id1, stringData)))
        && server.entities == old(server.entities)[id1 := ProjectEntity(id1, stringData)]
      ensures RegisterRoute(spec) == Success(GroupingRoute) ==>
        GroupingRegistered(old(server.entities), server.entities, r, stringData, targetRef, spec, id1, id2, id3)
      ensures RegisterRoute(spec) == Success(ImageRoute) ==>
        FileRegistered(old(server.entities), server.entities, r, stringData, targetRef, spec, context, hostId,
          "img", "main", "imageAsset", id1, id2, id3, id4)
      ensures RegisterRoute(spec) == Success(NukeScriptRoute) ==>
        FileRegistered(old(server.entities), server.entities, r, stringData, targetRef, spec, context, hostId,
          "comp", "nukescript", "nukeScript", id1, id2, id3, id4)
      ensures RegisterRoute(spec) == Success(HieroProjectRoute) ==>
        FileRegistered(old(server.entities), server.entities, r, stringData, targetRef, spec, context, hostId,
          "edit", "hieroproject", "hieroProject", id1, id2, id3, id4)
      ensures RegisterRoute(spec) == Success(FileRoute) ==>
        FileRegistered(old(server.entities), server.entities, r, stringData, targetRef, spec, context, hostId,
          spec.typ, "asset", "file", id1, id2, id3, id4)
    {
      var route := RegisterRoute(spec);
      if route.Failure? {
        return Failure(route.error);
      }
      match route.value {
        case ProjectRoute =>
          var ref := RegisterProject(server, stringData, id1);
          r := Success(ref);
        case GroupingRoute =>
          r := RegisterGrouping(server, stringData, targetRef, spec, id1, id2, id3);
        case ImageRoute =>
          r := RegisterImageFile(server, stringData, targetRef, spec, context, hostId, id1, id2, id3, id4);
        case NukeScriptRoute =>
          r := RegisterNukeScript(server, stringData, targetRef, spec, context, hostId, id1, id2, id3, id4);
        case HieroProjectRoute =>
          r := RegisterHieroProject(server, stringData, targetRef, spec, context, hostId, id1, id2, id3, id4);
        case FileRoute =>
          r := RegisterFile(server, stringData, targetRef, spec, context, hostId, id1, id2, id3, id4);
      }
    }
  }

  // ---------------------------------------------------------------------------
  // Dispatch

  /** Which batch entry point `getRelatedReferences` calls. */
  datatype BatchShape = PairsShape | SpecsShape | RefsShape

  /**
   * Equal counts pair references with specifications; otherwise one
   * reference goes against every specification, or every reference against
   * one specification; any other counts raise ValueError.
   */
  function BatchShapeOf(numRefs: nat, numSpecs: nat): (r: Result<BatchShape>)
    ensures r == Success(PairsShape) <==> numRefs == numSpecs
    ensures r == Success(SpecsShape) <==> numRefs != numSpecs && numRefs == 1
    ensures r == Success(RefsShape) <==> numRefs != numSpecs && numRefs != 1 && numSpecs == 1
    ensures r.Failure? <==> numRefs != numSpecs && numRefs != 1 && numSpecs != 1
    ensures r.Failure? ==> r.error.ValueError?
  {
    if numRefs == numSpecs then Success(PairsShape)
    else if numRefs == 1 then Success(SpecsShape)
    else if numSpecs == 1 then Success(RefsShape)
    else Failure(ValueError("Incorrect number of refs (" + NatToString(numRefs) + ") or specs (" + NatToString(numSpecs) + ")"))
  }

  /** `preflight`: the target must already exist. */
  function Preflight(store: Store, ref: string): (r: Result<string>)
    requires ValidStore(store)
    ensures r.Success? <==> Lookup(store, ref).Success?
    ensures r.Success? ==> r.value == ref
  {
    ExistsIffLookup(store, ref);
    var present :- EntityExists(store, ref);
    if present then Success(ref)
    else Failure(PreflightError("The referenced entity doesn't exist, unable to write to this asset"))
  }

  /** The publisher `register` hands a specification to. */
  datatype Route = ProjectRoute | GroupingRoute | ImageRoute | NukeScriptRoute | HieroProjectRoute | FileRoute

  /** A type derived from `t` is also derived from every type `t` is derived from. */
  lemma IsOfTypeAncestor(typ: string, t: string, u: string)
    requires u + "." <= t && IsOfType(typ, t)
    ensures IsOfType(typ, u)
  {
    if typ != t {
      assert (t + ".")[..|u| + 1] == t[..|u| + 1];
    }
  }

  /** No type is derived both from a grouping and from a file. */
  lemma GroupNotFile(typ: string)
    ensures !(IsOfType(typ, GroupingType) && IsOfType(typ, FileType))
  {
    if IsOfType(typ, GroupingType) {
      assert typ[0] == GroupingType[0] != FileType[0];
    }
  }

  /** Every image type is a file type. */
  lemma ImageIsFile(typ: string)
    ensures IsOfType(typ, ImageType) ==> IsOfType(typ, FileType)
  {
    if IsOfType(typ, ImageType) {
      IsOfTypeAncestor(typ, ImageType, FileType);
    }
  }

  /**
   * The kinds are tried in a fixed order (project, grouping, image,
   * nukescript, hrox, file); a specification that is neither a grouping nor a
   * file raises RegistrationError.
   */
  function RegisterRoute(spec: Specification): (r: Result<Route>)
    ensures r.Failure? <==> !IsOfType(spec.typ, GroupingType) && !IsOfType(spec.typ, FileType)
    ensures r.Failure? ==> r.error == RegistrationError("Unknown entity Specification: " + spec.typ)
    ensures r == Success(ProjectRoute) <==> IsOfType(spec.typ, ProjectType)
    ensures r == Success(GroupingRoute) ==> IsOfType(spec.typ, GroupingType)
    ensures r.Success? && r.value in {ImageRoute, NukeScriptRoute, HieroProjectRoute, FileRoute} ==> IsOfType(spec.typ, FileType)
    ensures r == Success(ImageRoute) <==> IsOfType(spec.typ, ImageType)
    ensures r == Success(NukeScriptRoute) ==> IsOfType(spec.typ, NukeScriptType)
    ensures r == Success(HieroProjectRoute) ==> IsOfType(spec.typ, HieroProjectType)
  {
    var typ := spec.typ;
    GroupNotFile(typ);
    ImageIsFile(typ);
    if IsOfType(typ, ProjectType) then
      IsOfTypeAncestor(typ, ProjectType, GroupingType);
      Success(ProjectRoute)
    else if IsOfType(typ, GroupingType) then Success(GroupingRoute)
    else if IsOfType(typ, ImageType) then
      IsOfTypeAncestor(typ, ImageType, FileType);
      Success(ImageRoute)
    else if IsOfType(typ, NukeScriptType) then
      IsOfTypeAncestor(typ, NukeScriptType, FileType);
      Success(NukeScriptRoute)
    else if IsOfType(typ, HieroProjectType) then
      IsOfTypeAncestor(typ, HieroProjectType, FileType);
      Success(HieroProjectRoute)
    else if IsOfType(typ, FileType) then Success(FileRoute)
    else Failure(RegistrationError("Unknown entity Specification: " + typ))
  }
}
