/**
 * The Nuke shot export preset: its property defaults and how loaded
 * properties override them, the three path lists that reference other
 * export elements, how those lists follow an element whose path changes,
 * and the `{ext}` resolver entry.
 */
module ShotPreset {

  /** A preset property value. Lists of paths and of node data are lists of strings here. */
  datatype Property = Flag(on: bool) | Text(text: string) | ListOf(items: seq<string>) | Other

  // Property keys.
  const EnableKey := "enable"
  const ReadPathsKey := "readPaths"
  const WritePathsKey := "writePaths"
  const CollateTracksKey := "collateTracks"
  const CollateShotNamesKey := "collateShotNames"
  const AnnotationsPathsKey := "annotationsPreCompPaths"
  const IncludeAnnotationsKey := "includeAnnotations"
  const ShowAnnotationsKey := "showAnnotations"
  const IncludeEffectsKey := "includeEffects"
  const ConnectTracksKey := "connectTracks"
  const UseAssetsKey := "useAssets"
  const PublishScriptKey := "publishScript"
  const CollateSequenceKey := "collateSequence"
  const CollateCustomStartKey := "collateCustomStart"
  const AdditionalNodesEnabledKey := "additionalNodesEnabled"
  const AdditionalNodesDataKey := "additionalNodesData"
  const MethodKey := "method"
  const PostProcessScriptKey := "postProcessScript"

  /** The defaults the preset sets before loading its saved properties. */
  const Defaults: map<string, Property> := map[
    EnableKey := Flag(true),
    ReadPathsKey := ListOf([]),
    WritePathsKey := ListOf([]),
    CollateTracksKey := Flag(false),
    CollateShotNamesKey := Flag(false),
    AnnotationsPathsKey := ListOf([]),
    IncludeAnnotationsKey := Flag(false),
    ShowAnnotationsKey := Flag(true),
    IncludeEffectsKey := Flag(true),
    ConnectTracksKey := Flag(false),
    UseAssetsKey := Flag(true),
    PublishScriptKey := Flag(true),
    CollateSequenceKey := Flag(false),
    CollateCustomStartKey := Flag(true),
    AdditionalNodesEnabledKey := Flag(false),
    AdditionalNodesDataKey := ListOf([]),
    MethodKey := Text("Blend"),
    PostProcessScriptKey := Flag(true)]

  /** The three properties whose lists reference other export elements, in callback order. */
  const PathKeys: seq<string> := [ReadPathsKey, WritePathsKey, AnnotationsPathsKey]

  /**
   * The properties after construction: every loaded key overrides its
   * default and every other default stays.
   */
  function Initialised(loaded: map<string, Property>): (r: map<string, Property>)
    ensures r.Keys == Defaults.Keys + loaded.Keys
    ensures forall k :: k in loaded ==> r[k] == loaded[k]
    ensures forall k :: k in Defaults && k !in loaded ==> r[k] == Defaults[k]
  {
    Defaults + loaded
  }

  /** Every key the preset relies on is present. */
  predicate HasDefaultKeys(properties: map<string, Property>)
  {
    Defaults.Keys <= properties.Keys
  }

  /** The three path properties are lists. */
  predicate PathListsValid(properties: map<string, Property>)
  {
    forall k :: k in PathKeys ==> k in properties && properties[k].ListOf?
  }

  // ---------------------------------------------------------------------------
  // Rewriting a path list

  /** How often `x` occurs in `s`. */
  function Occurrences(s: seq<string>, x: string): (n: nat)
    ensures n <= |s|
    ensures n == 0 <==> x !in s
  {
    if s == [] then 0 else (if s[0] == x then 1 else 0) + Occurrences(s[1..], x)
  }

  /** `list.remove(x)`: drop the first occurrence. */
  function RemoveFirst(s: seq<string>, x: string): (r: seq<string>)
    requires x in s
    ensures |r| == |s| - 1
  {
    var j := FirstIndex(s, x);
    s[..j] + s[j + 1..]
  }

  /**
   * The loop of `onElementPathChanged` over one list, from position `i`:
   * Python's list iterator moves on by index while the body removes the
   * first `oldPath` and appends `newPath`, so the list keeps its length and
   * the element after a removal is skipped.
   */
  function RewriteFrom(s: seq<string>, i: nat, oldPath: string, newPath: string): (r: seq<string>)
    requires i <= |s|
    ensures |r| == |s|
    decreases |s| - i
  {
    if i == |s| then s
    else if s[i] == oldPath then RewriteFrom(RemoveFirst(s, oldPath) + [newPath], i + 1, oldPath, newPath)
    else RewriteFrom(s, i + 1, oldPath, newPath)
  }

  /** One list rewritten as `onElementPathChanged` is written. */
  function RewriteAsWritten(s: seq<string>, oldPath: string, newPath: string): (r: seq<string>)
    ensures |r| == |s|
  {
    RewriteFrom(s, 0, oldPath, newPath)
  }

  /** From a position past every `oldPath`, the loop changes nothing. */
  lemma {:induction false} RewriteFromUntouched(s: seq<string>, i: nat, oldPath: string, newPath: string)
    requires i <= |s| && oldPath !in s[i..]
    ensures RewriteFrom(s, i, oldPath, newPath) == s
    decreases |s| - i
  {
    if i < |s| {
      assert s[i] in s[i..];
      assert s[i + 1..] == s[i..][1..];
      RewriteFromUntouched(s, i + 1, oldPath, newPath);
    }
  }

  /** A list that does not hold `oldPath` is left as it is. */
  lemma ListWithoutOldUnchanged(s: seq<string>, oldPath: string, newPath: string)
    requires oldPath !in s
    ensures RewriteAsWritten(s, oldPath, newPath) == s
  {
    assert s[0..] == s;
    RewriteFromUntouched(s, 0, oldPath, newPath);
  }

  /** Before the first `oldPath`, the loop only moves on. */
  lemma {:induction false} RewriteFromSkips(s: seq<string>, i: nat, j: nat, oldPath: string, newPath: string)
    requires i <= j < |s| && oldPath !in s[i..j]
    ensures RewriteFrom(s, i, oldPath, newPath) == RewriteFrom(s, j, oldPath, newPath)
    decreases j - i
  {
    if i < j {
      assert s[i] in s[i..j];
      assert s[i + 1..j] == s[i..j][1..];
      RewriteFromSkips(s, i + 1, j, oldPath, newPath);
    }
  }

  /**
   * When `oldPath` occurs once and differs from `newPath`, the result is
   * the list without it, followed by `newPath`.
   */
  lemma RewriteSingle(s: seq<string>, oldPath: string, newPath: string)
    requires Occurrences(s, oldPath) == 1 && oldPath != newPath
    ensures exists j :: (0 <= j < |s| && s[j] == oldPath
      && RewriteAsWritten(s, oldPath, newPath) == s[..j] + s[j + 1..] + [newPath])
  {
    var j := FirstIndex(s, oldPath);
    OnlyOccurrence(s, oldPath, j);
    RewriteFromSkips(s, 0, j, oldPath, newPath);
    var t := RemoveFirst(s, oldPath) + [newPath];
    assert t == s[..j] + s[j + 1..] + [newPath];
    assert t[j..] == s[j + 1..] + [newPath];
    assert t[j + 1..] == t[j..][1..];
    RewriteFromUntouched(t, j + 1, oldPath, newPath);
  }

  /** The first position of `x` in `s`. */
  function FirstIndex(s: seq<string>, x: string): (j: nat)
    requires x in s
    ensures j < |s| && s[j] == x && x !in s[..j]
  {
    if s[0] == x then 0
    else
      var j := FirstIndex(s[1..], x);
      assert s[..j + 1] == [s[0]] + s[1..][..j];
      j + 1
  }

  /** With exactly one occurrence at `j`, nothing before or after it is `x`. */
  lemma {:induction false} OnlyOccurrence(s: seq<string>, x: string, j: nat)
    requires Occurrences(s, x) == 1 && j < |s| && s[j] == x
    ensures x !in s[..j] && x !in s[j + 1..]
  {
    if j == 0 {
      assert s[1..] == s[j + 1..];
    } else {
      assert s[1..][j - 1] == x;
      assert s[0] != x;
      OnlyOccurrence(s[1..], x, j - 1);
      assert s[..j] == [s[0]] + s[1..][..j - 1];
      assert s[j + 1..] == s[1..][j..];
    }
  }

  /** The list without any `x`. */
  function Without(s: seq<string>, x: string): (r: seq<string>)
    ensures x !in r
    ensures |r| == |s| - Occurrences(s, x)
    ensures forall y :: y in r ==> y in s
  {
    if s == [] then [] else (if s[0] == x then [] else [s[0]]) + Without(s[1..], x)
  }

  /**
   * One list rewritten as intended: every `oldPath` removed and `newPath`
   * appended once for each.
   */
  function Rewrite(s: seq<string>, oldPath: string, newPath: string): (r: seq<string>)
    ensures |r| == |s|
    ensures oldPath != newPath ==> oldPath !in r
    ensures Occurrences(s, oldPath) > 0 ==> newPath in r
    ensures forall y :: y in r && y != newPath ==> y in s
  {
    var n := Occurrences(s, oldPath);
    var kept := Without(s, oldPath);
    var added := seq(n, _ => newPath);
    assert n > 0 ==> added[0] == newPath;
    kept + added
  }

  /** The rewrite matches the loop as written whenever `oldPath` occurs at most once. */
  lemma RewriteAgreesWhenSingle(s: seq<string>, oldPath: string, newPath: string)
    requires Occurrences(s, oldPath) <= 1 && oldPath != newPath
    ensures Rewrite(s, oldPath, newPath) == RewriteAsWritten(s, oldPath, newPath)
  {
    if Occurrences(s, oldPath) == 0 {
      ListWithoutOldUnchanged(s, oldPath, newPath);
      WithoutAbsent(s, oldPath);
    } else {
      RewriteSingle(s, oldPath, newPath);
      var j :| 0 <= j < |s| && s[j] == oldPath && RewriteAsWritten(s, oldPath, newPath) == s[..j] + s[j + 1..] + [newPath];
      OnlyOccurrence(s, oldPath, j);
      WithoutSplit(s, oldPath, j);
    }
  }

  /** Removing an absent value changes nothing. */
  lemma {:induction false} WithoutAbsent(s: seq<string>, x: string)
    requires x !in s
    ensures Without(s, x) == s
  {
    if s != [] {
      assert s[0] != x;
      WithoutAbsent(s[1..], x);
      assert s == [s[0]] + s[1..];
    }
  }

  /** Removing the only occurrence at `j` leaves the list around it. */
  lemma {:induction false} WithoutSplit(s: seq<string>, x: string, j: nat)
    requires j < |s| && s[j] == x && x !in s[..j] && x !in s[j + 1..]
    ensures Without(s, x) == s[..j] + s[j + 1..]
  {
    if j == 0 {
      WithoutAbsent(s[1..], x);
    } else {
      assert s[0] in s[..j];
      assert s[1..][..j - 1] == s[1..j];
      assert forall y :: y in s[1..j] ==> y in s[..j];
      assert s[1..][j - 1 + 1..] == s[j + 1..];
      WithoutSplit(s[1..], x, j - 1);
      assert s[..j] == [s[0]] + s[1..j];
    }
  }

  /**
   * The loop as written leaves an `oldPath` behind when it occurs twice in
   * a row: `[old, old]` becomes `[old, new]`.
   */
  lemma RewriteAsWrittenSkips(oldPath: string, newPath: string)
    requires oldPath != newPath
    ensures RewriteAsWritten([oldPath, oldPath], oldPath, newPath) == [oldPath, newPath]
    ensures oldPath in RewriteAsWritten([oldPath, oldPath], oldPath, newPath)
    ensures oldPath !in Rewrite([oldPath, oldPath], oldPath, newPath)
  {
    var s := [oldPath, oldPath];
    assert FirstIndex(s, oldPath) == 0;
    assert RemoveFirst(s, oldPath) == [oldPath];
    var t := [oldPath, newPath];
    assert RemoveFirst(s, oldPath) + [newPath] == t;
    assert RewriteFrom(s, 0, oldPath, newPath) == RewriteFrom(t, 1, oldPath, newPath);
    assert RewriteFrom(t, 1, oldPath, newPath) == RewriteFrom(t, 2, oldPath, newPath);
  }

  /** The loop of `onElementPathChanged` over one list, as written. */
  method RewriteListAsWritten(pathlist: seq<string>, oldPath: string, newPath: string) returns (s: seq<string>)
    ensures s == RewriteAsWritten(pathlist, oldPath, newPath)
  {
    s := pathlist;
    var i := 0;
    while i < |s|
      invariant 0 <= i <= |s| == |pathlist|
      invariant RewriteFrom(s, i, oldPath, newPath) == RewriteAsWritten(pathlist, oldPath, newPath)
      decreases |s| - i
    {
      if s[i] == oldPath {
        s := RemoveFirst(s, oldPath) + [newPath];
      }
      i := i + 1;
    }
  }

  /** The entries other than `x`, in order. */
  method KeepOthers(pathlist: seq<string>, x: string) returns (kept: seq<string>)
    ensures kept == Without(pathlist, x)
  {
    kept := [];
    var i := 0;
    while i < |pathlist|
      invariant 0 <= i <= |pathlist|
      invariant kept + Without(pathlist[i..], x) == Without(pathlist, x)
    {
      assert pathlist[i..][1..] == pathlist[i + 1..];
      ghost var rest := Without(pathlist[i + 1..], x);
      if pathlist[i] == x {
        assert Without(pathlist[i..], x) == rest;
      } else {
        assert Without(pathlist[i..], x) == [pathlist[i]] + rest;
        assert kept + ([pathlist[i]] + rest) == (kept + [pathlist[i]]) + rest;
        kept := kept + [pathlist[i]];
      }
      i := i + 1;
    }
    assert pathlist[i..] == [];
  }

  /** How many entries are `x`. */
  method CountOccurrences(pathlist: seq<string>, x: string) returns (n: nat)
    ensures n == Occurrences(pathlist, x)
  {
    n := 0;
    var i := 0;
    while i < |pathlist|
      invariant 0 <= i <= |pathlist|
      invariant n + Occurrences(pathlist[i..], x) == Occurrences(pathlist, x)
    {
      assert pathlist[i..][1..] == pathlist[i + 1..];
      if pathlist[i] == x {
        n := n + 1;
      }
      i := i + 1;
    }
    assert pathlist[i..] == [];
  }

  /** One list rewritten as intended, by loops that do not change the list they walk. */
  method RewriteList(pathlist: seq<string>, oldPath: string, newPath: string) returns (s: seq<string>)
    ensures s == Rewrite(pathlist, oldPath, newPath)
  {
    var kept := KeepOthers(pathlist, oldPath);
    var removed := CountOccurrences(pathlist, oldPath);
    var added: seq<string> := [];
    while |added| < removed
      invariant |added| <= removed
      invariant forall k :: 0 <= k < |added| ==> added[k] == newPath
    {
      added := added + [newPath];
    }
    assert added == seq(removed, _ => newPath);
    s := kept + added;
  }

  // ---------------------------------------------------------------------------
  // The `{ext}` resolver entry

  /** A resolver entry: token, description and value. */
  datatype ResolverEntry = ResolverEntry(token: string, description: string, value: string)

  const ExtToken := "{ext}"

  /** `addCustomResolveEntries`: the script extension, "nknc" under a non-commercial Nuke and "nk" otherwise. */
  function ExtResolver(nonCommercial: bool): (r: ResolverEntry)
    ensures r.token == ExtToken
    ensures nonCommercial <==> r.value == "nknc"
    ensures !nonCommercial <==> r.value == "nk"
  {
    ResolverEntry(ExtToken, "Extension of the file to be output", if nonCommercial then "nknc" else "nk")
  }

  // ---------------------------------------------------------------------------
  // The preset

  /** The preset: its name and its properties. */
  class NukeShotPreset {
    const name: string
    var properties: map<string, Property>

    /**
     * Sets every default, then loads the saved properties over them.
     */
    constructor (name: string, loaded: map<string, Property>)
      ensures this.name == name
      ensures properties == Initialised(loaded)
      ensures HasDefaultKeys(properties)
      ensures UseAssetsKey !in loaded ==> properties[UseAssetsKey] == Flag(true)
      ensures PublishScriptKey !in loaded ==> properties[PublishScriptKey] == Flag(true)
      ensures ConnectTracksKey !in loaded ==> properties[ConnectTracksKey] == Flag(false)
      ensures MethodKey !in loaded ==> properties[MethodKey] == Text("Blend")
      ensures PostProcessScriptKey !in loaded ==> properties[PostProcessScriptKey] == Flag(true)
    {
      this.name := name;
      var p: map<string, Property> := map[];
      p := p[EnableKey := Flag(true)];
      p := p[ReadPathsKey := ListOf([])];
      p := p[WritePathsKey := ListOf([])];
      p := p[CollateTracksKey := Flag(false)];
      p := p[CollateShotNamesKey := Flag(false)];
      p := p[AnnotationsPathsKey := ListOf([])];
      p := p[IncludeAnnotationsKey := Flag(false)];
      p := p[ShowAnnotationsKey := Flag(true)];
      p := p[IncludeEffectsKey := Flag(true)];
      p := p[ConnectTracksKey := Flag(false)];
      p := p[UseAssetsKey := Flag(true)];
      p := p[PublishScriptKey := Flag(true)];
      p := p[CollateSequenceKey := Flag(false)];
      p := p[CollateCustomStartKey := Flag(true)];
      p := p[AdditionalNodesEnabledKey := Flag(false)];
      p := p[AdditionalNodesDataKey := ListOf([])];
      p := p[MethodKey := Text("Blend")];
      p := p[PostProcessScriptKey := Flag(true)];
      assert p == Defaults;
      properties := p + loaded;
    }

    /** `propertiesForPathCallbacks`: the read, write and annotation path properties, in that order. */
    function PropertiesForPathCallbacks(): (r: seq<Property>)
      reads this
      requires HasDefaultKeys(properties)
      ensures |r| == |PathKeys|
      ensures forall i :: 0 <= i < |PathKeys| ==> r[i] == properties[PathKeys[i]]
    {
      [properties[ReadPathsKey], properties[WritePathsKey], properties[AnnotationsPathsKey]]
    }

    /**
     * `onElementPathChanged`: every path list that references `oldPath`
     * references `newPath` instead; the other properties are unchanged.
     */
    method OnElementPathChanged(oldPath: string, newPath: string)
      requires HasDefaultKeys(properties) && PathListsValid(properties)
      modifies this
      ensures properties == old(properties)
        [ReadPathsKey := ListOf(Rewrite(old(properties)[ReadPathsKey].items, oldPath, newPath))]
        [WritePathsKey := ListOf(Rewrite(old(properties)[WritePathsKey].items, oldPath, newPath))]
        [AnnotationsPathsKey := ListOf(Rewrite(old(properties)[AnnotationsPathsKey].items, oldPath, newPath))]
      ensures HasDefaultKeys(properties) && PathListsValid(properties)
    {
      RewritePathProperty(ReadPathsKey, oldPath, newPath);
      RewritePathProperty(WritePathsKey, oldPath, newPath);
      RewritePathProperty(AnnotationsPathsKey, oldPath, newPath);
    }

    /** One path property of `onElementPathChanged`: its list with `oldPath` replaced. */
    method RewritePathProperty(key: string, oldPath: string, newPath: string)
      requires key in PathKeys && HasDefaultKeys(properties) && PathListsValid(properties)
      modifies this
      ensures properties == old(properties)[key := ListOf(Rewrite(old(properties)[key].items, oldPath, newPath))]
      ensures HasDefaultKeys(properties) && PathListsValid(properties)
    {
      var paths := RewriteList(properties[key].items, oldPath, newPath);
      properties := properties[key := ListOf(paths)];
    }
  }
}
