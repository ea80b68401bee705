/**
 * The entity-reference and cache layer of the ftrack asset manager:
 * `MiniCache`, the module-level entity cache and `objectById`, the URL tests
 * on `ftrack://` references, object naming, the shot and path walks over
 * parents, and the mode arithmetic of `lockFile`.
 */
module Utils {
  import opened Wrappers
  import opened Text
  import opened Seqs
  import opened Ftrack

  // ---------------------------------------------------------------------------
  // MiniCache

  /** The `default` argument of `MiniCache.get`: a value (possibly None) or a callable. */
  datatype Default<V> = Plain(value: Option<V>) | Callable(call: () -> Option<V>)

  /** What the default stands for once a callable default has been called. */
  function Evaluate<V>(default: Default<V>): Option<V>
  {
    match default
    case Plain(v) => v
    case Callable(f) => f()
  }

  /** The answer of `get(key, default)` on table `data`, and the table it leaves. */
  function CacheGet<K, V>(data: map<K, V>, key: K, default: Default<V>): (out: (Option<V>, map<K, V>))
    ensures forall k :: k in data ==> k in out.1 && out.1[k] == data[k]
    ensures forall k :: k in out.1 ==> k in data || k == key
  {
    if key in data then (Some(data[key]), data)
    else
      var d := Evaluate(default);
      if d.Some? then (d, data[key := d.value]) else (None, data)
  }

  /** A present key answers with its stored value and leaves the table alone, whatever the default. */
  lemma CacheGetPresent<K, V>(data: map<K, V>, key: K, default: Default<V>)
    requires key in data
    ensures CacheGet(data, key, default) == (Some(data[key]), data)
  {
  }

  /** After `set(k, v)`, `get(k)` answers `v`. */
  lemma CacheGetAfterSet<K, V>(data: map<K, V>, key: K, value: V, default: Default<V>)
    ensures CacheGet(data[key := value], key, default).0 == Some(value)
  {
  }

  /** A missing key with a default that resolves to a value stores it; any later `get` answers the same. */
  lemma CacheGetStores<K, V>(data: map<K, V>, key: K, default: Default<V>, later: Default<V>)
    requires key !in data && Evaluate(default).Some?
    ensures CacheGet(data, key, default).0 == Evaluate(default)
    ensures CacheGet(data, key, default).1 == data[key := Evaluate(default).value]
    ensures CacheGet(CacheGet(data, key, default).1, key, later).0 == Evaluate(default)
  {
  }

  /** A missing key whose default resolves to None answers None and stores nothing. */
  lemma CacheGetMissingNone<K, V>(data: map<K, V>, key: K, default: Default<V>)
    requires key !in data && Evaluate(default).None?
    ensures CacheGet(data, key, default) == (None, data)
  {
  }

  /** `MiniCache`: a dictionary whose `get` may fill in the default. */
  class MiniCache<K(==), V> {
    var data: map<K, V>

    constructor ()
      ensures data == map[]
    {
      data := map[];
    }

    method Clear()
      modifies this
      ensures data == map[]
    {
      data := map[];
    }

    /** `get(key, default)`; `called` tells whether a callable default was invoked. */
    method Get(key: K, default: Default<V>) returns (r: Option<V>, called: bool)
      modifies this
      ensures (r, data) == CacheGet(old(data), key, default)
      ensures called <==> key !in old(data) && default.Callable?
    {
      if key in data {
        return Some(data[key]), false;
      }
      var d: Option<V>;
      match default {
        case Plain(v) =>
          d := v;
          called := false;
        case Callable(f) =>
          d := f();
          called := true;
      }
      if d.Some? {
        data := data[key := d.value];
      }
      r := d;
    }

    method Set(key: K, value: V)
      modifies this
      ensures data == old(data)[key := value]
    {
      data := data[key := value];
    }
  }

  // ---------------------------------------------------------------------------
  // URL handling (the ftrack scheme is registered for netloc, query and fragment)

  /** The index of the first character of `s` that is in `cs`, or `|s|`. */
  function FirstOf(s: string, cs: set<char>): (i: nat)
    ensures i <= |s|
    ensures forall j :: 0 <= j < i ==> s[j] !in cs
    ensures i < |s| ==> s[i] in cs
  {
    if s == [] then 0 else if s[0] in cs then 0 else 1 + FirstOf(s[1..], cs)
  }

  lemma {:induction false} FirstOfAppend(p: string, q: string, cs: set<char>)
    requires forall j :: 0 <= j < |p| ==> p[j] !in cs
    ensures FirstOf(p + q, cs) == |p| + FirstOf(q, cs)
    decreases |p|
  {
    if p != [] {
      assert (p + q)[1..] == p[1..] + q;
      FirstOfAppend(p[1..], q, cs);
    } else {
      assert p + q == q;
    }
  }

  predicate IsSchemeChar(ch: char)
  {
    'a' <= ch <= 'z' || 'A' <= ch <= 'Z' || '0' <= ch <= '9' || ch == '+' || ch == '-' || ch == '.'
  }

  /** The five parts of `urlparse.urlsplit(url)`. */
  datatype SplitUrl = SplitUrl(scheme: string, netloc: string, path: string, query: string, fragment: string)

  /** Whether the text before the first ':' (at `i`) is taken as the scheme. */
  predicate HasScheme(url: string, i: nat)
    requires i <= |url|
  {
    0 < i < |url|
    && (url[..i] == "http"
        || ((forall j :: 0 <= j < i ==> IsSchemeChar(url[j]))
            && (url[i + 1..] == "" || !AllDigits(url[i + 1..]))))
  }

  /** Characters that end the authority of a URL. */
  predicate NoDelimiters(id: string)
  {
    forall j :: 0 <= j < |id| ==> id[j] !in {'/', '?', '#'}
  }

  /** Removes the scheme: (lower-cased scheme, remainder). */
  function SchemeSplit(url: string): (string, string)
  {
    var i := FirstOf(url, {':'});
    if HasScheme(url, i) then (Lower(url[..i]), url[i + 1..]) else ("", url)
  }

  /** Removes a `//` authority: (netloc, remainder). */
  function NetlocSplit(rest: string): (out: (string, string))
    ensures NoDelimiters(out.0)
  {
    if |rest| >= 2 && rest[..2] == "//" then
      var t := rest[2..];
      var d := FirstOf(t, {'/', '?', '#'});
      assert forall j :: 0 <= j < d ==> t[..d][j] == t[j];
      (t[..d], t[d..])
    else ("", rest)
  }

  /** Splits at the first occurrence of `c`: (before, after), after empty when absent. */
  function SplitOnce(s: string, c: char): (out: (string, string))
    ensures c !in out.0
  {
    var h := FirstOf(s, {c});
    assert forall j :: 0 <= j < h ==> s[..h][j] == s[j];
    if h < |s| then (s[..h], s[h + 1..]) else (s, "")
  }

  /** The five parts `urlsplit(url)` of Python 2.7 computes, before it validates the network location. */
  function UrlSplit(url: string): (u: SplitUrl)
    ensures NoDelimiters(u.netloc)
  {
    var (scheme, rest) := SchemeSplit(url);
    var (netloc, rest2) := NetlocSplit(rest);
    var (rest3, fragment) := SplitOnce(rest2, '#');
    var (path, query) := SplitOnce(rest3, '?');
    SplitUrl(scheme, netloc, path, query, fragment)
  }

  /** A network location holding one of '[' and ']' without the other, which `urlsplit` refuses. */
  predicate UnbalancedBrackets(netloc: string)
  {
    ('[' in netloc) != (']' in netloc)
  }

  /** `urlsplit(url)`, including its ValueError for an invalid IPv6 network location. */
  function UrlSplitChecked(url: string): (r: Result<SplitUrl>)
    ensures r.Failure? <==> UnbalancedBrackets(UrlSplit(url).netloc)
    ensures r.Failure? ==> r.error.ValueError?
    ensures r.Success? ==> r.value == UrlSplit(url)
  {
    var u := UrlSplit(url);
    if UnbalancedBrackets(u.netloc) then Failure(ValueError("Invalid IPv6 URL")) else Success(u)
  }

  /** `'+'` in a query reads as a space. */
  function Unplus(s: string): (r: string)
    ensures |r| == |s|
  {
    seq(|s|, i requires 0 <= i < |s| => if s[i] == '+' then ' ' else s[i])
  }

  /** The `name=value` fields of a query string, split on both '&' and ';'. */
  function QueryFields(parts: seq<string>): seq<string>
  {
    if parts == [] then [] else Split(parts[0], ';') + QueryFields(parts[1..])
  }

  /** The value of a hexadecimal digit of either case, as `unquote` reads it. */
  function HexValue(ch: char): (r: Option<nat>)
    ensures r.Some? <==> ('0' <= ch <= '9' || 'a' <= ch <= 'f' || 'A' <= ch <= 'F')
    ensures r.Some? ==> r.value < 16
  {
    if '0' <= ch <= '9' then Some(ch as nat - '0' as nat)
    else if 'a' <= ch <= 'f' then Some(ch as nat - 'a' as nat + 10)
    else if 'A' <= ch <= 'F' then Some(ch as nat - 'A' as nat + 10)
    else None
  }

  /** `urllib.unquote`: `%XX` with two hexadecimal digits becomes character XX; any other '%' stays. */
  function Unquote(s: string): (r: string)
    ensures |r| <= |s|
    ensures s != [] ==> r != []
    decreases |s|
  {
    if |s| >= 3 && s[0] == '%' && HexValue(s[1]).Some? && HexValue(s[2]).Some? then
      [(HexValue(s[1]).value * 16 + HexValue(s[2]).value) as char] + Unquote(s[3..])
    else if s == [] then []
    else [s[0]] + Unquote(s[1..])
  }

  /** Unquoting leaves text without '%' alone. */
  lemma {:induction false} UnquotePlain(s: string)
    requires '%' !in s
    ensures Unquote(s) == s
    decreases |s|
  {
    if s != [] {
      assert '%' !in s[1..];
      UnquotePlain(s[1..]);
    }
  }

  const HexDigits := "0123456789ABCDEF"

  /** Percent-encodes every character, as `%XX` with upper-case digits. */
  function Quote(s: string): (r: string)
    requires forall j :: 0 <= j < |s| ==> s[j] < 256 as char
    ensures |r| == 3 * |s|
  {
    if s == [] then []
    else ['%', HexDigits[s[0] as nat / 16], HexDigits[s[0] as nat % 16]] + Quote(s[1..])
  }

  lemma HexDigitValue(d: nat)
    requires d < 16
    ensures HexValue(HexDigits[d]) == Some(d)
  {
  }

  /** Unquoting undoes `Quote`. */
  lemma {:induction false} UnquoteQuote(s: string)
    requires forall j :: 0 <= j < |s| ==> s[j] < 256 as char
    ensures Unquote(Quote(s)) == s
  {
    if s != [] {
      var c := s[0];
      var rest := Quote(s[1..]);
      assert Quote(s) == ['%', HexDigits[c as nat / 16], HexDigits[c as nat % 16]] + rest;
      UnquoteEscape(c, rest);
      UnquoteQuote(s[1..]);
      assert s == [c] + s[1..];
    }
  }

  /** One `%XX` escape unquotes to its character. */
  lemma UnquoteEscape(c: char, rest: string)
    requires c < 256 as char
    ensures Unquote(['%', HexDigits[c as nat / 16], HexDigits[c as nat % 16]] + rest) == [c] + Unquote(rest)
  {
    var n := c as nat;
    HexDigitValue(n / 16);
    HexDigitValue(n % 16);
    var t := ['%', HexDigits[n / 16], HexDigits[n % 16]] + rest;
    assert t[3..] == rest;
    assert (n / 16 * 16 + n % 16) as char == c;
  }

  /** How `parse_qs` reads a name or a value: '+' as a space, then `unquote`. */
  function QueryDecode(s: string): (r: string)
    ensures |r| <= |s|
    ensures s != [] ==> r != []
  {
    Unquote(Unplus(s))
  }

  /** Text without '+' or '%' reads back unchanged. */
  lemma QueryDecodePlain(s: string)
    requires '+' !in s && '%' !in s
    ensures QueryDecode(s) == s
  {
    assert Unplus(s) == s;
    UnquotePlain(s);
  }

  /** The first value given to `key` among `fields`, blank values skipped. */
  function FirstValue(fields: seq<string>, key: string): (r: Option<string>)
    ensures r.Some? ==> |r.value| > 0
  {
    if fields == [] then None
    else
      var f := fields[0];
      var eq := FirstOf(f, {'='});
      if eq + 1 < |f| && QueryDecode(f[..eq]) == key then Some(QueryDecode(f[eq + 1..]))
      else FirstValue(fields[1..], key)
  }

  /** `parse_qs(query).get(key)[0]`, or None when `key` has no non-blank value. */
  function QueryParam(query: string, key: string): (r: Option<string>)
    ensures r.Some? ==> |r.value| > 0
  {
    FirstValue(QueryFields(Split(query, '&')), key)
  }

  /** `isEntityReference`: the URL authority is 36 characters long with four dashes. */
  predicate IsEntityReference(token: string)
  {
    var n := UrlSplit(token).netloc;
    |n| == 36 && Count(n, '-') == 4
  }

  /** `targetAssetNameFromRef`: the first non-blank `assetName` in the query. */
  function TargetAssetNameFromRef(targetRef: string): (r: Option<string>)
    ensures r.Some? ==> |r.value| > 0
  {
    QueryParam(UrlSplit(targetRef).query, "assetName")
  }

  lemma SchemeOfFtrack(tail: string)
    requires |tail| >= 1 && tail[0] == '/'
    ensures SchemeSplit("ftrack:" + tail) == ("ftrack", tail)
  {
    var url := "ftrack:" + tail;
    assert url == "ftrack" + (":" + tail);
    FirstOfAppend("ftrack", ":" + tail, {':'});
    assert url[..6] == "ftrack";
    assert url[7..] == tail;
    assert !AllDigits(tail) by { assert !IsDigit(tail[0]); }
    assert HasScheme(url, 6);
    assert Lower("ftrack") == "ftrack";
  }

  lemma NetlocOfId(id: string, rest: string)
    requires NoDelimiters(id) && |rest| >= 1 && rest[0] in {'/', '?', '#'}
    ensures NetlocSplit("//" + id + rest) == (id, rest)
  {
    var s := "//" + id + rest;
    assert s[..2] == "//";
    assert s[2..] == id + rest;
    FirstOfAppend(id, rest, {'/', '?', '#'});
    assert (id + rest)[..|id|] == id;
    assert (id + rest)[|id|..] == rest;
  }

  lemma SplitOnceAbsent(s: string, c: char)
    requires c !in s
    ensures SplitOnce(s, c) == (s, "")
  {
    FirstOfAppend(s, "", {c});
    assert s + "" == s;
  }

  /** `ftrack://<id>?<query>`. */
  function FtrackUrl(id: string, query: string): string
  {
    "ftrack://" + id + "?" + query
  }

  /** `urlsplit` of `ftrack://<id>?<query>` gives back the identifier and the query. */
  lemma SplitFtrackUrl(id: string, query: string)
    requires NoDelimiters(id) && '#' !in query
    ensures UrlSplit(FtrackUrl(id, query)) == SplitUrl("ftrack", id, "", query, "")
  {
    var rest := "?" + query;
    var tail := "//" + id + rest;
    assert FtrackUrl(id, query) == "ftrack:" + tail;
    SchemeOfFtrack(tail);
    NetlocOfId(id, rest);
    SplitOnceAbsent(rest, '#');
    assert SplitOnce(rest, '?') == ("", query);
  }

  /** A reference `ftrack://<id>?<query>` whose identifier holds no bracket passes `urlsplit`'s check. */
  lemma SplitFtrackUrlChecked(id: string, query: string)
    requires NoDelimiters(id) && '#' !in query && '[' !in id && ']' !in id
    ensures UrlSplitChecked(FtrackUrl(id, query)) == Success(SplitUrl("ftrack", id, "", query, ""))
  {
    SplitFtrackUrl(id, query);
  }

  /** The `entityType` field of a reference's query reads back as written. */
  lemma EntityTypeParam(t: string)
    requires forall j :: 0 <= j < |t| ==> t[j] !in {'&', ';', '+', '%'}
    requires |t| > 0
    ensures QueryParam("entityType=" + t, "entityType") == Some(t)
  {
    assert '&' !in t && ';' !in t && '+' !in t && '%' !in t;
    QueryParamOfField("entityType", t);
    assert "entityType" + "=" + t == "entityType=" + t;
  }

  /** The query `key=value` gives `value` for `key` when neither holds a separator or needs decoding. */
  lemma QueryParamOfField(key: string, value: string)
    requires '=' !in key && '+' !in key && '%' !in key && '&' !in key && ';' !in key
    requires '+' !in value && '%' !in value && '&' !in value && ';' !in value && |value| > 0
    ensures QueryParam(key + "=" + value, key) == Some(value)
  {
    var f := key + "=" + value;
    assert '&' !in f && ';' !in f;
    QueryParamSingle(f, key);
    FirstValueOfField(key, value);
  }

  /** A query without '&' or ';' is one field. */
  lemma QueryParamSingle(f: string, key: string)
    requires '&' !in f && ';' !in f
    ensures QueryParam(f, key) == FirstValue([f], key)
  {
    SplitNone(f, '&');
    SplitNone(f, ';');
    assert QueryFields([f]) == [f] + QueryFields([]);
  }

  /** The field `key=value` gives `value` for `key` when neither needs decoding. */
  lemma FirstValueOfField(key: string, value: string)
    requires '=' !in key && '+' !in key && '%' !in key
    requires '+' !in value && '%' !in value && |value| > 0
    ensures FirstValue([key + "=" + value], key) == Some(value)
  {
    var f := key + "=" + value;
    assert f == key + ("=" + value);
    FirstOfAppend(key, "=" + value, {'='});
    assert f[..|key|] == key;
    assert f[|key| + 1..] == value;
    QueryDecodePlain(key);
    QueryDecodePlain(value);
  }

  /** `getEntityRef()` passes `isEntityReference` exactly when the identifier is UUID-shaped. */
  lemma EntityRefIsReference(e: Entity)
    requires NoDelimiters(e.id)
    ensures IsEntityReference(EntityRef(e)) <==> |e.id| == 36 && Count(e.id, '-') == 4
  {
    RefTypeRoundTrip(e.cls);
    var query := "entityType=" + RefType(e.cls);
    assert '#' !in query;
    FtrackUrlIsReference(e.id, query);
    EntityRefUrl(e);
  }

  lemma FtrackUrlIsReference(id: string, query: string)
    requires NoDelimiters(id) && '#' !in query
    ensures IsEntityReference(FtrackUrl(id, query)) <==> |id| == 36 && Count(id, '-') == 4
  {
    SplitFtrackUrl(id, query);
  }

  lemma EntityRefUrl(e: Entity)
    ensures EntityRef(e) == FtrackUrl(e.id, "entityType=" + RefType(e.cls))
  {
  }

  /** A bare identifier with no scheme and no `//` is never an entity reference. */
  lemma BareIdIsNotReference(s: string)
    requires ':' !in s && !("//" <= s)
    ensures !IsEntityReference(s)
  {
    var i := FirstOf(s, {':'});
    assert i == |s|;
    assert s[..0] == [];
  }

  // ---------------------------------------------------------------------------
  // Naming

  /** `objectName`: the name, else 'v' and the version padded to three digits, else "unknown". */
  function ObjectName(obj: Option<Entity>): string
  {
    match obj
    case None => "unknown"
    case Some(e) =>
      if e.name.Some? then e.name.value
      else if e.version.Some? then "v" + ZFill(IntToString(e.version.value), 3)
      else "unknown"
  }

  /** An unnamed version's label is 'v' and at least three digits that read back as the version. */
  lemma VersionLabel(e: Entity)
    requires e.name.None? && e.version.Some? && e.version.value >= 0
    ensures var s := ObjectName(Some(e));
      && |s| >= 4 && s[0] == 'v'
      && AllDigits(s[1..]) && ParseNat(s[1..]) == e.version.value
      && (e.version.value < 1000 ==> |s| == 4)
  {
    var v: nat := e.version.value;
    ZFillNat(v, 3);
    var s := ObjectName(Some(e));
    assert s[1..] == ZFill(NatToString(v), 3);
    if v < 1000 {
      NatToStringShort(v);
    }
  }

  lemma NatToStringShort(n: nat)
    requires n < 1000
    ensures |NatToString(n)| <= 3
  {
    if n >= 10 {
      if n >= 100 {
        assert |NatToString(n / 10)| <= 2 by { assert n / 10 / 10 < 10; }
      }
    }
  }

  /** `objectType`: `getObjectType()` where it exists, else the class name for four classes, else ''. */
  function ObjectType(obj: Option<Entity>): (r: string)
    ensures obj.None? ==> r == ""
    ensures obj.Some? && obj.value.objectType.Some? ==> r == obj.value.objectType.value
    ensures obj.Some? && obj.value.objectType.None? ==>
      (r == "Asset" <==> obj.value.cls == AssetClass)
      && (r == "AssetVersion" <==> obj.value.cls == AssetVersionClass)
      && (r == "Component" <==> obj.value.cls == ComponentClass)
      && (r == "Project" <==> obj.value.cls == ProjectClass)
      && (r == "" <==> obj.value.cls in {TaskClass, TaskTypeClass})
  {
    match obj
    case None => ""
    case Some(e) =>
      if e.objectType.Some? then e.objectType.value
      else
        match e.cls
        case AssetClass => "Asset"
        case AssetVersionClass => "AssetVersion"
        case ComponentClass => "Component"
        case ProjectClass => "Project"
        case _ => ""
  }

  // ---------------------------------------------------------------------------
  // objectById and the module cache

  /** `ftrack.<cls>(id)`: the entity when one of that class has the identifier. */
  function Construct(store: Store, id: Id, cls: EntityClass): (r: Option<Entity>)
    ensures r.Some? <==> id in store && store[id].cls == cls
    ensures r.Some? ==> r.value == store[id]
  {
    if id in store && store[id].cls == cls then Some(store[id]) else None
  }

  /** The name of the component type before ftrack 2.4. */
  const LegacyComponentType := "assettake"

  /** The constructor that an `entityType` selects; 'assettake' is the legacy name of 'component'. */
  function ClassOfRefType(t: string): Option<EntityClass>
  {
    if t == "component" || t == LegacyComponentType then Some(ComponentClass)
    else if t == "asset_version" then Some(AssetVersionClass)
    else if t == "asset" then Some(AssetClass)
    else if t == "show" then Some(ProjectClass)
    else if t == "task" then Some(TaskClass)
    else if t == "tasktype" then Some(TaskTypeClass)
    else None
  }

  /** The order in which a bare identifier is tried. */
  const SearchOrder: seq<EntityClass> :=
    [TaskClass, AssetClass, AssetVersionClass, ComponentClass, ProjectClass, TaskTypeClass]

  /** The first class of `classes` whose constructor accepts `id`. */
  function FirstConstructed(store: Store, id: Id, classes: seq<EntityClass>): (r: Option<Entity>)
    ensures r.Some? <==> id in store && store[id].cls in classes
    ensures r.Some? ==> r.value == store[id]
  {
    if classes == [] then None
    else if Construct(store, id, classes[0]).Some? then Construct(store, id, classes[0])
    else FirstConstructed(store, id, classes[1..])
  }

  /** The end of `objectById`: raise when nothing was found and `throw` is set, else cache the answer. */
  function Finish(cache: map<string, Option<Entity>>, key: string, obj: Option<Entity>, throw: bool)
    : (out: (Result<Option<Entity>>, map<string, Option<Entity>>))
  {
    if obj.None? && throw then (Failure(InvalidEntityReference("Unknown Entity ID: '" + key + "'")), cache)
    else (Success(obj), cache[key := obj])
  }

  /** Whether the cache holds a (truthy) object under `key`. */
  predicate CachedHit(cache: map<string, Option<Entity>>, key: string)
  {
    key in cache && cache[key].Some?
  }

  /** `objectById` on an identifier that contains 'ftrack://'. */
  function RefObjectById(store: Store, cache: map<string, Option<Entity>>, url: SplitUrl, throw: bool)
    : (out: (Result<Option<Entity>>, map<string, Option<Entity>>))
  {
    match QueryParam(url.query, "entityType")
    case None => (Failure(RuntimeFault("'NoneType' object has no attribute '__getitem__'")), cache)
    case Some(t) =>
      var key := url.netloc;
      if CachedHit(cache, key) then (Success(cache[key]), cache)
      else
        var obj := match ClassOfRefType(t) case None => None case Some(c) => Construct(store, key, c);
        Finish(cache, key, obj, throw)
  }

  /** `objectById` on a bare identifier: the cache, then every class in turn. */
  function BareObjectById(store: Store, cache: map<string, Option<Entity>>, id: string, throw: bool)
    : (out: (Result<Option<Entity>>, map<string, Option<Entity>>))
  {
    if CachedHit(cache, id) then (Success(cache[id]), cache)
    else Finish(cache, id, FirstConstructed(store, id, SearchOrder), throw)
  }

  /** `objectById(identifier, throw)` against `store` with the module cache `cache`. */
  function ObjectByIdSpec(store: Store, cache: map<string, Option<Entity>>, identifier: string, throw: bool)
    : (out: (Result<Option<Entity>>, map<string, Option<Entity>>))
  {
    if identifier == "" then Finish(cache, "", None, throw)
    else if IsSubstring("ftrack://", identifier) then RefObjectById(store, cache, UrlSplit(identifier), throw)
    else BareObjectById(store, cache, identifier, throw)
  }

  /** Every object in the cache is the store's current record under its key. */
  ghost predicate Coherent(store: Store, cache: map<string, Option<Entity>>)
  {
    forall k :: k in cache && cache[k].Some? ==> k in store && cache[k].value == store[k]
  }

  /** Caching an object of the store under its own identifier keeps the cache coherent. */
  lemma FinishCoherent(store: Store, cache: map<string, Option<Entity>>, key: string, obj: Option<Entity>, throw: bool)
    requires Coherent(store, cache)
    requires obj.Some? ==> key in store && obj.value == store[key]
    ensures Coherent(store, Finish(cache, key, obj, throw).1)
  {
  }

  /** `objectById` keeps the cache coherent and only answers with entities of the store. */
  lemma ObjectByIdCoherent(store: Store, cache: map<string, Option<Entity>>, identifier: string, throw: bool)
    requires ValidStore(store) && Coherent(store, cache)
    ensures Coherent(store, ObjectByIdSpec(store, cache, identifier, throw).1)
    ensures var r := ObjectByIdSpec(store, cache, identifier, throw).0;
      r.Success? && r.value.Some? ==> InStore(store, r.value.value)
  {
    var out := ObjectByIdSpec(store, cache, identifier, throw);
    var key: string;
    if identifier == "" {
      key := "";
      FinishCoherent(store, cache, "", None, throw);
    } else if IsSubstring("ftrack://", identifier) {
      var url := UrlSplit(identifier);
      key := url.netloc;
      var t := QueryParam(url.query, "entityType");
      if t.Some? && !CachedHit(cache, key) {
        var obj := match ClassOfRefType(t.value) case None => None case Some(c) => Construct(store, key, c);
        FinishCoherent(store, cache, key, obj, throw);
      }
    } else {
      key := identifier;
      if !CachedHit(cache, key) {
        FinishCoherent(store, cache, key, FirstConstructed(store, key, SearchOrder), throw);
      }
    }
    if out.0.Success? && out.0.value.Some? {
      assert key in store && out.0.value.value == store[key];
      assert WellPlaced(store, key);
    }
  }

  /** Resolving `getEntityRef()` of a stored entity gives that entity back. */
  lemma ResolveEntityRef(store: Store, cache: map<string, Option<Entity>>, e: Entity, throw: bool)
    requires ValidStore(store) && InStore(store, e) && Coherent(store, cache)
    requires NoDelimiters(e.id)
    ensures ObjectByIdSpec(store, cache, EntityRef(e), throw).0 == Success(Some(e))
  {
    RefTypeRoundTrip(e.cls);
    RefTypeParam(e.cls);
    ResolveRefOfType(store, cache, e, RefType(e.cls), throw);
    EntityRefUrl(e);
  }

  /** A component reference written with the legacy 'assettake' type resolves to that component. */
  lemma ResolveLegacyAssettake(store: Store, cache: map<string, Option<Entity>>, e: Entity, throw: bool)
    requires ValidStore(store) && InStore(store, e) && Coherent(store, cache)
    requires NoDelimiters(e.id) && e.cls == ComponentClass
    ensures ObjectByIdSpec(store, cache, FtrackUrl(e.id, "entityType=" + LegacyComponentType), throw).0 == Success(Some(e))
  {
    var t := LegacyComponentType;
    assert forall j :: 0 <= j < |t| ==> t[j] !in {'&', ';', '+', '%', '#'};
    EntityTypeParam(t);
    ResolveRefOfType(store, cache, e, t, throw);
  }

  /** The type `getEntityRef()` writes for a class is looked up as that class, and holds no '#'. */
  lemma RefTypeRoundTrip(cls: EntityClass)
    ensures ClassOfRefType(RefType(cls)) == Some(cls)
    ensures '#' !in RefType(cls)
  {
    match cls
    case ProjectClass =>
    case TaskClass =>
    case AssetClass =>
    case AssetVersionClass =>
    case ComponentClass =>
    case TaskTypeClass =>
  }

  /** Every `entityType` value that `getEntityRef()` writes reads back from the query. */
  lemma RefTypeParam(cls: EntityClass)
    ensures QueryParam("entityType=" + RefType(cls), "entityType") == Some(RefType(cls))
  {
    EntityTypeParam(RefType(cls));
  }

  lemma ResolveRefOfType(store: Store, cache: map<string, Option<Entity>>, e: Entity, t: string, throw: bool)
    requires ValidStore(store) && InStore(store, e) && Coherent(store, cache)
    requires NoDelimiters(e.id) && '#' !in t
    requires ClassOfRefType(t) == Some(e.cls)
    requires QueryParam("entityType=" + t, "entityType") == Some(t)
    ensures ObjectByIdSpec(store, cache, FtrackUrl(e.id, "entityType=" + t), throw).0 == Success(Some(e))
  {
    var query := "entityType=" + t;
    assert '#' !in query;
    RefUrlDispatch(store, cache, e.id, query, throw);
    assert WellPlaced(store, e.id);
    assert Construct(store, e.id, e.cls) == Some(e);
  }

  /** An `ftrack://<id>?<query>` identifier is looked up by its netloc and query. */
  lemma RefUrlDispatch(store: Store, cache: map<string, Option<Entity>>, id: string, query: string, throw: bool)
    requires NoDelimiters(id) && '#' !in query
    ensures ObjectByIdSpec(store, cache, FtrackUrl(id, query), throw)
      == RefObjectById(store, cache, SplitUrl("ftrack", id, "", query, ""), throw)
  {
    var url := FtrackUrl(id, query);
    SplitFtrackUrl(id, query);
    assert url[..9] == "ftrack://";
    SubstringAt("ftrack://", url, 0);
  }

  /** A bare identifier of a stored entity resolves to it, whatever its class. */
  lemma ResolveBareId(store: Store, cache: map<string, Option<Entity>>, id: Id, throw: bool)
    requires ValidStore(store) && id in store && Coherent(store, cache)
    requires id != "" && !IsSubstring("ftrack://", id)
    ensures ObjectByIdSpec(store, cache, id, throw).0 == Success(Some(store[id]))
  {
    var c := store[id].cls;
    assert c in SearchOrder by {
      match c
      case TaskClass => assert SearchOrder[0] == c;
      case AssetClass => assert SearchOrder[1] == c;
      case AssetVersionClass => assert SearchOrder[2] == c;
      case ComponentClass => assert SearchOrder[3] == c;
      case ProjectClass => assert SearchOrder[4] == c;
      case TaskTypeClass => assert SearchOrder[5] == c;
    }
  }

  /** An unknown bare identifier raises InvalidEntityReference under `throw` and caches nothing. */
  lemma UnknownIdRaises(store: Store, cache: map<string, Option<Entity>>, id: Id)
    requires id !in store && Coherent(store, cache)
    requires !IsSubstring("ftrack://", id)
    ensures ObjectByIdSpec(store, cache, id, true) == (Failure(InvalidEntityReference("Unknown Entity ID: '" + id + "'")), cache)
  {
  }

  /**
   * `objectById(ref)` as the rest of the plug-in calls it (`throw` left at
   * True), against an empty module cache: the entity, or the exception raised.
   */
  function Lookup(store: Store, ref: string): (r: Result<Entity>)
    requires ValidStore(store)
    ensures r.Success? ==> InStore(store, r.value)
  {
    var res := ObjectByIdSpec(store, map[], ref, true).0;
    ObjectByIdCoherent(store, map[], ref, true);
    if res.Failure? then Failure(res.error)
    else if res.value.Some? then Success(res.value.value)
    else Failure(InvalidEntityReference("Unknown Entity ID: '" + ref + "'"))
  }

  /** A coherent module cache answers every successful lookup with the same entity. */
  lemma LookupAgreesWithCache(store: Store, cache: map<string, Option<Entity>>, ref: string)
    requires ValidStore(store) && Coherent(store, cache)
    requires Lookup(store, ref).Success?
    ensures ObjectByIdSpec(store, cache, ref, true).0 == Success(Some(Lookup(store, ref).value))
  {
    if ref != "" && IsSubstring("ftrack://", ref) {
      RefLookupAgrees(store, cache, UrlSplit(ref));
    } else if ref != "" {
      BareLookupAgrees(store, cache, ref);
    }
  }

  lemma RefLookupAgrees(store: Store, cache: map<string, Option<Entity>>, url: SplitUrl)
    requires Coherent(store, cache)
    requires var r := RefObjectById(store, map[], url, true).0; r.Success? && r.value.Some?
    ensures RefObjectById(store, cache, url, true).0 == RefObjectById(store, map[], url, true).0
  {
    if CachedHit(cache, url.netloc) {
      assert RefObjectById(store, map[], url, true).0.value.value == store[url.netloc];
    }
  }

  lemma BareLookupAgrees(store: Store, cache: map<string, Option<Entity>>, id: string)
    requires Coherent(store, cache)
    requires var r := BareObjectById(store, map[], id, true).0; r.Success? && r.value.Some?
    ensures BareObjectById(store, cache, id, true).0 == BareObjectById(store, map[], id, true).0
  {
    if CachedHit(cache, id) {
      assert BareObjectById(store, map[], id, true).0.value.value == store[id];
    }
  }

  /** Looking up `getEntityRef()` of a stored entity gives the entity back. */
  lemma LookupEntityRef(store: Store, e: Entity)
    requires ValidStore(store) && InStore(store, e) && NoDelimiters(e.id)
    ensures Lookup(store, EntityRef(e)) == Success(e)
  {
    ResolveEntityRef(store, map[], e, true);
  }

  /** The module-level entity cache of `utils.py` and the functions that use it. */
  class EntityResolver {
    var entityCache: MiniCache<string, Option<Entity>>

    constructor ()
      ensures fresh(entityCache) && entityCache.data == map[]
    {
      entityCache := new MiniCache();
    }

    /** `flushEntityCache`: a new, empty cache. */
    method FlushEntityCache()
      modifies this
      ensures fresh(entityCache) && entityCache.data == map[]
    {
      entityCache := new MiniCache();
    }

    /** `objectById`. */
    method ObjectById(store: Store, identifier: string, throw: bool) returns (r: Result<Option<Entity>>)
      modifies entityCache
      ensures (r, entityCache.data) == ObjectByIdSpec(store, old(entityCache.data), identifier, throw)
    {
      var key := identifier;
      var obj: Option<Entity> := None;
      if identifier != "" {
        if IsSubstring("ftrack://", identifier) {
          var url := UrlSplit(identifier);
          var t := QueryParam(url.query, "entityType");
          if t.None? {
            return Failure(RuntimeFault("'NoneType' object has no attribute '__getitem__'"));
          }
          key := url.netloc;
          var cached, _ := entityCache.Get(key, Plain(None));
          if cached.Some? && cached.value.Some? {
            return Success(cached.value);
          }
          var c := ClassOfRefType(t.value);
          if c.Some? {
            obj := Construct(store, key, c.value);
          }
        } else {
          var cached, _ := entityCache.Get(key, Plain(None));
          if cached.Some? && cached.value.Some? {
            return Success(cached.value);
          }
          var k := 0;
          while k < |SearchOrder| && obj.None?
            invariant 0 <= k <= |SearchOrder|
            invariant obj.None? ==> FirstConstructed(store, key, SearchOrder) == FirstConstructed(store, key, SearchOrder[k..])
            invariant obj.Some? ==> obj == FirstConstructed(store, key, SearchOrder)
            invariant entityCache.data == old(entityCache.data)
          {
            assert SearchOrder[k..][1..] == SearchOrder[k + 1..];
            obj := Construct(store, key, SearchOrder[k]);
            k := k + 1;
          }
        }
      }
      if obj.None? && throw {
        return Failure(InvalidEntityReference("Unknown Entity ID: '" + key + "'"));
      }
      entityCache.Set(key, obj);
      r := Success(obj);
    }
  }

  // ---------------------------------------------------------------------------
  // Walks over parents

  /** The result of `shotFromObj`: climb until a Shot or a Project. */
  function ShotOf(store: Store, obj: Option<Entity>): (r: Option<Entity>)
    requires ValidStore(store) && (obj.Some? ==> InStore(store, obj.value))
    decreases if obj.Some? then obj.value.depth + 1 else 0
  {
    if obj.None? || ObjectType(obj) == "Project" then None
    else if ObjectType(obj) == "Shot" then obj
    else ShotOf(store, Parent(store, obj.value))
  }

  /** The shot found is the object itself or one of its ancestors, and is a Shot. */
  lemma {:induction false} ShotOfIsShotAbove(store: Store, e: Entity)
    requires ValidStore(store) && InStore(store, e)
    ensures var r := ShotOf(store, Some(e));
      r.Some? ==> ObjectType(r) == "Shot" && (r.value == e || r.value in Parents(store, e))
    decreases e.depth
  {
    var t := ObjectType(Some(e));
    if t != "Project" && t != "Shot" {
      var p := Parent(store, e);
      if p.Some? {
        ShotOfIsShotAbove(store, p.value);
      }
    }
  }

  /** With no Shot at or above the object, `shotFromObj` gives None. */
  lemma {:induction false} ShotOfNone(store: Store, e: Entity)
    requires ValidStore(store) && InStore(store, e)
    requires ObjectType(Some(e)) != "Shot"
    requires forall i :: 0 <= i < |Parents(store, e)| ==> ObjectType(Some(Parents(store, e)[i])) != "Shot"
    ensures ShotOf(store, Some(e)) == None
    decreases e.depth
  {
    var p := Parent(store, e);
    if p.Some? && ObjectType(Some(e)) != "Project" {
      var ps := Parents(store, e);
      assert ps == [p.value] + Parents(store, p.value);
      forall i | 0 <= i < |Parents(store, p.value)|
        ensures ObjectType(Some(Parents(store, p.value)[i])) != "Shot"
      {
        assert Parents(store, p.value)[i] == ps[i + 1];
      }
      assert ObjectType(Some(ps[0])) != "Shot";
      ShotOfNone(store, p.value);
    }
  }

  /**
   * The shot found is the nearest one: when the object and its first `i`
   * ancestors are neither a Shot nor a Project, the `i`-th ancestor's Shot is it.
   */
  lemma {:induction false} ShotOfNearest(store: Store, e: Entity, i: nat)
    requires ValidStore(store) && InStore(store, e)
    requires ObjectType(Some(e)) != "Shot" && ObjectType(Some(e)) != "Project"
    requires i < |Parents(store, e)| && ObjectType(Some(Parents(store, e)[i])) == "Shot"
    requires forall j :: 0 <= j < i ==>
      ObjectType(Some(Parents(store, e)[j])) != "Shot" && ObjectType(Some(Parents(store, e)[j])) != "Project"
    ensures ShotOf(store, Some(e)) == Some(Parents(store, e)[i])
    decreases i
  {
    var p := Parent(store, e).value;
    assert Parents(store, e) == [p] + Parents(store, p);
    if i > 0 {
      forall j | 0 <= j < i - 1
        ensures ObjectType(Some(Parents(store, p)[j])) != "Shot" && ObjectType(Some(Parents(store, p)[j])) != "Project"
      {
        assert Parents(store, p)[j] == Parents(store, e)[j + 1];
      }
      assert p == Parents(store, e)[0];
      ShotOfNearest(store, p, i - 1);
    }
  }

  /**
   * The climb stops at the first Project: when the object and its first `i`
   * ancestors are neither a Shot nor a Project and the `i`-th is a Project,
   * no Shot is found, whatever lies above that Project.
   */
  lemma {:induction false} ShotOfStopsAtProject(store: Store, e: Entity, i: nat)
    requires ValidStore(store) && InStore(store, e)
    requires ObjectType(Some(e)) != "Shot" && ObjectType(Some(e)) != "Project"
    requires i < |Parents(store, e)| && ObjectType(Some(Parents(store, e)[i])) == "Project"
    requires forall j :: 0 <= j < i ==>
      ObjectType(Some(Parents(store, e)[j])) != "Shot" && ObjectType(Some(Parents(store, e)[j])) != "Project"
    ensures ShotOf(store, Some(e)) == None
    decreases i
  {
    var p := Parent(store, e).value;
    assert Parents(store, e) == [p] + Parents(store, p);
    if i > 0 {
      forall j | 0 <= j < i - 1
        ensures ObjectType(Some(Parents(store, p)[j])) != "Shot" && ObjectType(Some(Parents(store, p)[j])) != "Project"
      {
        assert Parents(store, p)[j] == Parents(store, e)[j + 1];
      }
      assert p == Parents(store, e)[0];
      ShotOfStopsAtProject(store, p, i - 1);
    }
  }

  /** `shotFromObj`. */
  method ShotFromObj(store: Store, obj: Option<Entity>) returns (shot: Option<Entity>)
    requires ValidStore(store) && (obj.Some? ==> InStore(store, obj.value))
    ensures shot == ShotOf(store, obj)
  {
    var o := obj;
    var objType := ObjectType(o);
    while o.Some? && objType != "Shot" && objType != "Project"
      invariant o.Some? ==> InStore(store, o.value)
      invariant objType == ObjectType(o)
      invariant ShotOf(store, o) == ShotOf(store, obj)
      decreases if o.Some? then o.value.depth + 1 else 0
    {
      o := Parent(store, o.value);
      objType := ObjectType(o);
    }
    shot := if objType == "Shot" then o else None;
  }

  /** One element of a `getPath` path. */
  function PathPart(e: Entity, includeAssettype: bool): string
  {
    if e.cls == AssetClass && includeAssettype then ObjectName(Some(e)) + "." + e.assetType
    else ObjectName(Some(e))
  }

  /** The elements of a path: the ancestors root first, then the object itself. */
  function PathParts(store: Store, task: Entity, includeAssettype: bool): (r: seq<string>)
    requires ValidStore(store) && InStore(store, task)
  {
    PartsOf(Reverse(Parents(store, task)) + [task], includeAssettype)
  }

  /** The path part of every entity of a chain, in order. */
  function PartsOf(chain: seq<Entity>, includeAssettype: bool): (r: seq<string>)
  {
    seq(|chain|, i requires 0 <= i < |chain| => PathPart(chain[i], includeAssettype))
  }

  /** The joiner: '_' when `unders` is set, else ' / ' when `slash` is set, else '.'. */
  function Separator(unders: bool, slash: bool): string
  {
    if unders then "_" else if slash then " / " else "."
  }

  /** `getPath`. */
  function GetPath(store: Store, task: Entity, unders: bool, slash: bool, includeAssettype: bool): string
    requires ValidStore(store) && InStore(store, task)
  {
    if RefType(task.cls) == "show" then ObjectName(Some(task))
    else Join(PathParts(store, task, includeAssettype), Separator(unders, slash))
  }

  /**
   * An underscore path splits back into the names of the ancestors, root
   * first, followed by the object's own name, when no name holds an underscore.
   */
  lemma GetPathUnders(store: Store, task: Entity, slash: bool, includeAssettype: bool)
    requires ValidStore(store) && InStore(store, task) && task.cls != ProjectClass
    requires forall i :: 0 <= i < |PathParts(store, task, includeAssettype)| ==> '_' !in PathParts(store, task, includeAssettype)[i]
    ensures var parts := Split(GetPath(store, task, true, slash, includeAssettype), '_');
      var ps := Parents(store, task);
      && |parts| == |ps| + 1
      && parts[|ps|] == PathPart(task, includeAssettype)
      && forall i :: 0 <= i < |ps| ==> parts[i] == PathPart(ps[|ps| - 1 - i], includeAssettype)
  {
    var parts := PathParts(store, task, includeAssettype);
    SplitJoin(parts, '_');
    PartsOfReversed(Parents(store, task), task, includeAssettype);
    assert GetPath(store, task, true, slash, includeAssettype) == Join(parts, "_");
  }

  /** The parts of a reversed chain of ancestors followed by the object itself. */
  lemma PartsOfReversed(ps: seq<Entity>, task: Entity, includeAssettype: bool)
    ensures var parts := PartsOf(Reverse(ps) + [task], includeAssettype);
      && |parts| == |ps| + 1
      && parts[|ps|] == PathPart(task, includeAssettype)
      && forall i :: 0 <= i < |ps| ==> parts[i] == PathPart(ps[|ps| - 1 - i], includeAssettype)
  {
    var chain := Reverse(ps) + [task];
    assert forall i :: 0 <= i < |ps| ==> chain[i] == ps[|ps| - 1 - i];
  }

  /** A show's path is its name, whatever the flags. */
  lemma GetPathShow(store: Store, task: Entity, unders: bool, slash: bool, includeAssettype: bool)
    requires ValidStore(store) && InStore(store, task) && task.cls == ProjectClass
    ensures GetPath(store, task, unders, slash, includeAssettype) == ObjectName(Some(task))
  {
  }

  // ---------------------------------------------------------------------------
  // lockFile

  /** `stat.S_IWUSR | stat.S_IWGRP | stat.S_IWOTH`. */
  const WriteBits: bv32 := 0x92

  /** The mode `lockFile` sets: the old mode with the three write bits cleared. */
  function LockMode(mode: bv32): (r: bv32)
    ensures r & WriteBits == 0
    ensures r | (mode & WriteBits) == mode
  {
    mode & !WriteBits
  }

  /** Every bit outside the write bits keeps its old value. */
  lemma LockModeKeepsOtherBits(mode: bv32)
    ensures LockMode(mode) & !WriteBits == mode & !WriteBits
  {
  }
}
