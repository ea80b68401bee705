/**
 * The ftrack Connect hook of the legacy plugins: the launch action's
 * discover list, the context handed to the launcher, and the guard of
 * `register`.
 */
module Hook {
  import opened Wrappers

  /** `LaunchAction.identifier`. */
  const LaunchIdentifier := "ftrack-connect-legacy-launch-application"
  const DefaultIcon := "default"
  const SourceKey := "source"
  const ApplicationIdentifierKey := "applicationIdentifier"
  const MissingApplicationIdentifier := "KeyError: 'applicationIdentifier'"

  /** An entry of the application store; `variant`, `description` and `icon` may be absent. */
  datatype Application = Application(
    identifier: string,
    caption: string,
    variant: Option<string>,
    description: Option<string>,
    icon: Option<string>)

  /** One action item of the discover reply. */
  datatype Item = Item(
    actionIdentifier: string,
    caption: string,
    variant: Option<string>,
    description: Option<string>,
    icon: string,
    applicationIdentifier: string)

  /** The discover reply, `{'items': items}`. */
  datatype Discovered = Discovered(items: seq<Item>)

  // ---------------------------------------------------------------------------
  // Ordering labels

  /** Python's ordering of strings: lexicographic on characters. */
  predicate LabelLe(a: string, b: string)
    decreases |a|
  {
    |a| == 0 || (|b| > 0 && (a[0] < b[0] || (a[0] == b[0] && LabelLe(a[1..], b[1..]))))
  }

  lemma {:induction false} LabelLeTotal(a: string, b: string)
    ensures LabelLe(a, b) || LabelLe(b, a)
    decreases |a|
  {
    if |a| > 0 && |b| > 0 && a[0] == b[0] {
      LabelLeTotal(a[1..], b[1..]);
    }
  }

  lemma {:induction false} LabelLeTransitive(a: string, b: string, c: string)
    requires LabelLe(a, b) && LabelLe(b, c)
    ensures LabelLe(a, c)
    decreases |a|
  {
    if |a| > 0 && a[0] == b[0] && b[0] == c[0] {
      LabelLeTransitive(a[1..], b[1..], c[1..]);
    }
  }

  /** Every label comes no later than every label after it. */
  predicate SortedByLabel(s: seq<Application>)
  {
    forall i, j :: 0 <= i < j < |s| ==> LabelLe(s[i].caption, s[j].caption)
  }

  // ---------------------------------------------------------------------------
  // sorted(applications, key=label)

  /** Insert `x` before the first element it does not come after (so before equal labels). */
  function InsertByLabel(x: Application, s: seq<Application>): (r: seq<Application>)
    ensures multiset(r) == multiset(s) + multiset{x}
  {
    if s == [] || LabelLe(x.caption, s[0].caption) then [x] + s
    else
      assert s == [s[0]] + s[1..];
      [s[0]] + InsertByLabel(x, s[1..])
  }

  /** `sorted(applications, key=lambda application: application['label'])`, stable. */
  function SortByLabel(apps: seq<Application>): seq<Application>
  {
    if apps == [] then [] else InsertByLabel(apps[0], SortByLabel(apps[1..]))
  }

  lemma {:induction false} InsertByLabelSorted(x: Application, s: seq<Application>)
    requires SortedByLabel(s)
    ensures SortedByLabel(InsertByLabel(x, s))
  {
    if s == [] || LabelLe(x.caption, s[0].caption) {
      PrependSorted(x, s);
    } else {
      LabelLeTotal(x.caption, s[0].caption);
      InsertByLabelSorted(x, s[1..]);
      InsertedAfterHead(x, s);
      ConsSorted(s[0], InsertByLabel(x, s[1..]));
    }
  }

  /** An application no later than the head of a sorted list can go in front of it. */
  lemma PrependSorted(x: Application, s: seq<Application>)
    requires SortedByLabel(s) && (s == [] || LabelLe(x.caption, s[0].caption))
    ensures SortedByLabel([x] + s)
  {
    var r := [x] + s;
    forall i, j | 0 <= i < j < |r|
      ensures LabelLe(r[i].caption, r[j].caption)
    {
      if i == 0 && j > 1 {
        LabelLeTransitive(x.caption, s[0].caption, s[j - 1].caption);
      }
    }
  }

  /** The head of a sorted list comes no later than anything inserted behind it. */
  lemma InsertedAfterHead(x: Application, s: seq<Application>)
    requires SortedByLabel(s) && s != [] && LabelLe(s[0].caption, x.caption)
    ensures forall j :: 0 <= j < |InsertByLabel(x, s[1..])| ==> LabelLe(s[0].caption, InsertByLabel(x, s[1..])[j].caption)
  {
    var tail := InsertByLabel(x, s[1..]);
    forall j | 0 <= j < |tail|
      ensures LabelLe(s[0].caption, tail[j].caption)
    {
      assert tail[j] in multiset(tail);
      assert tail[j] in multiset(s[1..]) + multiset{x};
      if tail[j] != x {
        var k :| 0 <= k < |s[1..]| && s[1..][k] == tail[j];
        assert s[1..][k] == s[k + 1];
      }
    }
  }

  /** A sorted list stays sorted behind a head that comes no later than any of it. */
  lemma ConsSorted(h: Application, tail: seq<Application>)
    requires SortedByLabel(tail)
    requires forall j :: 0 <= j < |tail| ==> LabelLe(h.caption, tail[j].caption)
    ensures SortedByLabel([h] + tail)
  {
    var r := [h] + tail;
    forall i, j | 0 <= i < j < |r|
      ensures LabelLe(r[i].caption, r[j].caption)
    {
      if i == 0 {
        assert r[j] == tail[j - 1];
      } else {
        assert r[i] == tail[i - 1] && r[j] == tail[j - 1];
      }
    }
  }

  /** The sort orders by label and keeps every application exactly as often as it was given. */
  lemma {:induction false} SortByLabelCorrect(apps: seq<Application>)
    ensures SortedByLabel(SortByLabel(apps))
    ensures multiset(SortByLabel(apps)) == multiset(apps)
  {
    if apps != [] {
      SortByLabelCorrect(apps[1..]);
      InsertByLabelSorted(apps[0], SortByLabel(apps[1..]));
      assert apps == [apps[0]] + apps[1..];
    }
  }

  // ---------------------------------------------------------------------------
  // discover

  /** The item dictionary built for one application. */
  function ItemFor(app: Application): Item
  {
    Item(LaunchIdentifier, app.caption, app.variant, app.description,
         if app.icon.Some? then app.icon.value else DefaultIcon,
         app.identifier)
  }

  /** The items for a list of applications, in the same order. */
  function Items(apps: seq<Application>): (r: seq<Item>)
    ensures |r| == |apps|
    ensures forall i :: 0 <= i < |apps| ==> r[i] == ItemFor(apps[i])
  {
    if apps == [] then [] else [ItemFor(apps[0])] + Items(apps[1..])
  }

  lemma {:induction false} ItemsInsert(x: Application, s: seq<Application>)
    ensures multiset(Items(InsertByLabel(x, s))) == multiset(Items(s)) + multiset{ItemFor(x)}
  {
    if s == [] || LabelLe(x.caption, s[0].caption) {
      assert Items([x] + s) == [ItemFor(x)] + Items(s);
    } else {
      ItemsInsert(x, s[1..]);
      assert Items([s[0]] + InsertByLabel(x, s[1..])) == [ItemFor(s[0])] + Items(InsertByLabel(x, s[1..]));
      assert Items(s) == [ItemFor(s[0])] + Items(s[1..]);
    }
  }

  /** Sorting first yields the same items, each as often as its application occurs. */
  lemma {:induction false} ItemsSorted(apps: seq<Application>)
    ensures multiset(Items(SortByLabel(apps))) == multiset(Items(apps))
  {
    if apps != [] {
      ItemsSorted(apps[1..]);
      ItemsInsert(apps[0], SortByLabel(apps[1..]));
      assert Items(apps) == [ItemFor(apps[0])] + Items(apps[1..]);
    }
  }

  /** The items of the sorted applications: one per application, in label order, all for this action. */
  lemma DiscoverItems(apps: seq<Application>)
    ensures var items := Items(SortByLabel(apps));
      && multiset(items) == multiset(Items(apps))
      && (forall i, j :: 0 <= i < j < |items| ==> LabelLe(items[i].caption, items[j].caption))
      && (forall i :: 0 <= i < |items| ==> items[i].actionIdentifier == LaunchIdentifier)
  {
    SortByLabelCorrect(apps);
    ItemsSorted(apps);
  }

  /**
   * `LaunchAction.discover`: one item per stored application, in label
   * order, every item carrying the action's identifier.
   */
  method Discover(applications: seq<Application>) returns (r: Discovered)
    ensures r.items == Items(SortByLabel(applications))
    ensures multiset(r.items) == multiset(Items(applications))
    ensures forall i, j :: 0 <= i < j < |r.items| ==> LabelLe(r.items[i].caption, r.items[j].caption)
    ensures forall i :: 0 <= i < |r.items| ==> r.items[i].actionIdentifier == LaunchIdentifier
  {
    var sorted := SortByLabel(applications);
    var items: seq<Item> := [];
    var k := 0;
    while k < |sorted|
      invariant 0 <= k <= |sorted|
      invariant |items| == k
      invariant forall i :: 0 <= i < k ==> items[i] == ItemFor(sorted[i])
    {
      items := items + [ItemFor(sorted[k])];
      k := k + 1;
    }
    ItemsPointwise(sorted, items);
    DiscoverItems(applications);
    r := Discovered(items);
  }

  lemma ItemsPointwise(apps: seq<Application>, items: seq<Item>)
    requires |items| == |apps| && forall i :: 0 <= i < |apps| ==> items[i] == ItemFor(apps[i])
    ensures items == Items(apps)
  {
  }

  // ---------------------------------------------------------------------------
  // launch

  /** A launch event: its data dictionary, its source, and whether it was stopped. */
  class Event<V> {
    var data: map<string, V>
    const source: V
    var stopped: bool

    constructor (data: map<string, V>, source: V)
      ensures this.data == data && this.source == source && !stopped
    {
      this.data := data;
      this.source := source;
      stopped := false;
    }
  }

  /** What is handed to `launcher.launch`: the application identifier and the context. */
  datatype LaunchRequest<V> = LaunchRequest(applicationIdentifier: V, context: map<string, V>)

  /** `context = event['data'].copy(); context['source'] = event['source']`. */
  function LaunchContext<V>(data: map<string, V>, source: V): (r: map<string, V>)
    ensures r.Keys == data.Keys + {SourceKey}
    ensures r[SourceKey] == source
    ensures forall k :: k in data && k != SourceKey ==> r[k] == data[k]
  {
    data[SourceKey := source]
  }

  /**
   * `LaunchAction.launch`: stop the event, then ask the launcher for the
   * application named in the data with the data plus 'source' as
   * context; a KeyError without an application identifier. The event's
   * data is left as it was.
   */
  method Launch<V>(event: Event<V>) returns (r: Result<LaunchRequest<V>>)
    modifies event
    ensures event.stopped && event.data == old(event.data)
    ensures r.Success? <==> ApplicationIdentifierKey in event.data
    ensures r.Success? ==> r.value == LaunchRequest(event.data[ApplicationIdentifierKey], LaunchContext(event.data, event.source))
    ensures r.Failure? ==> r.error == RuntimeFault(MissingApplicationIdentifier)
  {
    event.stopped := true;
    if ApplicationIdentifierKey !in event.data {
      return Failure(RuntimeFault(MissingApplicationIdentifier));
    }
    var applicationIdentifier := event.data[ApplicationIdentifierKey];
    var context := LaunchContext(event.data, event.source);
    applicationIdentifier := event.data[ApplicationIdentifierKey];
    context := LaunchContext(event.data, event.source);
    r := Success(LaunchRequest(applicationIdentifier, context));
  }

  // ---------------------------------------------------------------------------
  // register

  /** The argument `register` receives: an `ftrack.Registry`, or something from another API. */
  datatype Registry = FtrackRegistry | OtherRegistry

  /** What `register` sets up: nothing, or the store, the launcher and the subscribed action. */
  datatype Registration = NotRegistered | Registered(action: string)

  /** `register`: set up and subscribe the launch action only for an `ftrack.Registry`. */
  function Register(registry: Registry): (r: Registration)
    ensures r.Registered? <==> registry.FtrackRegistry?
    ensures r.Registered? ==> r.action == LaunchIdentifier
  {
    if !registry.FtrackRegistry? then NotRegistered else Registered(LaunchIdentifier)
  }
}
