/**
 * The asset-manager event handlers: which listeners are registered, the
 * ftrack knobs added to the Nuke read node of an exported clip, the
 * renaming of the write node and its publish group, and how entity
 * references are collected back from the `componentId` knobs of Nuke
 * nodes.
 */
module Events {
  import opened Wrappers
  import opened Text
  import opened Ftrack
  import opened Utils

  // ---------------------------------------------------------------------------
  // Listeners

  const AddClipEvent := "hieroToNukeScriptAddClip"
  const AddWriteEvent := "hieroToNukeScriptAddWrite"
  const RefsEvent := "entityReferencesFromNukeNodes"

  /** The three handlers of this module. */
  datatype Handler = AddClipHandler | AddWriteHandler | RefsFromNodesHandler

  datatype Listener = Listener(event: string, handler: Handler)

  /** The event manager's listener list. */
  class EventManager {
    var listeners: seq<Listener>

    constructor ()
      ensures listeners == []
    {
      listeners := [];
    }

    method RegisterListener(event: string, handler: Handler)
      modifies this
      ensures listeners == old(listeners) + [Listener(event, handler)]
    {
      listeners := listeners + [Listener(event, handler)];
    }
  }

  /** The listeners `registerEventHandlers` adds, in order. */
  function Registrations(): (r: seq<Listener>)
    ensures |r| == 3
    ensures forall i, j :: 0 <= i < j < |r| ==> r[i].event != r[j].event && r[i].handler != r[j].handler
  {
    [Listener(AddClipEvent, AddClipHandler), Listener(AddWriteEvent, AddWriteHandler),
     Listener(RefsEvent, RefsFromNodesHandler)]
  }

  /** `registerEventHandlers`: exactly the three listeners, under their fixed event names. */
  method RegisterEventHandlers(manager: EventManager)
    modifies manager
    ensures manager.listeners == old(manager.listeners) + Registrations()
  {
    manager.RegisterListener(AddClipEvent, AddClipHandler);
    manager.RegisterListener(AddWriteEvent, AddWriteHandler);
    manager.RegisterListener(RefsEvent, RefsFromNodesHandler);
  }

  // ---------------------------------------------------------------------------
  // Nuke nodes

  /** A knob: a tab, or an input text knob with its value. */
  datatype Knob = TabKnob(name: string, caption: string) | TextKnob(name: string, caption: string, value: string)

  /** `knob.getValue()`; a tab carries no text. */
  function KnobValue(k: Knob): string
  {
    if k.TextKnob? then k.value else ""
  }

  /** A Nuke node: its name, knobs, inputs and (for a group) the nodes inside it. */
  class Node {
    var name: string
    var knobs: seq<Knob>
    var inputs: seq<Node>
    var contents: seq<Node>

    constructor (name: string)
      ensures this.name == name && knobs == [] && inputs == [] && contents == []
    {
      this.name := name;
      knobs := [];
      inputs := [];
      contents := [];
    }
  }

  /** A Nuke script: the nodes added to it. */
  class Script {
    var nodes: seq<Node>

    constructor ()
      ensures nodes == []
    {
      nodes := [];
    }
  }

  // ---------------------------------------------------------------------------
  // Add clip

  const FtrackTab := "ftracktab"
  const FtrackTabLabel := "ftrack"
  const ComponentIdKnob := "componentId"

  const ComponentNameKnob := "componentName"
  const AssetVersionIdKnob := "assetVersionId"
  const AssetVersionKnob := "assetVersion"
  const AssetNameKnob := "assetName"
  const AssetTypeKnob := "assetType"

  /** The names of the six text knobs a read node gets, in order. */
  const ClipKnobNames: seq<string> := [ComponentIdKnob, ComponentNameKnob, AssetVersionIdKnob, AssetVersionKnob, AssetNameKnob, AssetTypeKnob]

  /**
   * The reference of an exported clip: `fileOrRef` when that is an entity
   * reference, else the clip's own reference (None when the clip has
   * none) when that is one, else none.
   */
  function ClipRef(fileOrRef: string, clipRef: Option<string>): (r: Option<string>)
    ensures r.Some? ==> IsEntityReference(r.value)
    ensures IsEntityReference(fileOrRef) ==> r == Some(fileOrRef)
    ensures !IsEntityReference(fileOrRef) ==> r == (if clipRef.Some? && IsEntityReference(clipRef.value) then clipRef else None)
  {
    if IsEntityReference(fileOrRef) then Some(fileOrRef)
    else if clipRef.Some? && IsEntityReference(clipRef.value) then clipRef
    else None
  }

  /** `str(x)` of an optional name. */
  function OptText(s: Option<string>): string
  {
    if s.Some? then s.value else "None"
  }

  /** `str(x)` of an optional version number. */
  function OptNumber(n: Option<int>): string
  {
    if n.Some? then IntToString(n.value) else "None"
  }

  /** The ftrack tab followed by one text knob for each of the six names, in order. */
  predicate IsDescription(knobs: seq<Knob>)
  {
    && |knobs| == 1 + |ClipKnobNames|
    && knobs[0] == TabKnob(FtrackTab, FtrackTabLabel)
    && forall i :: 0 <= i < |ClipKnobNames| ==>
         knobs[i + 1].TextKnob? && knobs[i + 1].name == ClipKnobNames[i] && knobs[i + 1].caption == ClipKnobNames[i]
  }

  /** The knobs describing a component, its version and its asset. */
  function DescriptionKnobs(component: Entity, assetVersion: Entity, asset: Entity): (r: seq<Knob>)
    ensures IsDescription(r)
    ensures KnobValue(r[1]) == EntityRef(component) && KnobValue(r[3]) == EntityRef(assetVersion)
  {
    [TabKnob(FtrackTab, FtrackTabLabel),
     TextKnob(ComponentIdKnob, ComponentIdKnob, EntityRef(component)),
     TextKnob(ComponentNameKnob, ComponentNameKnob, OptText(component.name)),
     TextKnob(AssetVersionIdKnob, AssetVersionIdKnob, EntityRef(assetVersion)),
     TextKnob(AssetVersionKnob, AssetVersionKnob, OptNumber(assetVersion.version)),
     TextKnob(AssetNameKnob, AssetNameKnob, OptText(asset.name)),
     TextKnob(AssetTypeKnob, AssetTypeKnob, asset.assetType)]
  }

  const NoGetVersion := "object has no attribute 'getVersion'"
  const NoGetAsset := "'NoneType' object has no attribute 'getAsset'"
  const NoGetName := "'NoneType' object has no attribute 'getName'"

  /**
   * The knobs `hieroToNukeAddClip` adds to the read node: none without a
   * reference; else the ftrack tab and six text knobs describing the
   * referenced component, its version and its asset. A reference that is
   * not a component, or a component without a version or asset above it,
   * raises.
   */
  function ClipKnobs(store: Store, ref: Option<string>): (r: Result<seq<Knob>>)
    requires ValidStore(store)
    ensures ref.None? ==> r == Success([])
    ensures r.Success? && ref.Some? ==>
      && IsDescription(r.value)
      && Lookup(store, ref.value).Success?
      && KnobValue(r.value[1]) == EntityRef(Lookup(store, ref.value).value)
    ensures ref.Some? && Lookup(store, ref.value).Failure? ==> r == Failure(Lookup(store, ref.value).error)
    ensures ref.Some? && Lookup(store, ref.value).Success? ==>
      var obj := Lookup(store, ref.value).value;
      && (obj.cls != ComponentClass ==> r == Failure(RuntimeFault(NoGetVersion)))
      && (obj.cls == ComponentClass && Parent(store, obj).None? ==> r == Failure(RuntimeFault(NoGetAsset)))
      && (obj.cls == ComponentClass && Parent(store, obj).Some? ==>
            var v := Parent(store, obj).value;
            && (Parent(store, v).None? ==> r == Failure(RuntimeFault(NoGetName)))
            && (Parent(store, v).Some? ==> r == Success(DescriptionKnobs(obj, v, Parent(store, v).value))))
  {
    match ref
    case None => Success([])
    case Some(ref) =>
      var obj :- Lookup(store, ref);
      if obj.cls != ComponentClass then Failure(RuntimeFault(NoGetVersion))
      else
        match Parent(store, obj)
        case None => Failure(RuntimeFault(NoGetAsset))
        case Some(assetVersion) =>
          match Parent(store, assetVersion)
          case None => Failure(RuntimeFault(NoGetName))
          case Some(asset) => Success(DescriptionKnobs(obj, assetVersion, asset))
  }

  /**
   * The knobs written before the asset is first used: the tab and the
   * component and version knobs, the first five of any description of them.
   */
  function PartialDescription(component: Entity, assetVersion: Entity): (r: seq<Knob>)
    ensures |r| == 5
    ensures forall asset :: r == DescriptionKnobs(component, assetVersion, asset)[..5]
  {
    [TabKnob(FtrackTab, FtrackTabLabel),
     TextKnob(ComponentIdKnob, ComponentIdKnob, EntityRef(component)),
     TextKnob(ComponentNameKnob, ComponentNameKnob, OptText(component.name)),
     TextKnob(AssetVersionIdKnob, AssetVersionIdKnob, EntityRef(assetVersion)),
     TextKnob(AssetVersionKnob, AssetVersionKnob, OptNumber(assetVersion.version))]
  }

  /**
   * The knobs already on the read node when `hieroToNukeAddClip` raises:
   * five when the version has no asset (`asset.getName()` raises after the
   * tab and four text knobs were added), none for the other faults.
   */
  function FaultKnobs(store: Store, ref: Option<string>): (r: seq<Knob>)
    requires ValidStore(store)
    ensures r != [] ==> ClipKnobs(store, ref) == Failure(RuntimeFault(NoGetName))
    ensures r != [] ==> (ref.Some? && Lookup(store, ref.value).Success? &&
      var obj := Lookup(store, ref.value).value;
      Parent(store, obj).Some? && r == PartialDescription(obj, Parent(store, obj).value))
    ensures ClipKnobs(store, ref).Success? ==> r == []
  {
    match ref
    case None => []
    case Some(ref) =>
      match Lookup(store, ref)
      case Failure(_) => []
      case Success(obj) =>
        if obj.cls != ComponentClass then []
        else
          match Parent(store, obj)
          case None => []
          case Some(assetVersion) =>
            if Parent(store, assetVersion).None? then PartialDescription(obj, assetVersion) else []
  }

  /** `hieroToNukeAddClip`: add the clip's ftrack knobs to the read node. */
  method HieroToNukeAddClip(store: Store, fileOrRef: string, clipRef: Option<string>, readNode: Node) returns (r: Result<()>)
    requires ValidStore(store)
    modifies readNode
    ensures var knobs := ClipKnobs(store, ClipRef(fileOrRef, clipRef));
      && (r.Success? <==> knobs.Success?)
      && (r.Success? ==> readNode.knobs == old(readNode.knobs) + knobs.value)
      && (r.Failure? ==> readNode.knobs == old(readNode.knobs) + FaultKnobs(store, ClipRef(fileOrRef, clipRef)))
    ensures readNode.name == old(readNode.name) && readNode.inputs == old(readNode.inputs)
      && readNode.contents == old(readNode.contents)
  {
    var ref: Option<string> := None;
    if IsEntityReference(fileOrRef) {
      ref := Some(fileOrRef);
    } else if clipRef.Some? && IsEntityReference(clipRef.value) {
      ref := clipRef;
    }
    r := AddReferenceKnobs(store, ref, readNode);
  }

  /** The part of `hieroToNukeAddClip` after the reference is chosen. */
  method AddReferenceKnobs(store: Store, ref: Option<string>, readNode: Node) returns (r: Result<()>)
    requires ValidStore(store)
    modifies readNode
    ensures var knobs := ClipKnobs(store, ref);
      && (r.Success? <==> knobs.Success?)
      && (r.Success? ==> readNode.knobs == old(readNode.knobs) + knobs.value)
      && (r.Failure? ==> readNode.knobs == old(readNode.knobs) + FaultKnobs(store, ref))
    ensures readNode.name == old(readNode.name) && readNode.inputs == old(readNode.inputs)
      && readNode.contents == old(readNode.contents)
  {
    if ref.None? {
      return Success(());
    }
    var found := Lookup(store, ref.value);
    if found.Failure? {
      return Failure(found.error);
    }
    var obj := found.value;
    if obj.cls != ComponentClass {
      return Failure(RuntimeFault(NoGetVersion));
    }
    var assetVersion := Parent(store, obj);
    if assetVersion.None? {
      return Failure(RuntimeFault(NoGetAsset));
    }
    var asset := Parent(store, assetVersion.value);
    AddVersionKnobs(readNode, obj, assetVersion.value);
    if asset.None? {
      return Failure(RuntimeFault(NoGetName));
    }
    AddAssetKnobs(readNode, asset.value);
    assert readNode.knobs == old(readNode.knobs) + DescriptionKnobs(obj, assetVersion.value, asset.value);
    r := Success(());
  }

  /** The first five `addKnob` calls: the ftrack tab, then the component and version knobs. */
  method AddVersionKnobs(readNode: Node, component: Entity, assetVersion: Entity)
    modifies readNode
    ensures readNode.knobs == old(readNode.knobs) + PartialDescription(component, assetVersion)
    ensures readNode.name == old(readNode.name) && readNode.inputs == old(readNode.inputs)
      && readNode.contents == old(readNode.contents)
  {
    readNode.knobs := readNode.knobs + [TabKnob(FtrackTab, FtrackTabLabel)];
    readNode.knobs := readNode.knobs + [TextKnob(ComponentIdKnob, ComponentIdKnob, EntityRef(component))];
    readNode.knobs := readNode.knobs + [TextKnob(ComponentNameKnob, ComponentNameKnob, OptText(component.name))];
    readNode.knobs := readNode.knobs + [TextKnob(AssetVersionIdKnob, AssetVersionIdKnob, EntityRef(assetVersion))];
    readNode.knobs := readNode.knobs + [TextKnob(AssetVersionKnob, AssetVersionKnob, OptNumber(assetVersion.version))];
  }

  /** The last two `addKnob` calls: the asset's name and type. */
  method AddAssetKnobs(readNode: Node, asset: Entity)
    modifies readNode
    ensures readNode.knobs == old(readNode.knobs)
      + [TextKnob(AssetNameKnob, AssetNameKnob, OptText(asset.name)), TextKnob(AssetTypeKnob, AssetTypeKnob, asset.assetType)]
    ensures readNode.name == old(readNode.name) && readNode.inputs == old(readNode.inputs)
      && readNode.contents == old(readNode.contents)
  {
    readNode.knobs := readNode.knobs + [TextKnob(AssetNameKnob, AssetNameKnob, OptText(asset.name))];
    readNode.knobs := readNode.knobs + [TextKnob(AssetTypeKnob, AssetTypeKnob, asset.assetType)];
  }

  // ---------------------------------------------------------------------------
  // Add write

  const MainName := "main"
  const PublishGroupName := "ftrackPublish"
  const PublishInitKnob := "fpubinit"

  /**
   * `hieroToNukeAddWrite`: the write node gets the ftrack tab and is
   * renamed 'main'; a new publish group holding an Input feeding an Output,
   * with `fpubinit` "False", takes the write node as its input and is added
   * to the script when there is one.
   */
  method HieroToNukeAddWrite(writeNode: Node, script: Option<Script>) returns (publish: Node)
    modifies writeNode, if script.Some? then {script.value} else {}
    ensures writeNode.name == MainName
    ensures writeNode.knobs == old(writeNode.knobs) + [TabKnob(FtrackTab, FtrackTabLabel)]
    ensures writeNode.inputs == old(writeNode.inputs) && writeNode.contents == old(writeNode.contents)
    ensures fresh(publish) && publish.name == PublishGroupName
    ensures publish.knobs == [TextKnob(PublishInitKnob, PublishInitKnob, "False")]
    ensures publish.inputs == [writeNode]
    ensures |publish.contents| == 2 && fresh(publish.contents[0]) && fresh(publish.contents[1])
    ensures publish.contents[0].name == "Input" && publish.contents[0].inputs == []
    ensures publish.contents[1].name == "Output" && publish.contents[1].inputs == [publish.contents[0]]
    ensures script.Some? ==> script.value.nodes == old(script.value.nodes) + [publish]
  {
    writeNode.knobs := writeNode.knobs + [TabKnob(FtrackTab, FtrackTabLabel)];
    writeNode.name := MainName;
    publish := new Node(PublishGroupName);
    var inputNode := new Node("Input");
    publish.contents := publish.contents + [inputNode];
    var outputNode := new Node("Output");
    outputNode.inputs := [inputNode];
    publish.contents := publish.contents + [outputNode];
    publish.knobs := publish.knobs + [TextKnob(PublishInitKnob, PublishInitKnob, "False")];
    if script.Some? {
      script.value.nodes := script.value.nodes + [publish];
    }
    publish.inputs := [writeNode];
  }

  // ---------------------------------------------------------------------------
  // References from nodes

  /** What one knob contributes: its value, when it is a `componentId` knob holding an entity reference. */
  function KnobHit(k: Knob): set<string>
  {
    if k.name == ComponentIdKnob && IsEntityReference(KnobValue(k)) then {KnobValue(k)} else {}
  }

  /** The entity references held by `componentId` knobs. */
  function KnobRefs(knobs: seq<Knob>): set<string>
  {
    if knobs == [] then {} else KnobHit(knobs[0]) + KnobRefs(knobs[1..])
  }

  /** Some `componentId` knob holds `v`. */
  predicate HoldsComponentId(knobs: seq<Knob>, v: string)
  {
    exists i :: 0 <= i < |knobs| && knobs[i].name == ComponentIdKnob && KnobValue(knobs[i]) == v
  }

  lemma HoldsComponentIdCons(knobs: seq<Knob>, v: string)
    requires knobs != []
    ensures HoldsComponentId(knobs, v) <==>
      ((knobs[0].name == ComponentIdKnob && KnobValue(knobs[0]) == v) || HoldsComponentId(knobs[1..], v))
  {
    if HoldsComponentId(knobs, v) {
      var i :| 0 <= i < |knobs| && knobs[i].name == ComponentIdKnob && KnobValue(knobs[i]) == v;
      if i > 0 {
        assert knobs[1..][i - 1] == knobs[i];
      }
    }
    if HoldsComponentId(knobs[1..], v) {
      var i :| 0 <= i < |knobs[1..]| && knobs[1..][i].name == ComponentIdKnob && KnobValue(knobs[1..][i]) == v;
      assert knobs[i + 1] == knobs[1..][i];
    }
  }

  /** A value is collected exactly when some `componentId` knob holds it and it is an entity reference. */
  lemma {:induction false} KnobRefsContents(knobs: seq<Knob>, v: string)
    ensures v in KnobRefs(knobs) <==> IsEntityReference(v) && HoldsComponentId(knobs, v)
  {
    if knobs != [] {
      KnobRefsContents(knobs[1..], v);
      HoldsComponentIdCons(knobs, v);
    }
  }


  /** The entity references held by the knobs of a list of nodes. */
  function NodesRefs(nodes: seq<Node>): set<string>
    reads set i | 0 <= i < |nodes| :: nodes[i]
  {
    if nodes == [] then {} else KnobRefs(nodes[0].knobs) + NodesRefs(nodes[1..])
  }

  /** The caller's set of entity references. */
  class RefSet {
    var refs: set<string>

    constructor (refs: set<string>)
      ensures this.refs == refs
    {
      this.refs := refs;
    }
  }

  /**
   * `refsFromNukeNodes`: add the value of every `componentId` knob that is
   * an entity reference; nothing is removed.
   */
  method RefsFromNukeNodes(nodes: seq<Node>, entityRefSet: RefSet)
    modifies entityRefSet
    ensures entityRefSet.refs == old(entityRefSet.refs) + NodesRefs(nodes)
  {
    var i := 0;
    while i < |nodes|
      invariant 0 <= i <= |nodes|
      invariant entityRefSet.refs + NodesRefs(nodes[i..]) == old(entityRefSet.refs) + NodesRefs(nodes)
    {
      NodesRefsAt(nodes, i);
      AddKnobRefs(nodes[i].knobs, entityRefSet);
      i := i + 1;
    }
  }

  lemma NodesRefsAt(nodes: seq<Node>, i: nat)
    requires i < |nodes|
    ensures NodesRefs(nodes[i..]) == KnobRefs(nodes[i].knobs) + NodesRefs(nodes[i + 1..])
  {
    assert nodes[i..][1..] == nodes[i + 1..];
  }

  /** The inner loop of `refsFromNukeNodes`, over the knobs of one node. */
  method AddKnobRefs(knobs: seq<Knob>, entityRefSet: RefSet)
    modifies entityRefSet
    ensures entityRefSet.refs == old(entityRefSet.refs) + KnobRefs(knobs)
  {
    var j := 0;
    while j < |knobs|
      invariant 0 <= j <= |knobs|
      invariant entityRefSet.refs + KnobRefs(knobs[j..]) == old(entityRefSet.refs) + KnobRefs(knobs)
    {
      KnobRefsAt(knobs, j);
      entityRefSet.refs := entityRefSet.refs + KnobHit(knobs[j]);
      j := j + 1;
    }
  }

  lemma KnobRefsAt(knobs: seq<Knob>, j: nat)
    requires j < |knobs|
    ensures KnobRefs(knobs[j..]) == KnobHit(knobs[j]) + KnobRefs(knobs[j + 1..])
  {
    assert knobs[j..][1..] == knobs[j + 1..];
  }

  /** Knobs none of which is named `componentId` hold no reference. */
  lemma {:induction false} NoComponentIdRefs(knobs: seq<Knob>)
    requires forall i :: 0 <= i < |knobs| ==> knobs[i].name != ComponentIdKnob
    ensures KnobRefs(knobs) == {}
  {
    if knobs != [] {
      assert forall i :: 0 <= i < |knobs[1..]| ==> knobs[1..][i] == knobs[i + 1];
      NoComponentIdRefs(knobs[1..]);
    }
  }

  /** In a description only the knob after the tab is named `componentId`. */
  lemma DescriptionNames(knobs: seq<Knob>)
    requires IsDescription(knobs)
    ensures knobs[1].name == ComponentIdKnob
    ensures forall i :: 0 <= i < |knobs[2..]| ==> knobs[2..][i].name != ComponentIdKnob
  {
    assert knobs[0 + 1].name == ClipKnobNames[0];
    forall i | 0 <= i < |knobs[2..]|
      ensures knobs[2..][i].name != ComponentIdKnob
    {
      assert knobs[2..][i] == knobs[(i + 1) + 1];
      assert ClipKnobNames[i + 1] != ComponentIdKnob;
    }
  }

  /** A description's references are exactly its `componentId` value, when that is a reference. */
  lemma DescriptionRefs(knobs: seq<Knob>)
    requires IsDescription(knobs) && IsEntityReference(KnobValue(knobs[1]))
    ensures KnobRefs(knobs) == {KnobValue(knobs[1])}
  {
    DescriptionNames(knobs);
    NoComponentIdRefs(knobs[2..]);
    assert knobs[1..][1..] == knobs[2..];
  }

  /**
   * The reference `hieroToNukeAddClip` writes is the one `refsFromNukeNodes`
   * reads back: the knobs added for a component's own reference yield
   * exactly that reference.
   */
  lemma AddClipRefsRoundTrip(store: Store, c: Entity, clipRef: Option<string>)
    requires ValidStore(store) && InStore(store, c) && NoDelimiters(c.id)
    requires |c.id| == 36 && Count(c.id, '-') == 4
    requires ClipKnobs(store, ClipRef(EntityRef(c), clipRef)).Success?
    ensures KnobRefs(ClipKnobs(store, ClipRef(EntityRef(c), clipRef)).value) == {EntityRef(c)}
  {
    EntityRefIsReference(c);
    LookupEntityRef(store, c);
    assert ClipRef(EntityRef(c), clipRef) == Some(EntityRef(c));
    var knobs := ClipKnobs(store, Some(EntityRef(c))).value;
    DescriptionRefs(knobs);
  }
}
