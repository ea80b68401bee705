/**
 * The part of the ftrack server that the plugins see, as an abstract entity
 * store. Every API call the plugins make (`getParent`, `getChildren`,
 * `getVersions`, `getComponents`, `getTasks`, `getAssets`, `getMeta`, the
 * entity constructors) becomes a lookup in a map from identifiers to entity
 * records; the creation calls of the publishing code are methods of `Server`.
 */
module Ftrack {
  import opened Wrappers
  import opened Text

  type Id = string

  /** The Python class of an ftrack object (shots and sequences are `ftrack.Task`s). */
  datatype EntityClass =
    | ProjectClass | TaskClass | AssetClass | AssetVersionClass | ComponentClass | TaskTypeClass

  datatype Entity = Entity(
    id: Id,
    cls: EntityClass,
    /** `getObjectType()` when the object has it ('Shot', 'Sequence', 'Task', ...). */
    objectType: Option<string>,
    /** `getName()` when the object has it; asset versions have none. */
    name: Option<string>,
    /** The version number of an asset version. */
    version: Option<int>,
    /** `getParent()`; for a component its version, for a version its asset. */
    parent: Option<Id>,
    /** What the listing calls return, in the server's order. */
    children: seq<Id>,
    /** Distance from the root; a parent is always strictly shallower. */
    depth: nat,
    /** `getMeta()`. */
    meta: map<string, string>,
    /** Native attributes read by `get(key)` and written by `set(key, value)`. */
    fields: map<string, string>,
    /** The short name of an asset's type ('img', 'comp', 'edit', ...). */
    assetType: string,
    /** The name of a task's task type ('Compositing', 'Editing', ...). */
    taskType: string,
    /** A component's file path (`getImportPath()`). */
    path: string
  )

  type Store = map<Id, Entity>

  /** Identifiers are keys, parents exist and are shallower, children exist. */
  ghost predicate ValidStore(store: Store)
  {
    forall id {:trigger WellPlaced(store, id)} :: id in store ==> WellPlaced(store, id)
  }

  ghost predicate WellPlaced(store: Store, id: Id)
    requires id in store
  {
    var e := store[id];
    && e.id == id
    && (e.parent.Some? ==> e.parent.value in store && store[e.parent.value].depth < e.depth)
    && (forall i :: 0 <= i < |e.children| ==> e.children[i] in store)
  }

  ghost predicate InStore(store: Store, e: Entity)
  {
    e.id in store && store[e.id] == e
  }

  /** `getParent()`; None at the top of the hierarchy. */
  function Parent(store: Store, e: Entity): (p: Option<Entity>)
    requires ValidStore(store) && InStore(store, e)
    ensures p.Some? ==> InStore(store, p.value) && p.value.depth < e.depth
  {
    assert WellPlaced(store, e.id);
    if e.parent.Some? then assert WellPlaced(store, e.parent.value); Some(store[e.parent.value]) else None
  }

  /** `getParents()`: the ancestors, nearest first. */
  function Parents(store: Store, e: Entity): (r: seq<Entity>)
    requires ValidStore(store) && InStore(store, e)
    ensures forall i :: 0 <= i < |r| ==> InStore(store, r[i])
    decreases e.depth
  {
    match Parent(store, e)
    case None => []
    case Some(p) => [p] + Parents(store, p)
  }

  /** The raw listing under an entity, which `getChildren`, `getVersions`, `getTasks`, ... filter. */
  function Children(store: Store, e: Entity): (r: seq<Entity>)
    requires ValidStore(store) && InStore(store, e)
    ensures |r| == |e.children|
    ensures forall i :: 0 <= i < |r| ==> InStore(store, r[i])
  {
    assert WellPlaced(store, e.id);
    assert forall i :: 0 <= i < |e.children| ==> WellPlaced(store, e.children[i]);
    seq(|e.children|, i requires 0 <= i < |e.children| => store[e.children[i]])
  }

  /**
   * A context: a project-level `ftrack.Task` such as a Shot or a Sequence, as
   * opposed to a task proper (object type 'Task'), an asset or anything else.
   */
  predicate IsContext(e: Entity)
  {
    e.cls == TaskClass && e.objectType != Some("Task")
  }

  /** The contexts of a listing, in order. */
  function Contexts(es: seq<Entity>): (r: seq<Entity>)
    ensures |r| <= |es|
    ensures forall x :: x in r <==> x in es && IsContext(x)
  {
    if es == [] then []
    else if IsContext(es[0]) then [es[0]] + Contexts(es[1..])
    else Contexts(es[1..])
  }

  /**
   * `getChildren()` of a project or a task: its child contexts only. Tasks
   * proper and assets sit in the same raw listing but are what `getTasks()`
   * and `getAssets()` return.
   */
  function ContextChildren(store: Store, e: Entity): (r: seq<Entity>)
    requires ValidStore(store) && InStore(store, e)
    ensures forall i :: 0 <= i < |r| ==> InStore(store, r[i])
    ensures forall x :: x in r <==> x in Children(store, e) && IsContext(x)
  {
    var r := Contexts(Children(store, e));
    assert forall i :: 0 <= i < |r| ==> r[i] in Children(store, e);
    r
  }

  /** A listing whose entries are all contexts is its own context listing. */
  lemma {:induction false} ContextsOfContexts(es: seq<Entity>)
    requires forall i :: 0 <= i < |es| ==> IsContext(es[i])
    ensures Contexts(es) == es
  {
    if es != [] {
      ContextsOfContexts(es[1..]);
    }
  }

  /** A listing holding no context gives no children at all. */
  lemma {:induction false} ContextsOfNone(es: seq<Entity>)
    requires forall i :: 0 <= i < |es| ==> !IsContext(es[i])
    ensures Contexts(es) == []
  {
    if es != [] {
      ContextsOfNone(es[1..]);
    }
  }

  function FilterClass(es: seq<Entity>, cls: EntityClass): (r: seq<Entity>)
    ensures |r| <= |es|
    ensures forall i :: 0 <= i < |r| ==> r[i].cls == cls && r[i] in es
  {
    if es == [] then []
    else if es[0].cls == cls then [es[0]] + FilterClass(es[1..], cls)
    else FilterClass(es[1..], cls)
  }

  /** `asset.getVersions()`, oldest first. */
  function Versions(store: Store, asset: Entity): (r: seq<Entity>)
    requires ValidStore(store) && InStore(store, asset)
  {
    FilterClass(Children(store, asset), AssetVersionClass)
  }

  /** `version.getComponents()`. */
  function Components(store: Store, version: Entity): (r: seq<Entity>)
    requires ValidStore(store) && InStore(store, version)
  {
    FilterClass(Children(store, version), ComponentClass)
  }

  /** The first entity of a listing with that name, if any: `children.find('name', ...)`. */
  function FindNamed(es: seq<Entity>, name: string): (r: Option<Entity>)
    ensures r.Some? ==> r.value in es && r.value.name == Some(name)
    ensures r.None? ==> forall i :: 0 <= i < |es| ==> es[i].name != Some(name)
  {
    if es == [] then None
    else if es[0].name == Some(name) then Some(es[0])
    else FindNamed(es[1..], name)
  }

  /** `find` answers the first entity carrying the name. */
  lemma {:induction false} FindNamedFirst(es: seq<Entity>, name: string, i: nat)
    requires i < |es| && es[i].name == Some(name)
    requires forall j :: 0 <= j < i ==> es[j].name != Some(name)
    ensures FindNamed(es, name) == Some(es[i])
    decreases i
  {
    if i > 0 {
      FindNamedFirst(es[1..], name, i - 1);
    }
  }

  /** `obj.getTasks(taskTypes=[taskType])`: the child tasks of that type. */
  function TasksOfType(es: seq<Entity>, taskType: string): (r: seq<Entity>)
    ensures forall i :: 0 <= i < |r| ==> r[i] in es && r[i].objectType == Some("Task") && r[i].taskType == taskType
  {
    if es == [] then []
    else if es[0].cls == TaskClass && es[0].objectType == Some("Task") && es[0].taskType == taskType
    then [es[0]] + TasksOfType(es[1..], taskType)
    else TasksOfType(es[1..], taskType)
  }

  /** `obj.getAssets(assetTypes=[assetType])`. */
  function AssetsOfType(es: seq<Entity>, assetType: string): (r: seq<Entity>)
    ensures forall i :: 0 <= i < |r| ==> r[i] in es && r[i].cls == AssetClass && r[i].assetType == assetType
  {
    if es == [] then []
    else if es[0].cls == AssetClass && es[0].assetType == assetType then [es[0]] + AssetsOfType(es[1..], assetType)
    else AssetsOfType(es[1..], assetType)
  }

  /** The `entityType` query value (and `get('entityType')`) of each class. */
  function RefType(cls: EntityClass): string
  {
    match cls
    case ProjectClass => "show"
    case TaskClass => "task"
    case AssetClass => "asset"
    case AssetVersionClass => "asset_version"
    case ComponentClass => "component"
    case TaskTypeClass => "tasktype"
  }

  /** `getEntityRef()`: `ftrack://<id>?entityType=<type>`. */
  function EntityRef(e: Entity): string
  {
    "ftrack://" + e.id + "?entityType=" + RefType(e.cls)
  }

  /**
   * The server side of the creation calls. Identifiers of new entities are
   * UUIDs chosen by the server; here the caller passes them in.
   */
  class Server {
    var entities: Store

    ghost predicate Valid()
      reads this
    {
      ValidStore(entities)
    }

    constructor (initial: Store)
      requires ValidStore(initial)
      ensures Valid() && entities == initial
    {
      entities := initial;
    }

    /** Adds a new top-level entity (a project). */
    method CreateRoot(e: Entity)
      requires Valid() && e.id !in entities
      requires e.parent.None? && e.children == []
      modifies this
      ensures Valid()
      ensures entities == old(entities)[e.id := e]
    {
      var next := entities[e.id := e];
      forall id | id in next
        ensures WellPlaced(next, id)
      {
        if id != e.id {
          assert WellPlaced(entities, id);
        }
      }
      entities := next;
    }

    /** Adds `child` under the existing `parentId` and lists it last among the parent's children. */
    method CreateChild(parentId: Id, child: Entity)
      requires Valid() && parentId in entities && child.id !in entities
      requires child.parent == Some(parentId) && child.children == []
      requires child.depth == entities[parentId].depth + 1
      modifies this
      ensures Valid()
      ensures child.id in entities && entities[child.id] == child
      ensures parentId in entities
      ensures entities[parentId] == old(entities)[parentId].(children := old(entities)[parentId].children + [child.id])
      ensures entities == old(entities)[parentId := entities[parentId]][child.id := child]
    {
      var p := entities[parentId];
      var p' := p.(children := p.children + [child.id]);
      var next := entities[parentId := p'][child.id := child];
      forall id | id in next
        ensures WellPlaced(next, id)
      {
        if id != child.id && id != parentId {
          assert WellPlaced(entities, id);
        } else if id == parentId {
          assert WellPlaced(entities, parentId);
        }
      }
      entities := next;
    }

    /** `set`/`setMeta` on an existing entity: replaces its record, keeping its place. */
    method Update(e: Entity)
      requires Valid() && e.id in entities
      requires e.parent == entities[e.id].parent && e.children == entities[e.id].children
      requires e.depth == entities[e.id].depth
      modifies this
      ensures Valid()
      ensures entities == old(entities)[e.id := e]
    {
      var next := entities[e.id := e];
      forall id | id in next
        ensures WellPlaced(next, id)
      {
        assert WellPlaced(entities, id);
      }
      entities := next;
    }
  }
}
