/**
 * Registration of new entities: a project at the top level, a grouping (a
 * Sequence under a Project, a Shot under a Sequence) with its compositing and
 * editing tasks, and a published file, which becomes a new version holding
 * one component under an existing or a new asset.
 *
 * The server picks the identifiers of new entities; here the caller passes
 * them in, distinct and unused.
 */
module Publish {
  import opened Wrappers
  import opened Ftrack
  import opened Utils
  import opened AssetApi

  const TaskTypeKey := "taskType"
  const CompTaskType := "Compositing"
  const CompTaskName := "compositing"
  const EditTaskType := "Editing"
  const EditTaskName := "editing"
  const NukeHost := "uk.co.foundry.nuke"
  const HieroHost := "uk.co.foundry.hiero"

  const WrongDestinationMsg := "Groupings can only be created under a Project or a Sequence."
  const TaskBelowProjectMsg := "Can not publish on a task directly below a project"
  const NoSuitableAssetMsg := "Unable to find a suitable asset relating to "

  // ---------------------------------------------------------------------------
  // Task type and name

  /** `taskNameMap.get(taskType, taskType)`. */
  function TaskNameOf(taskType: string): string
  {
    if taskType == CompTaskType then CompTaskName
    else if taskType == EditTaskType then EditTaskName
    else taskType
  }

  /** Whether the context's manager options decide the task type. */
  predicate OptionOverrides(context: Option<Context>)
  {
    context.Some? && |context.value.managerOptions| > 0 && TaskTypeKey in context.value.managerOptions
  }

  /**
   * `getTaskTypeAndName`: Compositing by default, Editing in Hiero; a Nuke
   * script always goes to Compositing and a Hiero project to Editing; a
   * 'taskType' manager option overrides all of these.
   */
  function TaskTypeAndName(hostId: string, spec: Specification, context: Option<Context>): (r: (string, string))
    ensures r.1 == TaskNameOf(r.0)
    ensures OptionOverrides(context) ==> r.0 == context.value.managerOptions[TaskTypeKey]
    ensures !OptionOverrides(context) && IsOfType(spec.typ, NukeScriptType) ==> r.0 == CompTaskType
    ensures !OptionOverrides(context) && !IsOfType(spec.typ, NukeScriptType) && IsOfType(spec.typ, HieroProjectType)
      ==> r.0 == EditTaskType
    ensures !OptionOverrides(context) && !IsOfType(spec.typ, NukeScriptType) && !IsOfType(spec.typ, HieroProjectType)
      ==> r.0 == (if hostId == HieroHost then EditTaskType else CompTaskType)
  {
    var byHost := if hostId == NukeHost then CompTaskType else if hostId == HieroHost then EditTaskType else CompTaskType;
    var bySpec := if IsOfType(spec.typ, NukeScriptType) then CompTaskType
      else if IsOfType(spec.typ, HieroProjectType) then EditTaskType
      else byHost;
    var taskType := if context.Some? && |context.value.managerOptions| > 0 && TaskTypeKey in context.value.managerOptions
      then context.value.managerOptions[TaskTypeKey] else bySpec;
    (taskType, TaskNameOf(taskType))
  }

  /** The two task types a grouping is created with are named by the map. */
  lemma GroupingTaskNames()
    ensures TaskNameOf(CompTaskType) == CompTaskName && TaskNameOf(EditTaskType) == EditTaskName
    ensures CompTaskName != EditTaskName
  {
    assert CompTaskName[0] != EditTaskName[0];
  }

  // ---------------------------------------------------------------------------
  // The task a registration goes to

  datatype TaskPick = UseTask(task: Entity) | NewTask | UseSelf

  predicate IsGroupingObject(obj: Entity)
  {
    obj.objectType == Some("Shot") || obj.objectType == Some("Sequence")
  }

  /** `getTaskId`'s choice: under a Shot or Sequence the first task of the type, or a new one; otherwise the object. */
  function PickTask(store: Store, obj: Entity, taskType: string): (r: TaskPick)
    requires ValidStore(store) && InStore(store, obj)
    ensures r.UseSelf? <==> !IsGroupingObject(obj)
    ensures r.NewTask? <==> IsGroupingObject(obj) && TasksOfType(Children(store, obj), taskType) == []
    ensures r.UseTask? ==> r.task in Children(store, obj) && r.task.objectType == Some("Task") && r.task.taskType == taskType
    ensures r.UseTask? ==> r.task == TasksOfType(Children(store, obj), taskType)[0]
  {
    if IsGroupingObject(obj) then
      var tasks := TasksOfType(Children(store, obj), taskType);
      if |tasks| > 0 then UseTask(tasks[0]) else NewTask
    else UseSelf
  }

  /**
   * The tasks a registered grouping is created with are the ones a later
   * registration under it picks: Compositing finds the first, Editing the second.
   */
  lemma GroupingTasksArePicked(store: Store, g: Entity, comp: Entity, edit: Entity)
    requires ValidStore(store) && InStore(store, g) && IsGroupingObject(g)
    requires g.children == [comp.id, edit.id] && InStore(store, comp) && InStore(store, edit)
    requires comp == TaskEntity(comp.id, g, CompTaskName, CompTaskType)
    requires edit == TaskEntity(edit.id, g, EditTaskName, EditTaskType)
    ensures PickTask(store, g, CompTaskType) == UseTask(comp)
    ensures PickTask(store, g, EditTaskType) == UseTask(edit)
  {
    var children := Children(store, g);
    assert children == [comp, edit];
    assert children[1..] == [edit];
    assert CompTaskType != EditTaskType by { assert CompTaskType[0] != EditTaskType[0]; }
    assert TasksOfType([edit], CompTaskType) == [] by { assert [edit][1..] == []; }
    assert TasksOfType(children, EditTaskType) == TasksOfType([edit], EditTaskType);
    assert TasksOfType([edit], EditTaskType) == [edit] + TasksOfType([], EditTaskType) by { assert [edit][1..] == []; }
  }

  // ---------------------------------------------------------------------------
  // New records

  function TaskEntity(id: Id, parent: Entity, name: string, taskType: string): Entity
  {
    Entity(id, TaskClass, Some("Task"), Some(name), None, Some(parent.id), [], parent.depth + 1,
      map[], map[], "", taskType, "")
  }

  function GroupingEntity(id: Id, parent: Entity, objectType: string, name: string): Entity
  {
    Entity(id, TaskClass, Some(objectType), Some(name), None, Some(parent.id), [], parent.depth + 1,
      map[], map[], "", "", "")
  }

  function ProjectEntity(id: Id, shortName: string): Entity
  {
    Entity(id, ProjectClass, None, Some(shortName), None, None, [], 0, map[], map["fullname" := shortName], "", "", "")
  }

  function AssetEntity(id: Id, parent: Entity, name: string, assetType: string): Entity
  {
    Entity(id, AssetClass, None, Some(name), None, Some(parent.id), [], parent.depth + 1,
      map[], map[], assetType, "", "")
  }

  /** A version's `taskid` field, absent when the task id is None. */
  function TaskIdFields(taskId: Option<string>): map<string, string>
  {
    if taskId.Some? then map["comment" := "", "taskid" := taskId.value] else map["comment" := ""]
  }

  function VersionEntity(id: Id, asset: Entity, number: int, taskId: Option<string>): Entity
  {
    Entity(id, AssetVersionClass, None, None, Some(number), Some(asset.id), [], asset.depth + 1,
      map[], TaskIdFields(taskId), "", "", "")
  }

  function ComponentEntity(id: Id, version: Entity, name: string, path: string): Entity
  {
    Entity(id, ComponentClass, None, Some(name), None, Some(version.id), [], version.depth + 1,
      map[], map[], "", "", path)
  }

  // ---------------------------------------------------------------------------
  // Projects and groupings

  /** `registerProject`: a new top-level project named `shortName`. */
  method RegisterProject(server: Server, shortName: string, id: Id) returns (ref: string)
    requires server.Valid() && id !in server.entities
    modifies server
    ensures server.Valid()
    ensures server.entities == old(server.entities)[id := ProjectEntity(id, shortName)]
    ensures ref == EntityRef(ProjectEntity(id, shortName))
  {
    var p := ProjectEntity(id, shortName);
    server.CreateRoot(p);
    ref := EntityRef(p);
  }

  /** What `registerGrouping` creates under the target: a Sequence under a Project, a Shot under a Sequence. */
  function GroupingKind(obj: Entity): (r: Result<string>)
    ensures r.Success? <==> obj.cls == ProjectClass || (obj.cls == TaskClass && obj.objectType == Some("Sequence"))
    ensures r.Success? ==> (r.value == "Sequence" <==> obj.cls == ProjectClass)
    ensures r.Success? ==> r.value == "Sequence" || r.value == "Shot"
    ensures r.Failure? ==> r.error == RegistrationError(WrongDestinationMsg)
  {
    if obj.cls == ProjectClass then Success("Sequence")
    else if obj.cls == TaskClass && obj.objectType == Some("Sequence") then Success("Shot")
    else Failure(RegistrationError(WrongDestinationMsg))
  }

  /** The grouping's name: the name hint, else the short name. */
  function GroupingName(shortName: string, spec: Specification): (r: string)
    ensures HintNameField in spec.fields ==> r == spec.fields[HintNameField]
    ensures HintNameField !in spec.fields ==> r == shortName
  {
    GetField(spec, HintNameField, Some(shortName)).value
  }

  /** `obj.createTask(name, ftrack.TaskType(taskType))`. */
  method CreateTask(server: Server, parentId: Id, id: Id, name: string, taskType: string) returns (task: Entity)
    requires server.Valid() && parentId in server.entities && id !in server.entities
    modifies server
    ensures server.Valid()
    ensures task == TaskEntity(id, old(server.entities)[parentId], name, taskType)
    ensures parentId in server.entities
    ensures server.entities[parentId] == old(server.entities)[parentId].(children := old(server.entities)[parentId].children + [id])
    ensures server.entities == old(server.entities)[parentId := server.entities[parentId]][id := task]
  {
    assert WellPlaced(server.entities, parentId);
    task := TaskEntity(id, server.entities[parentId], name, taskType);
    server.CreateChild(parentId, task);
  }

  /** The store after `CreateChild(parentId, child)`: the child added, and listed last under its parent. */
  function WithChild(store: Store, parentId: Id, child: Entity): (r: Store)
    requires parentId in store
    ensures r.Keys == store.Keys + {child.id}
    ensures child.id != parentId ==> r[parentId].children == store[parentId].children + [child.id]
    ensures forall k :: k in store && k != parentId && k != child.id ==> r[k] == store[k]
  {
    store[parentId := store[parentId].(children := store[parentId].children + [child.id])][child.id := child]
  }

  /**
   * What `registerGrouping` leaves behind: an unresolvable target or one
   * that is neither a Project nor a Sequence raises and changes nothing;
   * otherwise the grouping is added under the target, named by the hint or
   * the short name, and its 'compositing' and 'editing' tasks under it, and
   * nothing else changes.
   */
  ghost predicate GroupingRegistered(before: Store, after: Store, r: Result<string>, shortName: string,
                                     targetRef: string, spec: Specification, gid: Id, compId: Id, editId: Id)
    requires ValidStore(before)
  {
    match Lookup(before, targetRef)
    case Failure(e) => r == Failure(e) && after == before
    case Success(target) =>
      match GroupingKind(target)
      case Failure(e) => r == Failure(e) && after == before
      case Success(kind) =>
        var g := GroupingEntity(gid, target, kind, GroupingName(shortName, spec));
        && r == Success(EntityRef(g))
        && after == WithChild(before, target.id, g)[gid := g.(children := [compId, editId])]
                      [compId := TaskEntity(compId, g, CompTaskName, CompTaskType)]
                      [editId := TaskEntity(editId, g, EditTaskName, EditTaskType)]
  }

  /**
   * `registerGrouping`: a Sequence under a Project or a Shot under a
   * Sequence, named by the hint or the short name, with a 'compositing' and
   * an 'editing' task; anything else as target raises.
   */
  method RegisterGrouping(server: Server, shortName: string, targetRef: string, spec: Specification,
                          gid: Id, compId: Id, editId: Id) returns (r: Result<string>)
    requires server.Valid()
    requires gid !in server.entities && compId !in server.entities && editId !in server.entities
    requires gid != compId && gid != editId && compId != editId
    modifies server
    ensures server.Valid()
    ensures GroupingRegistered(old(server.entities), server.entities, r, shortName, targetRef, spec, gid, compId, editId)
  {
    var found := Lookup(server.entities, targetRef);
    if found.Failure? {
      return Failure(found.error);
    }
    var target := found.value;
    var kind := GroupingKind(target);
    if kind.Failure? {
      return Failure(kind.error);
    }
    var g := GroupingEntity(gid, target, kind.value, GroupingName(shortName, spec));
    server.CreateChild(target.id, g);
    ghost var s1 := server.entities;
    assert s1 == WithChild(old(server.entities), target.id, g);
    var comp := CreateTask(server, gid, compId, CompTaskName, CompTaskType);
    ghost var s2 := server.entities;
    var edit := CreateTask(server, gid, editId, EditTaskName, EditTaskType);
    GroupingStores(old(server.entities), target.id, g, compId, editId, comp, edit, s1, s2, server.entities);
    r := Success(EntityRef(g));
  }

  /** The store after the grouping and its two tasks are created one after the other. */
  lemma GroupingStores(s0: Store, tid: Id, g: Entity, compId: Id, editId: Id, comp: Entity, edit: Entity,
                       s1: Store, s2: Store, s3: Store)
    requires tid in s0 && g.id != tid && g.children == []
    requires g.id != compId && g.id != editId
    requires s1 == WithChild(s0, tid, g)
    requires g.id in s2 && s2[g.id] == s1[g.id].(children := s1[g.id].children + [compId])
    requires s2 == s1[g.id := s2[g.id]][compId := comp]
    requires comp == TaskEntity(compId, s1[g.id], CompTaskName, CompTaskType)
    requires g.id in s3 && s3[g.id] == s2[g.id].(children := s2[g.id].children + [editId])
    requires s3 == s2[g.id := s3[g.id]][editId := edit]
    requires edit == TaskEntity(editId, s2[g.id], EditTaskName, EditTaskType)
    ensures comp == TaskEntity(compId, g, CompTaskName, CompTaskType)
    ensures edit == TaskEntity(editId, g, EditTaskName, EditTaskType)
    ensures s3 == WithChild(s0, tid, g)[g.id := g.(children := [compId, editId])][compId := comp][editId := edit]
  {
    assert s1[g.id] == g;
    assert s2[g.id] == g.(children := [compId]);
    assert s3[g.id] == g.(children := [compId, editId]);
    assert s2 == s1[g.id := g.(children := [compId])][compId := comp];
    assert s3 == s1[g.id := g.(children := [compId])][compId := comp][g.id := g.(children := [compId, editId])][editId := edit];
  }

  /** A grouping is created under every Project and every Sequence the target reference resolves to. */
  lemma GroupingRegisteredSucceeds(before: Store, after: Store, r: Result<string>, shortName: string,
                                   targetRef: string, spec: Specification, gid: Id, compId: Id, editId: Id)
    requires ValidStore(before)
    requires GroupingRegistered(before, after, r, shortName, targetRef, spec, gid, compId, editId)
    requires gid != compId && gid != editId
    requires Lookup(before, targetRef).Success?
    requires var t := Lookup(before, targetRef).value; t.cls == ProjectClass || (t.cls == TaskClass && t.objectType == Some("Sequence"))
    ensures r.Success? && gid in after && r.value == EntityRef(after[gid])
    ensures after[gid].children == [compId, editId] && after[gid].name == Some(GroupingName(shortName, spec))
  {
    var target := Lookup(before, targetRef).value;
    var kind := GroupingKind(target).value;
    var g := GroupingEntity(gid, target, kind, GroupingName(shortName, spec));
    assert after[gid] == g.(children := [compId, editId]);
  }

  // ---------------------------------------------------------------------------
  // Files

  /** The store after `getTaskId` and the reference it answers. */
  function TaskIdStep(store: Store, hostId: string, obj: Entity, spec: Specification, context: Option<Context>, newId: Id)
    : (r: (Store, string))
    requires ValidStore(store) && InStore(store, obj)
    ensures var (taskType, taskName) := TaskTypeAndName(hostId, spec, context);
      match PickTask(store, obj, taskType)
      case UseSelf => r == (store, EntityRef(obj))
      case UseTask(t) => r == (store, EntityRef(t))
      case NewTask => r == (WithChild(store, obj.id, TaskEntity(newId, obj, taskName, taskType)),
                            EntityRef(TaskEntity(newId, obj, taskName, taskType)))
  {
    var (taskType, taskName) := TaskTypeAndName(hostId, spec, context);
    match PickTask(store, obj, taskType)
    case UseSelf => (store, EntityRef(obj))
    case UseTask(t) => (store, EntityRef(t))
    case NewTask =>
      var task := TaskEntity(newId, obj, taskName, taskType);
      (WithChild(store, obj.id, task), EntityRef(task))
  }

  /** `getTaskId`: the reference of the task to register under, creating the task when a Shot or Sequence lacks it. */
  method GetTaskId(server: Server, hostId: string, obj: Entity, spec: Specification, context: Option<Context>, newId: Id)
    returns (ref: string)
    requires server.Valid() && InStore(server.entities, obj) && newId !in server.entities
    modifies server
    ensures server.Valid()
    ensures var (taskType, taskName) := TaskTypeAndName(hostId, spec, context);
      match PickTask(old(server.entities), obj, taskType)
      case UseSelf => ref == EntityRef(obj) && server.entities == old(server.entities)
      case UseTask(t) => ref == EntityRef(t) && server.entities == old(server.entities)
      case NewTask =>
        && newId in server.entities && server.entities[newId] == TaskEntity(newId, obj, taskName, taskType)
        && ref == EntityRef(server.entities[newId])
        && obj.id in server.entities
        && server.entities == old(server.entities)[obj.id := obj.(children := obj.children + [newId])][newId := server.entities[newId]]
    ensures (server.entities, ref) == TaskIdStep(old(server.entities), hostId, obj, spec, context, newId)
  {
    var (taskType, taskName) := TaskTypeAndName(hostId, spec, context);
    var pick := PickTask(server.entities, obj, taskType);
    match pick
    case UseSelf => ref := EntityRef(obj);
    case UseTask(t) => ref := EntityRef(t);
    case NewTask =>
      var task := CreateTask(server, obj.id, newId, taskName, taskType);
      ref := EntityRef(task);
  }

  /** Where the new version goes: an existing asset, or a new one under the given parent. */
  datatype AssetChoice = Reuse(asset: Entity) | CreateUnder(parent: Entity)

  /** The asset choice, the version's task id and the component's name. */
  datatype PublishPlan = PublishPlan(asset: AssetChoice, taskId: Option<string>, component: string)

  /** The asset name: the `assetName` of the target reference, else the name hint, else the default. */
  function AssetName(spec: Specification, targetRef: string, defaultName: string): (r: string)
    ensures TargetAssetNameFromRef(targetRef).Some? ==> r == TargetAssetNameFromRef(targetRef).value
    ensures TargetAssetNameFromRef(targetRef).None? ==> r == GroupingName(defaultName, spec)
  {
    match TargetAssetNameFromRef(targetRef)
    case Some(n) => n
    case None => GetField(spec, HintNameField, Some(defaultName)).value
  }

  /** `get('taskid')` of the last version of an asset; IndexError when it has none. */
  function LastTaskId(store: Store, asset: Entity): (r: Result<Option<string>>)
    requires ValidStore(store) && InStore(store, asset)
    ensures r.Failure? <==> Versions(store, asset) == []
    ensures r.Success? ==> var last := Versions(store, asset)[|Versions(store, asset)| - 1];
      r.value == (if "taskid" in last.fields then Some(last.fields["taskid"]) else None)
  {
    var vs := Versions(store, asset);
    if vs == [] then Failure(RuntimeFault("list index out of range"))
    else
      var last := vs[|vs| - 1];
      Success(if "taskid" in last.fields then Some(last.fields["taskid"]) else None)
  }

  /**
   * The decisions of `_registerGenericFile` once the target is resolved: a
   * 'Task' Task publishes into the first asset of that type and name under
   * its parent (or a new one there), unless the parent is a project; an
   * Asset takes the new version itself; a Component sends it to its asset
   * under the component's name; anything else raises.
   */
  function PlanPublish(store: Store, obj: Entity, assetType: string, name: string, component: string)
    : (r: Result<PublishPlan>)
    requires ValidStore(store) && InStore(store, obj)
    ensures r.Success? && r.value.asset.Reuse? ==> InStore(store, r.value.asset.asset)
    ensures r.Success? && r.value.asset.CreateUnder? ==> InStore(store, r.value.asset.parent)
    ensures obj.cls != TaskClass && obj.cls != AssetClass && obj.cls != ComponentClass ==>
      r == Failure(RegistrationError(NoSuitableAssetMsg + obj.id))
    ensures obj.cls == TaskClass && obj.objectType != Some("Task") ==>
      r == Failure(RegistrationError(NoSuitableAssetMsg + obj.id))
    ensures obj.cls == TaskClass && obj.objectType == Some("Task") ==>
      var p := Parent(store, obj);
      && (p.None? ==> r.Failure? && r.error.RuntimeFault?)
      && (p.Some? && RefType(p.value.cls) == "show" ==> r == Failure(RegistrationError(TaskBelowProjectMsg)))
      && (p.Some? && RefType(p.value.cls) != "show" ==>
            && r.Success? && r.value.taskId == Some(obj.id) && r.value.component == component
            && match FindNamed(AssetsOfType(Children(store, p.value), assetType), name)
               case Some(a) => r.value.asset == Reuse(a)
               case None => r.value.asset == CreateUnder(p.value))
    ensures obj.cls == AssetClass ==> match LastTaskId(store, obj)
      case Failure(e) => r == Failure(e)
      case Success(t) => r == Success(PublishPlan(Reuse(obj), t, component))
    ensures obj.cls == ComponentClass ==>
      match Parent(store, obj)
      case None => r.Failure? && r.error.RuntimeFault?
      case Some(v) =>
        match Parent(store, v)
        case None => r.Failure? && r.error.RuntimeFault?
        case Some(a) =>
          match LastTaskId(store, a)
          case Failure(e) => r == Failure(e)
          case Success(t) => r == Success(PublishPlan(Reuse(a), t, ObjectName(Some(obj))))
  {
    if obj.cls == TaskClass then
      if obj.objectType == Some("Task") then
        match Parent(store, obj)
        case None => Failure(RuntimeFault("'NoneType' object has no attribute 'get'"))
        case Some(p) =>
          if RefType(p.cls) == "show" then Failure(RegistrationError(TaskBelowProjectMsg))
          else
            var existing := FindNamed(AssetsOfType(Children(store, p), assetType), name);
            match existing
            case Some(a) =>
              assert a in Children(store, p);
              Success(PublishPlan(Reuse(a), Some(obj.id), component))
            case None => Success(PublishPlan(CreateUnder(p), Some(obj.id), component))
      else Failure(RegistrationError(NoSuitableAssetMsg + obj.id))
    else if obj.cls == AssetClass then
      var t :- LastTaskId(store, obj);
      Success(PublishPlan(Reuse(obj), t, component))
    else if obj.cls == ComponentClass then
      match Parent(store, obj)
      case None => Failure(RuntimeFault("'NoneType' object has no attribute 'getAsset'"))
      case Some(v) =>
        match Parent(store, v)
        case None => Failure(RuntimeFault("'NoneType' object has no attribute 'getVersions'"))
        case Some(a) =>
          var t :- LastTaskId(store, a);
          Success(PublishPlan(Reuse(a), t, ObjectName(Some(obj))))
    else Failure(RegistrationError(NoSuitableAssetMsg + obj.id))
  }

  /**
   * Publishing into a 'Task' Task never duplicates an asset: when its parent
   * already holds an asset of that type and name, the plan reuses one of
   * them.
   */
  lemma PlanReusesNamedAsset(store: Store, task: Entity, assetType: string, name: string, component: string, a: Entity)
    requires ValidStore(store) && InStore(store, task)
    requires task.cls == TaskClass && task.objectType == Some("Task")
    requires Parent(store, task).Some? && RefType(Parent(store, task).value.cls) != "show"
    requires a in AssetsOfType(Children(store, Parent(store, task).value), assetType) && a.name == Some(name)
    ensures var r := PlanPublish(store, task, assetType, name, component);
      && r.Success? && r.value.asset.Reuse?
      && r.value.asset.asset.name == Some(name) && r.value.asset.asset.assetType == assetType
  {
    var es := AssetsOfType(Children(store, Parent(store, task).value), assetType);
    var i :| 0 <= i < |es| && es[i] == a;
    assert es[i].name == Some(name);
  }

  /** `asset.createVersion(comment='', taskid=taskId)` then `version.createComponent(file=path, name=component)`. */
  method CreateVersionAndComponent(server: Server, assetId: Id, taskId: Option<string>, versionId: Id,
                                   componentId: Id, component: string, path: string, assetType: string)
    returns (comp: Entity)
    requires server.Valid() && assetId in server.entities
    requires versionId !in server.entities && componentId !in server.entities && versionId != componentId
    modifies server
    ensures server.Valid()
    ensures versionId in server.entities && componentId in server.entities && assetId in server.entities
    ensures server.entities[componentId] == comp
    ensures var v := server.entities[versionId];
      && v.id == versionId && v.cls == AssetVersionClass && v.parent == Some(assetId) && v.children == [componentId]
      && v.fields == TaskIdFields(taskId)
    ensures comp.cls == ComponentClass && comp.parent == Some(versionId) && comp.path == path
    ensures comp.name == Some(component)
    ensures comp == ComponentEntity(componentId, server.entities[versionId], component, path).(meta := ComponentMeta(assetType))
    ensures server.entities == WithChild(WithChild(old(server.entities), assetId, server.entities[versionId].(children := [])),
      versionId, comp)
  {
    var asset := server.entities[assetId];
    assert WellPlaced(server.entities, assetId);
    var number := |Versions(server.entities, asset)| + 1;
    var version := VersionEntity(versionId, asset, number, taskId);
    server.CreateChild(assetId, version);
    comp := ComponentEntity(componentId, version, component, path);
    server.CreateChild(versionId, comp);
    if assetType == "img" {
      comp := comp.(meta := map["img_main" := "True"]);
      server.Update(comp);
    }
  }

  /** A component's meta after `_registerGenericFile`: `img_main` is set for an 'img' asset only. */
  function ComponentMeta(assetType: string): (r: map<string, string>)
    ensures "img_main" in r <==> assetType == "img"
  {
    if assetType == "img" then map["img_main" := "True"] else map[]
  }

  /** The asset a plan publishes into: the one it reuses, or the one it creates. */
  function PlanAssetId(plan: PublishPlan, assetId: Id): Id
  {
    if plan.asset.Reuse? then plan.asset.asset.id else assetId
  }

  /** The store once the plan's asset exists: unchanged when it is reused, with the new asset when it is created. */
  function WithPlanAsset(store: Store, plan: PublishPlan, name: string, assetType: string, assetId: Id): (r: Store)
    requires plan.asset.Reuse? ==> plan.asset.asset.id in store
    requires plan.asset.CreateUnder? ==> plan.asset.parent.id in store
    ensures PlanAssetId(plan, assetId) in r
  {
    match plan.asset
    case Reuse(_) => store
    case CreateUnder(p) => WithChild(store, p.id, AssetEntity(assetId, p, name, assetType))
  }

  /**
   * What carrying out a plan leaves behind: the asset when the plan creates
   * one, then a version under the plan's asset with the plan's task id, then
   * one component under it with the plan's name and the path; nothing else
   * changes. The version's number is the server's choice.
   */
  ghost predicate Executed(before: Store, after: Store, plan: PublishPlan, name: string, assetType: string, path: string,
                           assetId: Id, versionId: Id, componentId: Id)
    requires plan.asset.Reuse? ==> plan.asset.asset.id in before
    requires plan.asset.CreateUnder? ==> plan.asset.parent.id in before
  {
    var aid := PlanAssetId(plan, assetId);
    && versionId in after && componentId in after
    && var v := after[versionId];
    && v.id == versionId && v.cls == AssetVersionClass && v.parent == Some(aid) && v.fields == TaskIdFields(plan.taskId)
    && v.children == [componentId]
    && after[componentId] == ComponentEntity(componentId, v, plan.component, path).(meta := ComponentMeta(assetType))
    && after == WithChild(WithChild(WithPlanAsset(before, plan, name, assetType, assetId), aid, v.(children := [])),
                          versionId, after[componentId])
  }

  /**
   * What `_registerGenericFile` leaves behind once the task reference is
   * known: a reference that does not resolve, or a failed plan, raises and
   * changes nothing; otherwise the plan is carried out and the new
   * component's reference is returned.
   */
  ghost predicate Published(before: Store, after: Store, r: Result<string>, ref: string, path: string, assetType: string,
                            component: string, name: string, assetId: Id, versionId: Id, componentId: Id)
  {
    && ValidStore(before)
    && match Lookup(before, ref)
       case Failure(e) => r == Failure(e) && after == before
       case Success(obj) =>
         match PlanPublish(before, obj, assetType, name, component)
         case Failure(e) => r == Failure(e) && after == before
         case Success(plan) =>
           && Executed(before, after, plan, name, assetType, path, assetId, versionId, componentId)
           && r == Success(EntityRef(after[componentId]))
  }

  /**
   * What `_registerGenericFile` leaves behind: an unresolvable target raises
   * and changes nothing; otherwise `getTaskId` picks or creates the task, and
   * the file is published under it with the asset name of the reference, the
   * hint or the default.
   */
  ghost predicate FileRegistered(before: Store, after: Store, r: Result<string>, path: string, targetRef: string,
                                 spec: Specification, context: Option<Context>, hostId: string, assetType: string,
                                 component: string, defaultName: string, taskId: Id, assetId: Id, versionId: Id, componentId: Id)
    requires ValidStore(before)
  {
    match Lookup(before, targetRef)
    case Failure(e) => r == Failure(e) && after == before
    case Success(target) =>
      var (store, ref) := TaskIdStep(before, hostId, target, spec, context, taskId);
      Published(store, after, r, ref, path, assetType, component, AssetName(spec, targetRef, defaultName),
        assetId, versionId, componentId)
  }

  /** `_registerGenericFile`; answers the new component's reference. */
  method RegisterGenericFile(server: Server, path: string, targetRef: string, spec: Specification,
                             context: Option<Context>, hostId: string, assetType: string, component: string,
                             defaultName: string, taskId: Id, assetId: Id, versionId: Id, componentId: Id)
    returns (r: Result<string>)
    requires server.Valid()
    requires taskId !in server.entities && assetId !in server.entities
    requires versionId !in server.entities && componentId !in server.entities
    requires taskId != assetId && taskId != versionId && taskId != componentId
    requires assetId != versionId && assetId != componentId && versionId != componentId
    modifies server
    ensures server.Valid()
    ensures FileRegistered(old(server.entities), server.entities, r, path, targetRef, spec, context, hostId,
      assetType, component, defaultName, taskId, assetId, versionId, componentId)
  {
    var name := AssetName(spec, targetRef, defaultName);
    var found := Lookup(server.entities, targetRef);
    if found.Failure? {
      return Failure(found.error);
    }
    var ref := GetTaskId(server, hostId, found.value, spec, context, taskId);
    r := PublishUnder(server, ref, path, assetType, component, name, assetId, versionId, componentId);
  }

  /** The rest of `_registerGenericFile` once the task reference is known: resolve it, plan, create. */
  method PublishUnder(server: Server, ref: string, path: string, assetType: string, component: string, name: string,
                      assetId: Id, versionId: Id, componentId: Id)
    returns (r: Result<string>)
    requires server.Valid()
    requires assetId !in server.entities && versionId !in server.entities && componentId !in server.entities
    requires assetId != versionId && assetId != componentId && versionId != componentId
    modifies server
    ensures server.Valid()
    ensures Published(old(server.entities), server.entities, r, ref, path, assetType, component, name,
      assetId, versionId, componentId)
  {
    var again := Lookup(server.entities, ref);
    if again.Failure? {
      return Failure(again.error);
    }
    var plan := PlanPublish(server.entities, again.value, assetType, name, component);
    if plan.Failure? {
      return Failure(plan.error);
    }
    var comp := ExecutePlan(server, plan.value, name, assetType, path, assetId, versionId, componentId);
    r := Success(EntityRef(comp));
  }

  /** The creations of `_registerGenericFile` once the plan is made: the asset if needed, the version, the component. */
  method ExecutePlan(server: Server, plan: PublishPlan, name: string, assetType: string, path: string,
                     assetId: Id, versionId: Id, componentId: Id) returns (comp: Entity)
    requires server.Valid()
    requires plan.asset.Reuse? ==> InStore(server.entities, plan.asset.asset)
    requires plan.asset.CreateUnder? ==> InStore(server.entities, plan.asset.parent)
    requires assetId !in server.entities && versionId !in server.entities && componentId !in server.entities
    requires assetId != versionId && assetId != componentId && versionId != componentId
    modifies server
    ensures server.Valid()
    ensures Executed(old(server.entities), server.entities, plan, name, assetType, path, assetId, versionId, componentId)
    ensures componentId in server.entities && comp == server.entities[componentId]
  {
    var target: Id;
    match plan.asset {
      case Reuse(a) =>
        target := a.id;
      case CreateUnder(p) =>
        server.CreateChild(p.id, AssetEntity(assetId, p, name, assetType));
        target := assetId;
    }
    assert server.entities == WithPlanAsset(old(server.entities), plan, name, assetType, assetId);
    comp := CreateVersionAndComponent(server, target, plan.taskId, versionId, componentId,
      plan.component, path, assetType);
  }

  /**
   * A successful registration creates exactly the version and the component,
   * plus the asset when none is reused, and the reference it answers
   * resolves to the new component, which holds the path.
   */
  lemma PublishedComponentResolves(before: Store, after: Store, r: Result<string>, ref: string, path: string,
                                   assetType: string, component: string, name: string,
                                   assetId: Id, versionId: Id, componentId: Id)
    requires Published(before, after, r, ref, path, assetType, component, name, assetId, versionId, componentId)
    requires ValidStore(after) && NoDelimiters(componentId) && r.Success?
    ensures componentId in after && Lookup(after, r.value) == Success(after[componentId])
    ensures after[componentId].cls == ComponentClass && after[componentId].path == path
    ensures ("img_main" in after[componentId].meta) <==> assetType == "img"
    ensures after.Keys <= before.Keys + {assetId, versionId, componentId}
  {
    var obj := Lookup(before, ref).value;
    var plan := PlanPublish(before, obj, assetType, name, component).value;
    ExecutedKeys(before, after, plan, name, assetType, path, assetId, versionId, componentId);
    LookupEntityRef(after, after[componentId]);
  }

  /** Carrying out a plan adds the version and the component, and the asset at most. */
  lemma ExecutedKeys(before: Store, after: Store, plan: PublishPlan, name: string, assetType: string, path: string,
                     assetId: Id, versionId: Id, componentId: Id)
    requires plan.asset.Reuse? ==> plan.asset.asset.id in before
    requires plan.asset.CreateUnder? ==> plan.asset.parent.id in before
    requires Executed(before, after, plan, name, assetType, path, assetId, versionId, componentId)
    ensures after.Keys == before.Keys + {versionId, componentId} + (if plan.asset.Reuse? then {} else {assetId})
  {
    var s0 := WithPlanAsset(before, plan, name, assetType, assetId);
    assert s0.Keys == before.Keys + (if plan.asset.Reuse? then {} else {assetId});
  }

  /** `registerNukeScript`: a 'comp' asset, component 'nukescript', default name 'nukeScript'. */
  method RegisterNukeScript(server: Server, path: string, targetRef: string, spec: Specification,
                            context: Option<Context>, hostId: string, taskId: Id, assetId: Id, versionId: Id, componentId: Id)
    returns (r: Result<string>)
    requires server.Valid()
    requires taskId !in server.entities && assetId !in server.entities
    requires versionId !in server.entities && componentId !in server.entities
    requires taskId != assetId && taskId != versionId && taskId != componentId
    requires assetId != versionId && assetId != componentId && versionId != componentId
    modifies server
    ensures server.Valid()
    ensures FileRegistered(old(server.entities), server.entities, r, path, targetRef, spec, context, hostId,
      "comp", "nukescript", "nukeScript", taskId, assetId, versionId, componentId)
  {
    r := RegisterGenericFile(server, path, targetRef, spec, context, hostId, "comp", "nukescript", "nukeScript",
      taskId, assetId, versionId, componentId);
  }

  /** `registerImageFile`: an 'img' asset, component 'main', default name 'imageAsset'; the component is `img_main`. */
  method RegisterImageFile(server: Server, path: string, targetRef: string, spec: Specification,
                           context: Option<Context>, hostId: string, taskId: Id, assetId: Id, versionId: Id, componentId: Id)
    returns (r: Result<string>)
    requires server.Valid()
    requires taskId !in server.entities && assetId !in server.entities
    requires versionId !in server.entities && componentId !in server.entities
    requires taskId != assetId && taskId != versionId && taskId != componentId
    requires assetId != versionId && assetId != componentId && versionId != componentId
    modifies server
    ensures server.Valid()
    ensures FileRegistered(old(server.entities), server.entities, r, path, targetRef, spec, context, hostId,
      "img", "main", "imageAsset", taskId, assetId, versionId, componentId)
  {
    r := RegisterGenericFile(server, path, targetRef, spec, context, hostId, "img", "main", "imageAsset",
      taskId, assetId, versionId, componentId);
  }

  /** `registerHieroProject`: an 'edit' asset, component 'hieroproject', default name 'hieroProject'. */
  method RegisterHieroProject(server: Server, path: string, targetRef: string, spec: Specification,
                              context: Option<Context>, hostId: string, taskId: Id, assetId: Id, versionId: Id, componentId: Id)
    returns (r: Result<string>)
    requires server.Valid()
    requires taskId !in server.entities && assetId !in server.entities
    requires versionId !in server.entities && componentId !in server.entities
    requires taskId != assetId && taskId != versionId && taskId != componentId
    requires assetId != versionId && assetId != componentId && versionId != componentId
    modifies server
    ensures server.Valid()
    ensures FileRegistered(old(server.entities), server.entities, r, path, targetRef, spec, context, hostId,
      "edit", "hieroproject", "hieroProject", taskId, assetId, versionId, componentId)
  {
    r := RegisterGenericFile(server, path, targetRef, spec, context, hostId, "edit", "hieroproject", "hieroProject",
      taskId, assetId, versionId, componentId);
  }

  /**
   * `registerGenericFile`: the specification's type is the asset type and
   * 'asset' (passed in the component position) the component name; the
   * default name stays 'file'.
   */
  method RegisterFile(server: Server, path: string, targetRef: string, spec: Specification,
                      context: Option<Context>, hostId: string, taskId: Id, assetId: Id, versionId: Id, componentId: Id)
    returns (r: Result<string>)
    requires server.Valid()
    requires taskId !in server.entities && assetId !in server.entities
    requires versionId !in server.entities && componentId !in server.entities
    requires taskId != assetId && taskId != versionId && taskId != componentId
    requires assetId != versionId && assetId != componentId && versionId != componentId
    modifies server
    ensures server.Valid()
    ensures FileRegistered(old(server.entities), server.entities, r, path, targetRef, spec, context, hostId,
      spec.typ, "asset", "file", taskId, assetId, versionId, componentId)
  {
    r := RegisterGenericFile(server, path, targetRef, spec, context, hostId, spec.typ, "asset", "file",
      taskId, assetId, versionId, componentId);
  }
}
