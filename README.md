# ftrack legacy asset-manager plugins in Dafny

This project models the deterministic rules inside the ftrack Connect legacy
plugins for Hiero and Nuke. The plugins connect the FnAssetAPI asset-management
interface to an ftrack server and export a Hiero timeline as a Nuke script.
The model is written in Dafny and proved with it. It covers:

- **Entity references and caching** (`utils.dfy`). `MiniCache` is a keyed memo
  table. The `ftrack://` reference test looks at the network location of the
  URL, which is the authority of section 3.2 of RFC 3986. `objectById`
  dispatches on the entity type and caches its result. The module also holds
  object naming, the walks over parents (`shotFromObj`, `getPath`) and the
  write-bit mask of `lockFile`.
- **The manager interface** (`interface.dfy`). It rewrites `####` frame
  patterns as `%0Nd` tokens, resolves references, lists, trims and chooses
  versions, maps metadata keys in both directions, and dispatches batch
  related-entity queries and registrations.
- **Related-entity queries** (`getrelated.dfy`): the batch entry points, the
  shot, workflow and parent-grouping relations, and the image references of
  tasks.
- **Publishing** (`publish.dfy`). It chooses the task type and name, creates
  groupings with their tasks, and registers files. A file goes to a new
  version with one component, under an asset that is reused or created.
- **Timeline export arithmetic** (`nukehelpers.dfy`): clip read ranges,
  track-item handles and output ranges, gap filling and dissolves, and the
  split into connected and disconnected tracks.
- **The browser and its panel** (`browser.dfy`, `ftrackbrowser.dfy`): the
  selection-validity table, the where-to-create climb, component filtering,
  the version rows, the filter configuration for a specification and access
  mode, selection capture and the asset-name suffix.
- **The Nuke shot preset** (`shotpreset.dfy`): its defaults and loaded
  overrides, the path lists that follow a renamed export element, and the
  `{ext}` resolver entry.
- **The event handlers** (`events.dfy`): the ftrack knobs on a Nuke read node,
  the renamed write node with its publish group, and collecting references
  back from `componentId` knobs.
- **The Connect hook** (`hook.dfy`): the discover list, the launch context and
  the guard of `register`.

The ftrack server is an abstract entity store (`ftrack.dfy`): a map from
identifiers to entity records with a parent link. FnAssetAPI specifications
and contexts are values (`assetapi.dfy`). Python exceptions become the
`Failure` case of a `Result` (`wrappers.dfy`). `text.dfy` and `seqs.dfy` hold
string and sequence helpers.

Python's integers are unbounded, so `int` needs no wrap-around. Where ftrack
itself decides something the plugins cannot see, the decision is a parameter.
One example is whether a component equals a filter name. Another is the
identifiers the server gives new entities.

## Model

| member | source | states |
|---|---|---|
| Events.EventManager.RegisterListener | resource/legacy_plugins/ftrackProvider/ftrackFoundryManager/events.py:12-14 | registering a listener appends exactly that (event name, handler) pair to the manager's listeners |
| Events.Registrations | resource/legacy_plugins/ftrackProvider/ftrackFoundryManager/events.py:12-14 | the three registrations have pairwise distinct event names and pairwise distinct handlers |
| Events.RegisterEventHandlers | resource/legacy_plugins/ftrackProvider/ftrackFoundryManager/events.py:4-14 | the manager's listeners grow by exactly the three fixed registrations, in order, and nothing else changes |
| Events.ClipRef | resource/legacy_plugins/ftrackProvider/ftrackFoundryManager/events.py:19-26 | the chosen reference is always an entity reference; `fileOrRef` wins when it is one, else the clip's own reference if that is one, else none |
| Events.DescriptionKnobs | resource/legacy_plugins/ftrackProvider/ftrackFoundryManager/events.py:33-39 | the knobs form a description (ftrack tab first, then the six text knobs) whose componentId and assetVersionId values are the component's and the version's references |
| Events.ClipKnobs | resource/legacy_plugins/ftrackProvider/ftrackFoundryManager/events.py:28-39 | no reference gives no knobs; an unresolvable reference raises its lookup error; a non-component raises for `getVersion`, a component without a version for `getAsset`, a version without an asset for `getName`; a component with a version and an asset gives exactly the description of the three |
| Events.PartialDescription | resource/legacy_plugins/ftrackProvider/ftrackFoundryManager/events.py:33-37 | the knobs written before the asset is first used are the first five of the description of the component and its version, whatever the asset |
| Events.FaultKnobs | resource/legacy_plugins/ftrackProvider/ftrackFoundryManager/events.py:28-39 | knobs remain only after the `getName` fault of a version without an asset, and they are then the partial description of the component and that version; a successful run leaves none over |
| Events.HieroToNukeAddClip | resource/legacy_plugins/ftrackProvider/ftrackFoundryManager/events.py:17-39 | the read node gains exactly the knobs of the chosen reference (none without one); when it raises, it keeps the tab and four text knobs already added if the version has no asset, and nothing otherwise; its name, inputs and contents are unchanged |
| Events.AddReferenceKnobs | resource/legacy_plugins/ftrackProvider/ftrackFoundryManager/events.py:28-39 | on success the read node's knobs grow by exactly the description; on a failure they grow by the five knobs added before `asset.getName()` raised, or by nothing for the earlier faults |
| Events.AddVersionKnobs | resource/legacy_plugins/ftrackProvider/ftrackFoundryManager/events.py:33-37 | the tab and the component and version knobs are appended in order and nothing else about the node changes |
| Events.AddAssetKnobs | resource/legacy_plugins/ftrackProvider/ftrackFoundryManager/events.py:38-39 | the asset name and type knobs are appended in order and nothing else about the node changes |
| Events.HieroToNukeAddWrite | resource/legacy_plugins/ftrackProvider/ftrackFoundryManager/events.py:43-65 | the write node gets the ftrack tab and the name 'main'; a new publish group with fpubinit "False" holds an Input feeding an Output, takes the write node as input, and is appended to the script when there is one |
| Events.KnobRefsContents | resource/legacy_plugins/ftrackProvider/ftrackFoundryManager/events.py:73-78 | a value is collected from a node's knobs exactly when some knob named componentId holds it and it is an entity reference |
| Events.RefsFromNukeNodes | resource/legacy_plugins/ftrackProvider/ftrackFoundryManager/events.py:69-78 | the reference set grows by exactly the componentId references of all nodes; nothing is removed |
| Events.AddKnobRefs | resource/legacy_plugins/ftrackProvider/ftrackFoundryManager/events.py:73-78 | the inner loop adds exactly the componentId references of one node's knobs |
| Events.NoComponentIdRefs | resource/legacy_plugins/ftrackProvider/ftrackFoundryManager/events.py:74-75 | knobs none of which is named componentId contribute no reference |
| Events.DescriptionNames | resource/legacy_plugins/ftrackProvider/ftrackFoundryManager/events.py:33-39 | in a description only the knob after the tab is named componentId |
| Events.DescriptionRefs | resource/legacy_plugins/ftrackProvider/ftrackFoundryManager/events.py:33-39 | the references read back from a description are exactly its componentId value, when that is a reference |
| Events.AddClipRefsRoundTrip | resource/legacy_plugins/ftrackProvider/ftrackFoundryManager/events.py:34 | the knobs added for a component's own reference yield, when read back by refsFromNukeNodes, exactly that reference |
| Hook.LabelLeTotal | resource/hook/ftrack_connect_legacy_plugins_hook.py:67-69 | any two labels are comparable under the sort key's string order |
| Hook.LabelLeTransitive | resource/hook/ftrack_connect_legacy_plugins_hook.py:67-69 | the label order used by the sort is transitive |
| Hook.InsertByLabel | resource/hook/ftrack_connect_legacy_plugins_hook.py:67-69 | inserting one application keeps every application and adds exactly the new one |
| Hook.InsertByLabelSorted | resource/hook/ftrack_connect_legacy_plugins_hook.py:67-69 | inserting into a list sorted by label keeps it sorted |
| Hook.SortByLabelCorrect | resource/hook/ftrack_connect_legacy_plugins_hook.py:67-69 | `sorted(applications, key=label)` orders by label and is a permutation of its input (`SortByLabel`) |
| Hook.Items | resource/hook/ftrack_connect_legacy_plugins_hook.py:71-81 | one item per application, in the same order, each built from its application (identifier, label, variant, description, icon defaulting to 'default') |
| Hook.ItemsInsert | resource/hook/ftrack_connect_legacy_plugins_hook.py:71-81 | the items of an insertion are the items of the list plus the new application's item |
| Hook.ItemsSorted | resource/hook/ftrack_connect_legacy_plugins_hook.py:67-81 | sorting first yields the same multiset of items as the unsorted applications |
| Hook.DiscoverItems | resource/hook/ftrack_connect_legacy_plugins_hook.py:62-85 | the discovered items are a permutation of the applications' items, in label order, all for the launch action |
| Hook.Discover | resource/hook/ftrack_connect_legacy_plugins_hook.py:62-85 | the loop returns the items of the sorted applications: a permutation of the applications' items, sorted by label, each carrying the action identifier |
| Hook.ItemsPointwise | resource/hook/ftrack_connect_legacy_plugins_hook.py:71-81 | a list built item by item from the applications equals their items |
| Hook.LaunchContext | resource/hook/ftrack_connect_legacy_plugins_hook.py:101-106 | the context has the data's keys plus 'source', holds the event source under 'source' and every other data value unchanged |
| Hook.Launch | resource/hook/ftrack_connect_legacy_plugins_hook.py:87-110 | the event is stopped and its data untouched; the launch is requested with the data's applicationIdentifier and the context exactly when that key exists, else a KeyError |
| Hook.Register | resource/hook/ftrack_connect_legacy_plugins_hook.py:297-331 | the launch action is set up and subscribed exactly for an ftrack.Registry, under the action's identifier; any other registry is ignored |
| Utils.CacheGet | resource/legacy_plugins/ftrackProvider/ftrackFoundryManager/utils.py:18-27 | a lookup never loses or changes a stored entry and adds at most the requested key |
| Utils.CacheGetPresent | resource/legacy_plugins/ftrackProvider/ftrackFoundryManager/utils.py:20-21 | a present key answers with its stored value and leaves the table alone, whatever the default |
| Utils.CacheGetAfterSet | resource/legacy_plugins/ftrackProvider/ftrackFoundryManager/utils.py:29-30 | after `set(k, v)`, `get(k)` answers `v` |
| Utils.CacheGetStores | resource/legacy_plugins/ftrackProvider/ftrackFoundryManager/utils.py:22-25 | a missing key whose default (called when callable) is not None answers that value and stores it, so a later `get` answers the same |
| Utils.CacheGetMissingNone | resource/legacy_plugins/ftrackProvider/ftrackFoundryManager/utils.py:24-27 | a missing key whose default resolves to None answers None and stores nothing |
| Utils.MiniCache.Clear | resource/legacy_plugins/ftrackProvider/ftrackFoundryManager/utils.py:15-16 | the cache is emptied |
| Utils.MiniCache.Get | resource/legacy_plugins/ftrackProvider/ftrackFoundryManager/utils.py:18-27 | the answer and the new table are those of the cache semantics; the default is called exactly when the key is missing and the default is callable |
| Utils.MiniCache.Set | resource/legacy_plugins/ftrackProvider/ftrackFoundryManager/utils.py:29-30 | the table maps the key to the value and is otherwise unchanged |
| Utils.FirstOf | resource/legacy_plugins/ftrackProvider/ftrackFoundryManager/utils.py:65-69 | the first index holding a character of the set: everything before it lies outside the set |
| Utils.FirstOfAppend | resource/legacy_plugins/ftrackProvider/ftrackFoundryManager/utils.py:65-69 | a prefix free of the characters shifts the first index by its length |
| Utils.NetlocSplit | resource/legacy_plugins/ftrackProvider/ftrackFoundryManager/utils.py:65-69 | the network location split off a URL never holds a path, query or fragment delimiter |
| Utils.SplitOnce | resource/legacy_plugins/ftrackProvider/ftrackFoundryManager/utils.py:65-69 | the part before the split point never holds the separator |
| Utils.UrlSplit | resource/legacy_plugins/ftrackProvider/ftrackFoundryManager/utils.py:65-69 | the five parts `urlsplit` computes before it validates the network location; the network location never holds a path, query or fragment delimiter |
| Utils.UrlSplitChecked | resource/legacy_plugins/ftrackProvider/ftrackFoundryManager/utils.py:65-69 | `urlsplit` raises ValueError exactly when the network location holds one of '[' and ']' without the other, and otherwise gives the five parts |
| Utils.Unplus | resource/legacy_plugins/ftrackProvider/ftrackFoundryManager/utils.py:111 | `parse_qs` reads every '+' as a space and keeps the length |
| Utils.HexValue | resource/legacy_plugins/ftrackProvider/ftrackFoundryManager/utils.py:111 | a hexadecimal digit of either case has a value below 16, and only those characters have one |
| Utils.Unquote | resource/legacy_plugins/ftrackProvider/ftrackFoundryManager/utils.py:111 | `unquote` never lengthens its input and leaves non-empty text non-empty |
| Utils.UnquotePlain | resource/legacy_plugins/ftrackProvider/ftrackFoundryManager/utils.py:111 | text without '%' unquotes to itself |
| Utils.UnquoteQuote | resource/legacy_plugins/ftrackProvider/ftrackFoundryManager/utils.py:111 | unquoting undoes the percent-encoding of any text of single-byte characters |
| Utils.QueryDecode | resource/legacy_plugins/ftrackProvider/ftrackFoundryManager/utils.py:111 | a query name or value is decoded with '+' as a space and then `%XX` unquoted; it never grows, and non-empty text stays non-empty |
| Utils.QueryDecodePlain | resource/legacy_plugins/ftrackProvider/ftrackFoundryManager/utils.py:111 | text without '+' or '%' decodes to itself |
| Utils.FirstValue | resource/legacy_plugins/ftrackProvider/ftrackFoundryManager/utils.py:111-112 | the first field whose decoded name is the key and whose value is not blank gives its decoded value, which is never blank, since `parse_qs` drops blank values |
| Utils.QueryParam | resource/legacy_plugins/ftrackProvider/ftrackFoundryManager/utils.py:111-112 | `parse_qs(query).get(key)[0]`: fields split on '&' and ';', names and values decoded; never blank when present |
| Utils.TargetAssetNameFromRef | resource/legacy_plugins/ftrackProvider/ftrackFoundryManager/utils.py:172-179 | the asset name read from a target reference is the first non-blank decoded `assetName` of its query, or None without one |
| Utils.SchemeOfFtrack | resource/legacy_plugins/ftrackProvider/ftrackFoundryManager/utils.py:65-69 | a URL starting with `ftrack:/` has scheme 'ftrack' |
| Utils.NetlocOfId | resource/legacy_plugins/ftrackProvider/ftrackFoundryManager/utils.py:65-69 | `//<id>` followed by a delimiter has the identifier as network location |
| Utils.SplitOnceAbsent | resource/legacy_plugins/ftrackProvider/ftrackFoundryManager/utils.py:65-69 | splitting on an absent separator keeps the whole string |
| Utils.SplitFtrackUrl | resource/legacy_plugins/ftrackProvider/ftrackFoundryManager/utils.py:110-114 | `urlparse` of `ftrack://<id>?<query>` gives back scheme 'ftrack', the identifier and the query |
| Utils.SplitFtrackUrlChecked | resource/legacy_plugins/ftrackProvider/ftrackFoundryManager/utils.py:110-114 | an ftrack reference whose identifier holds no bracket and no URL delimiter, and whose query holds no '#', passes `urlsplit`'s check with the same parts |
| Utils.EntityTypeParam | resource/legacy_plugins/ftrackProvider/ftrackFoundryManager/utils.py:111-112 | an `entityType` written into a query reads back unchanged |
| Utils.EntityRefIsReference | resource/legacy_plugins/ftrackProvider/ftrackFoundryManager/utils.py:65-69 | an entity's reference passes `isEntityReference` exactly when its identifier is 36 characters with four dashes (`IsEntityReference`) |
| Utils.EntityRefUrl | resource/legacy_plugins/ftrackProvider/ftrackFoundryManager/utils.py:109-114 | an entity's reference is the ftrack URL of its identifier with its entity type in the query |
| Utils.BareIdIsNotReference | resource/legacy_plugins/ftrackProvider/ftrackFoundryManager/utils.py:65-69 | a bare identifier with no scheme and no `//` is never an entity reference |
| Utils.VersionLabel | resource/legacy_plugins/ftrackProvider/ftrackFoundryManager/utils.py:79-80 | an unnamed version's name is 'v' followed by at least three digits that read back as its version number |
| Utils.ObjectType | resource/legacy_plugins/ftrackProvider/ftrackFoundryManager/utils.py:84-99 | the object type is `getObjectType()` where the entity has one; otherwise 'Asset', 'AssetVersion', 'Component' or 'Project' exactly for those classes, and '' for anything else or None |
| Utils.NatToStringShort | resource/legacy_plugins/ftrackProvider/ftrackFoundryManager/utils.py:80 | a version number below 1000 needs at most three digits, so zfill(3) pads it |
| Utils.Construct | resource/legacy_plugins/ftrackProvider/ftrackFoundryManager/utils.py:124-135 | `ftrack.<cls>(id)` gives the stored entity exactly when the identifier names one of that class |
| Utils.FirstConstructed | resource/legacy_plugins/ftrackProvider/ftrackFoundryManager/utils.py:140-158 | trying the classes in order finds the stored entity exactly when its class is among them |
| Utils.FinishCoherent | resource/legacy_plugins/ftrackProvider/ftrackFoundryManager/utils.py:165-168 | caching an object of the store under its own identifier keeps every cached entity equal to the store's |
| Utils.ObjectByIdCoherent | resource/legacy_plugins/ftrackProvider/ftrackFoundryManager/utils.py:103-170 | `objectById` keeps the cache coherent with the store and only answers with stored entities (`ObjectByIdSpec`) |
| Utils.ResolveEntityRef | resource/legacy_plugins/ftrackProvider/ftrackFoundryManager/utils.py:103-170 | resolving an entity's own reference gives that entity back, whatever the cache holds |
| Utils.ResolveLegacyAssettake | resource/legacy_plugins/ftrackProvider/ftrackFoundryManager/utils.py:120-125 | a component reference written with the legacy 'assettake' type resolves to the component |
| Utils.RefTypeRoundTrip | resource/legacy_plugins/ftrackProvider/ftrackFoundryManager/utils.py:124-135 | the entity type written for each class selects that same class in the type dispatch, and holds no '#' |
| Utils.RefTypeParam | resource/legacy_plugins/ftrackProvider/ftrackFoundryManager/utils.py:112 | every entity type a reference is written with reads back from its query |
| Utils.ResolveRefOfType | resource/legacy_plugins/ftrackProvider/ftrackFoundryManager/utils.py:109-135 | a reference whose entity type names the entity's class resolves to that entity |
| Utils.RefUrlDispatch | resource/legacy_plugins/ftrackProvider/ftrackFoundryManager/utils.py:109-118 | an `ftrack://` identifier is looked up by its network location and the `entityType` of its query |
| Utils.ResolveBareId | resource/legacy_plugins/ftrackProvider/ftrackFoundryManager/utils.py:139-158 | a bare identifier of a stored entity resolves to it, whatever its class |
| Utils.UnknownIdRaises | resource/legacy_plugins/ftrackProvider/ftrackFoundryManager/utils.py:165-167 | an unknown bare identifier raises InvalidEntityReference with the 'Unknown Entity ID' message when `throw` is set, and caches nothing |
| Utils.Lookup | resource/legacy_plugins/ftrackProvider/ftrackFoundryManager/utils.py:103-170 | a successful lookup answers with an entity of the store |
| Utils.LookupAgreesWithCache | resource/legacy_plugins/ftrackProvider/ftrackFoundryManager/utils.py:116-118 | whatever a coherent cache holds, the lookup answers with the same entity as against an empty cache |
| Utils.LookupEntityRef | resource/legacy_plugins/ftrackProvider/ftrackFoundryManager/utils.py:103-170 | looking up an entity's reference gives the entity back |
| Utils.EntityResolver.FlushEntityCache | resource/legacy_plugins/ftrackProvider/ftrackFoundryManager/utils.py:36-38 | the module cache is replaced by a new, empty one |
| Utils.EntityResolver.ObjectById | resource/legacy_plugins/ftrackProvider/ftrackFoundryManager/utils.py:103-170 | the method's answer and new cache are those of the `objectById` specification |
| Utils.ShotOfIsShotAbove | resource/legacy_plugins/ftrackProvider/ftrackFoundryManager/utils.py:181-193 | the shot found is the object itself or one of its ancestors, and is a Shot (`ShotOf`) |
| Utils.ShotOfNone | resource/legacy_plugins/ftrackProvider/ftrackFoundryManager/utils.py:181-193 | with no Shot at or above the object, the result is None |
| Utils.ShotOfNearest | resource/legacy_plugins/ftrackProvider/ftrackFoundryManager/utils.py:181-193 | the Shot found is the nearest one: the first Shot among the object's ancestors, when nothing before it is a Shot or a Project |
| Utils.ShotOfStopsAtProject | resource/legacy_plugins/ftrackProvider/ftrackFoundryManager/utils.py:188-193 | the climb stops at the first Project: a Shot above it is never returned |
| Utils.ShotFromObj | resource/legacy_plugins/ftrackProvider/ftrackFoundryManager/utils.py:181-193 | the loop walking up the parents returns the shot of the specification |
| Utils.GetPathUnders | resource/legacy_plugins/ftrackProvider/ftrackFoundryManager/utils.py:196-219 | an underscore path splits back into the ancestors' names, root first, then the object's own, when no name holds an underscore (`GetPath`) |
| Utils.PartsOfReversed | resource/legacy_plugins/ftrackProvider/ftrackFoundryManager/utils.py:201-211 | the path parts are the ancestors' parts in reversed order followed by the object's part |
| Utils.GetPathShow | resource/legacy_plugins/ftrackProvider/ftrackFoundryManager/utils.py:198-199 | a show's path is its name, whatever the flags |
| Utils.LockMode | resource/legacy_plugins/ftrackProvider/ftrackFoundryManager/utils.py:222-240 | the new mode has the three write bits clear and every other bit as before |
| Utils.LockModeKeepsOtherBits | resource/legacy_plugins/ftrackProvider/ftrackFoundryManager/utils.py:230-238 | every bit outside the write bits keeps its old value |
| Utils.MiniCache.constructor | resource/legacy_plugins/ftrackProvider/ftrackFoundryManager/utils.py:12-13 | a new cache is empty |
| Utils.EntityResolver.constructor | resource/legacy_plugins/ftrackProvider/ftrackFoundryManager/utils.py:34 | the module starts with a fresh, empty entity cache |
| Text.SplitJoin | resource/legacy_plugins/ftrackProvider/ftrackFoundryManager/utils.py:213-214 | splitting a join on the same one-character separator gives the parts back when no part holds the separator |
| Text.ZFillNat | resource/legacy_plugins/ftrackProvider/ftrackFoundryManager/utils.py:80 | zero-padding the decimal form of a version number keeps its value readable |
| Text.ParseNatToString | resource/legacy_plugins/ftrackProvider/ftrackFoundryManager/utils.py:80 | `str(n)` of a natural number reads back as `n` |
| GetRelated.ShotRefs | resource/legacy_plugins/ftrackProvider/ftrackFoundryManager/FTrackGetRelated.py:77-111 | a Sequence without a name hint gives the references of its child contexts in order (`getChildren()`: its shots and other contexts, never its tasks or assets); with one, at most one reference, present exactly when a child context has that name, and then that of a child context so named; an asset, version or component gives its shot when unhinted or the name matches; any other object gives nothing |
| GetRelated.ShotRefsFirstHinted | resource/legacy_plugins/ftrackProvider/ftrackFoundryManager/FTrackGetRelated.py:89-92 | with a name hint, a Sequence gives the first of its child contexts carrying that name |
| GetRelated.ShotRefsSkipsTasksAndAssets | resource/legacy_plugins/ftrackProvider/ftrackFoundryManager/FTrackGetRelated.py:84-95 | a Sequence whose listing holds only tasks and assets has no related shots, hinted or not |
| GetRelated.ShotRefsAllContexts | resource/legacy_plugins/ftrackProvider/ftrackFoundryManager/FTrackGetRelated.py:94-95 | a Sequence whose listing holds only shots or other contexts gives all of them in order |
| Ftrack.ContextChildren | resource/legacy_plugins/ftrackProvider/ftrackFoundryManager/FTrackGetRelated.py:86 | `getChildren()` lists exactly the child contexts of an entity's listing (not its tasks proper or assets), all stored |
| GetRelated.CriteriaRoundTrip | resource/legacy_plugins/ftrackProvider/ftrackFoundryManager/FTrackGetRelated.py:123-125 | criteria written as '<version>,<task type reference>' split back into exactly those two fields |
| GetRelated.LatestApprovedIndex | resource/legacy_plugins/ftrackProvider/ftrackFoundryManager/FTrackGetRelated.py:149-152 | the index found is of an approved version with no approved version after it; none exactly when no version is approved |
| GetRelated.LatestApproved | resource/legacy_plugins/ftrackProvider/ftrackFoundryManager/FTrackGetRelated.py:148-152 | the newest approved version is one of the versions and approved; none exactly when no version is approved |
| GetRelated.TargetVersion | resource/legacy_plugins/ftrackProvider/ftrackFoundryManager/FTrackGetRelated.py:145-152 | 'latest' selects the last version and 'latestapproved' the newest approved one; any other keyword selects none; a selection is always one of the asset's versions |
| GetRelated.ImgMainRefs | resource/legacy_plugins/ftrackProvider/ftrackFoundryManager/FTrackGetRelated.py:154-159 | every img_main component contributes its reference and no other component does; a single component contributes itself exactly when it is img_main |
| GetRelated.ImgMainRefsAppend | resource/legacy_plugins/ftrackProvider/ftrackFoundryManager/FTrackGetRelated.py:154-159 | the references of a concatenation are those of each part in turn, so the components' order is kept |
| GetRelated.ImgAssets | resource/legacy_plugins/ftrackProvider/ftrackFoundryManager/FTrackGetRelated.py:142 | the assets of a task are stored 'img' assets |
| GetRelated.AllImgAssets | resource/legacy_plugins/ftrackProvider/ftrackFoundryManager/FTrackGetRelated.py:141-143 | the assets visited over all tasks are stored entities (used by `RefsOfTasks`) |
| GetRelated.RefsOfAssetsAppend | resource/legacy_plugins/ftrackProvider/ftrackFoundryManager/FTrackGetRelated.py:143-159 | the references of two lists of assets are those of the first followed by those of the second |
| GetRelated.RefsOfTasksFlat | resource/legacy_plugins/ftrackProvider/ftrackFoundryManager/FTrackGetRelated.py:139-160 | walking the tasks then their assets gives the references of the flat list of their assets |
| GetRelated.GetRefsFromTasks | resource/legacy_plugins/ftrackProvider/ftrackFoundryManager/FTrackGetRelated.py:139-160 | the nested loops return the intended references of the tasks, with the version keyword kept apart from the loop variable (`RefsOfTasks`) |
| GetRelated.AppendAssetsRefs | resource/legacy_plugins/ftrackProvider/ftrackFoundryManager/FTrackGetRelated.py:143-159 | the loop over one task's assets appends exactly their references |
| GetRelated.AppendAssetRefs | resource/legacy_plugins/ftrackProvider/ftrackFoundryManager/FTrackGetRelated.py:144-159 | one asset appends the img_main references of the version the keyword selects |
| GetRelated.AppendImgMain | resource/legacy_plugins/ftrackProvider/ftrackFoundryManager/FTrackGetRelated.py:156-159 | the innermost loop appends exactly the img_main components' references |
| GetRelated.AsWrittenAsset | resource/legacy_plugins/ftrackProvider/ftrackFoundryManager/FTrackGetRelated.py:143-159 | one asset of the code as written leaves `targetVersion`, when set, bound to a stored version |
| GetRelated.AsWrittenLatest | resource/legacy_plugins/ftrackProvider/ftrackFoundryManager/FTrackGetRelated.py:146-147 | with the keyword 'latest' the code as written returns the intended references (`AsWritten`) |
| GetRelated.AsWrittenSelects | resource/legacy_plugins/ftrackProvider/ftrackFoundryManager/FTrackGetRelated.py:148-152 | the first 'latestapproved' asset with an approved version rebinds `version` to that version object |
| GetRelated.AsWrittenKeepsBound | resource/legacy_plugins/ftrackProvider/ftrackFoundryManager/FTrackGetRelated.py:146-154 | once `version` holds a version object, every later asset reuses the previous target version |
| GetRelated.AsWrittenLatestApprovedRepeats | resource/legacy_plugins/ftrackProvider/ftrackFoundryManager/FTrackGetRelated.py:139-160 | with 'latestapproved' on two assets the code as written returns the first asset's references twice |
| GetRelated.AsWrittenSecond | resource/legacy_plugins/ftrackProvider/ftrackFoundryManager/FTrackGetRelated.py:144-159 | with `version` already rebound, the next asset yields the previous target's references |
| GetRelated.AsWrittenCons | resource/legacy_plugins/ftrackProvider/ftrackFoundryManager/FTrackGetRelated.py:143-159 | the code as written on a non-empty list is the first asset's step followed by the rest with the variables it leaves |
| GetRelated.RefsOfTwoAssets | resource/legacy_plugins/ftrackProvider/ftrackFoundryManager/FTrackGetRelated.py:143-159 | the intended result on two assets is each asset's own references, in order |
| GetRelated.AsWrittenUnbound | resource/legacy_plugins/ftrackProvider/ftrackFoundryManager/FTrackGetRelated.py:148-154 | with 'latestapproved' and a first asset without an approved version, the code as written raises for the unset `targetVersion` |
| GetRelated.Workflow | resource/legacy_plugins/ftrackProvider/ftrackFoundryManager/FTrackGetRelated.py:114-137 | missing criteria raise ValueError; criteria without a comma fail; a task type reference that does not resolve raises; a Task gives the references of its child tasks of that type for the version keyword, a Component the same for its shot's tasks or a fault when the shot is missing; anything else gives nothing |
| GetRelated.SplitNoSeparator | resource/legacy_plugins/ftrackProvider/ftrackFoundryManager/FTrackGetRelated.py:123-125 | criteria split into fewer than two fields exactly when they hold no comma, so `splitCriteria[1]` fails |
| GetRelated.Climb | resource/legacy_plugins/ftrackProvider/ftrackFoundryManager/FTrackGetRelated.py:184-194 | the climb from a component, version, asset or 'Task' task ends at a stored entity |
| GetRelated.ClimbStep | resource/legacy_plugins/ftrackProvider/ftrackFoundryManager/FTrackGetRelated.py:184-194 | each step of the climb goes to a stored entity |
| GetRelated.ClimbAbove | resource/legacy_plugins/ftrackProvider/ftrackFoundryManager/FTrackGetRelated.py:184-194 | the climb ends at the object itself or above it |
| GetRelated.ParentGrouping | resource/legacy_plugins/ftrackProvider/ftrackFoundryManager/FTrackGetRelated.py:162-200 | at most one reference; none for a project; a Shot or Sequence gives its parent when that is a Task; anything else gives the end of the climb past components, versions, assets and 'Task' tasks when that is a Task; any reference is of a Task at or above the object |
| GetRelated.RelatedSingle | resource/legacy_plugins/ftrackProvider/ftrackFoundryManager/FTrackGetRelated.py:59-73 | a reference that does not resolve raises; a shot specification answers as `getRelatedShots`, else a workflow one as `getWorkflowRelations`, else exactly 'grouping.parent' as `getParentGrouping`; anything else gives nothing |
| GetRelated.Answers | resource/legacy_plugins/ftrackProvider/ftrackFoundryManager/FTrackGetRelated.py:16-52 | one answer per query |
| GetRelated.Collect | resource/legacy_plugins/ftrackProvider/ftrackFoundryManager/FTrackGetRelated.py:16-52 | the batch succeeds exactly when every query succeeds, and then holds each query's answer in order |
| GetRelated.CollectFirstFailure | resource/legacy_plugins/ftrackProvider/ftrackFoundryManager/FTrackGetRelated.py:16-52 | a failing batch fails with the error of its first failing query |
| GetRelated.CollectSnoc | resource/legacy_plugins/ftrackProvider/ftrackFoundryManager/FTrackGetRelated.py:21-22 | one more successful answer extends the gathered answers by its value |
| GetRelated.CollectStopsAt | resource/legacy_plugins/ftrackProvider/ftrackFoundryManager/FTrackGetRelated.py:21-22 | once the answers before a failing query succeed, the whole batch fails with that query's error |
| GetRelated.RelatedQueries.GetRelatedShots | resource/legacy_plugins/ftrackProvider/ftrackFoundryManager/FTrackGetRelated.py:77-111 | the method, which reads a Sequence's `getChildren()` (its child contexts) through the cache, answers as the specification and keeps every cached listing equal to the current `getChildren()` |
| GetRelated.RelatedQueries.GetWorkflowRelations | resource/legacy_plugins/ftrackProvider/ftrackFoundryManager/FTrackGetRelated.py:114-137 | the method answers as the workflow specification |
| GetRelated.RelatedQueries.GetRelatedSingle | resource/legacy_plugins/ftrackProvider/ftrackFoundryManager/FTrackGetRelated.py:59-73 | the method answers as the dispatch specification and keeps the cache valid |
| GetRelated.RelatedQueries.RunBatch | resource/legacy_plugins/ftrackProvider/ftrackFoundryManager/FTrackGetRelated.py:16-52 | the loop answers as the batch specification over the queries in order |
| GetRelated.RelatedQueries.ForSpecs | resource/legacy_plugins/ftrackProvider/ftrackFoundryManager/FTrackGetRelated.py:16-24 | the cache is cleared, then one reference is answered against each specification in order |
| GetRelated.RelatedQueries.ForRefs | resource/legacy_plugins/ftrackProvider/ftrackFoundryManager/FTrackGetRelated.py:29-38 | the cache is cleared, then each reference is answered against the one specification in order |
| GetRelated.RelatedQueries.ForPairs | resource/legacy_plugins/ftrackProvider/ftrackFoundryManager/FTrackGetRelated.py:43-52 | the cache is cleared, then the references and specifications are answered pairwise, as long as the shorter list |
| GetRelated.Zip | resource/legacy_plugins/ftrackProvider/ftrackFoundryManager/FTrackGetRelated.py:49 | `zip` pairs by position and is as long as the shorter list |
| GetRelated.Batch | resource/legacy_plugins/ftrackProvider/ftrackFoundryManager/FTrackGetRelated.py:16-52 | a batch succeeds exactly when every query does, and then holds each query's answer in order |
| Publish.TaskTypeAndName | resource/legacy_plugins/ftrackProvider/ftrackFoundryManager/FTrackPublish.py:60-98 | the task type is Compositing by default and in Nuke, Editing in Hiero; a Nuke script forces Compositing and a Hiero project Editing; a 'taskType' manager option, when the options are not empty, overrides all; the name is the type's mapped name (`OptionOverrides` is the test for a task type given in the manager options) |
| Publish.GroupingTaskNames | resource/legacy_plugins/ftrackProvider/ftrackFoundryManager/FTrackPublish.py:133-137 | the two task types a grouping gets are named by the task-name map, with distinct names |
| Publish.PickTask | resource/legacy_plugins/ftrackProvider/ftrackFoundryManager/FTrackPublish.py:40-57 | a Shot or Sequence uses its first child task of the type, or a new task when it has none; any other object is used itself |
| Publish.GroupingTasksArePicked | resource/legacy_plugins/ftrackProvider/ftrackFoundryManager/FTrackPublish.py:40-57 | the tasks a registered grouping is created with are the ones a later registration under it picks, Compositing and Editing each |
| Publish.RegisterProject | resource/legacy_plugins/ftrackProvider/ftrackFoundryManager/FTrackPublish.py:29-37 | a new top-level project named by the short name is created and its reference returned |
| Publish.GroupingKind | resource/legacy_plugins/ftrackProvider/ftrackFoundryManager/FTrackPublish.py:109-116 | a Sequence is created under a Project and a Shot under a Sequence; any other target is a RegistrationError with the fixed message |
| Publish.GroupingName | resource/legacy_plugins/ftrackProvider/ftrackFoundryManager/FTrackPublish.py:124 | the grouping is named by the name hint when given, else by the short name |
| Publish.CreateTask | resource/legacy_plugins/ftrackProvider/ftrackFoundryManager/FTrackPublish.py:134-137 | one task of the given name and type is created as the last child of its parent and nothing else changes |
| Publish.RegisterGrouping | resource/legacy_plugins/ftrackProvider/ftrackFoundryManager/FTrackPublish.py:101-141 | an unresolvable target, or one that is neither a Project nor a Sequence, raises and changes nothing; otherwise the store gains exactly the grouping of the right kind and name under the target and its compositing and editing tasks, and the grouping's reference is returned |
| Publish.GroupingRegisteredSucceeds | resource/legacy_plugins/ftrackProvider/ftrackFoundryManager/FTrackPublish.py:109-141 | a Project or Sequence target that resolves always gets its grouping, named by the hint or the short name, with the compositing and editing tasks as its children, and the reference returned is the grouping's |
| Publish.GetTaskId | resource/legacy_plugins/ftrackProvider/ftrackFoundryManager/FTrackPublish.py:40-57 | the reference returned is the object's own, its first task of the type, or that of a task created as its last child, the store changing only in the last case and then by exactly that task |
| Publish.AssetName | resource/legacy_plugins/ftrackProvider/ftrackFoundryManager/FTrackPublish.py:174-178 | the asset name is the reference's `assetName` when present, else the name hint, else the default |
| Publish.LastTaskId | resource/legacy_plugins/ftrackProvider/ftrackFoundryManager/FTrackPublish.py:200 | `getVersions()[-1]` fails exactly when the asset has no version, else gives the last version's task id |
| Publish.PlanPublish | resource/legacy_plugins/ftrackProvider/ftrackFoundryManager/FTrackPublish.py:184-208 | a 'Task' Task publishes into the first asset of that type and name under its parent, or a new one there, unless the parent is a project; an asset is reused with its last version's task id; a component reuses its version's asset with that asset's last task id and keeps its own name, and a missing version or asset is a fault; anything else raises 'Unable to find a suitable asset' |
| Publish.PlanReusesNamedAsset | resource/legacy_plugins/ftrackProvider/ftrackFoundryManager/FTrackPublish.py:192-194 | publishing into a 'Task' Task never duplicates an asset: an existing asset of that type and name under its parent is reused |
| Publish.CreateVersionAndComponent | resource/legacy_plugins/ftrackProvider/ftrackFoundryManager/FTrackPublish.py:210-219 | the store gains exactly a version listed last under the asset and one component holding the file under it; the component is img_main exactly for an 'img' asset |
| Publish.RegisterGenericFile | resource/legacy_plugins/ftrackProvider/ftrackFoundryManager/FTrackPublish.py:164-232 | an unresolvable target raises and changes nothing; otherwise the store and answer are those of picking or creating the task, then publishing under the task's reference with the asset name from the reference, the hint or the default |
| Publish.PublishUnder | resource/legacy_plugins/ftrackProvider/ftrackFoundryManager/FTrackPublish.py:182-232 | a task reference that does not resolve, or a failed plan, raises that error and changes nothing; otherwise the plan is carried out and the new component's reference returned |
| Publish.ExecutePlan | resource/legacy_plugins/ftrackProvider/ftrackFoundryManager/FTrackPublish.py:207-219 | the store gains exactly the planned asset when one is created, then a version under the plan's asset carrying the plan's task id, then one component with the plan's name and the path; every other entity is unchanged |
| Publish.ExecutedKeys | resource/legacy_plugins/ftrackProvider/ftrackFoundryManager/FTrackPublish.py:192-219 | carrying out a plan adds exactly the version and the component, plus the asset when none is reused |
| Publish.PublishedComponentResolves | resource/legacy_plugins/ftrackProvider/ftrackFoundryManager/FTrackPublish.py:207-232 | after a successful publish the reference returned resolves to the new component, which holds the path, is img_main exactly for an 'img' asset, and is among at most three new entities |
| Publish.RegisterNukeScript | resource/legacy_plugins/ftrackProvider/ftrackFoundryManager/FTrackPublish.py:144-146 | `_registerGenericFile` with asset type 'comp', component 'nukescript' and default name 'nukeScript' |
| Publish.RegisterImageFile | resource/legacy_plugins/ftrackProvider/ftrackFoundryManager/FTrackPublish.py:149-151 | `_registerGenericFile` with asset type 'img', component 'main' and default name 'imageAsset' |
| Publish.RegisterHieroProject | resource/legacy_plugins/ftrackProvider/ftrackFoundryManager/FTrackPublish.py:154-156 | `_registerGenericFile` with asset type 'edit', component 'hieroproject' and default name 'hieroProject' |
| Publish.RegisterFile | resource/legacy_plugins/ftrackProvider/ftrackFoundryManager/FTrackPublish.py:159-161 | `_registerGenericFile` with the specification's type as asset type, 'asset' as component name and default name 'file' |
| Interface.Hashes | resource/legacy_plugins/ftrackProvider/ftrackFoundryManager/FTrackInterface.py:129 | a run of n characters, all '#' |
| Interface.HashRun | resource/legacy_plugins/ftrackProvider/ftrackFoundryManager/FTrackInterface.py:129 | the greedy `#{1,20}` takes only hashes, at most the maximum, and stops before a non-hash or at the maximum |
| Interface.ConvertHashes | resource/legacy_plugins/ftrackProvider/ftrackFoundryManager/FTrackInterface.py:127-132 | a path without '#' makes the code fail on the missing match; every other path converts |
| Interface.FirstHashAt | resource/legacy_plugins/ftrackProvider/ftrackFoundryManager/FTrackInterface.py:129 | the search finds the first '#' after a hash-free prefix |
| Interface.HashRunOf | resource/legacy_plugins/ftrackProvider/ftrackFoundryManager/FTrackInterface.py:129 | a run of k hashes is taken whole when k is at most the maximum, else its first maximum |
| Interface.ConvertHashesRun | resource/legacy_plugins/ftrackProvider/ftrackFoundryManager/FTrackInterface.py:127-132 | text before the first '#' and after the run is kept; a run of up to 20 hashes becomes one `%0Nd` token for its length, and a longer run keeps the hashes past the twentieth |
| Interface.FrameTokenReadsBack | resource/legacy_plugins/ftrackProvider/ftrackFoundryManager/FTrackInterface.py:131 | the token is '%', two digits that read back as the run length, and 'd' |
| Interface.ResolveEntityReference | resource/legacy_plugins/ftrackProvider/ftrackFoundryManager/FTrackInterface.py:104-124 | an unresolvable reference raises; a component refuses a write context and otherwise resolves to its import path, hashes converted; anything else resolves to its name |
| Interface.ThrowOnlyMissing | resource/legacy_plugins/ftrackProvider/ftrackFoundryManager/FTrackInterface.py:75-77 | `throw` only decides what happens when nothing is found: a found object or a raised error is the same either way, and a miss with `throw` raises InvalidEntityReference |
| Interface.ExistsIffLookup | resource/legacy_plugins/ftrackProvider/ftrackFoundryManager/FTrackInterface.py:75-77 | a reference exists exactly when looking it up succeeds |
| Interface.StoredEntityResolves | resource/legacy_plugins/ftrackProvider/ftrackFoundryManager/FTrackInterface.py:75-142 | every stored entity's reference exists, is named by the entity's name, and resolves to its name, or to its path for a readable component without hashes (`ObjectName`) |
| Interface.ThumbnailTypes | resource/legacy_plugins/ftrackProvider/ftrackFoundryManager/FTrackInterface.py:84-89 | image, Nuke script and Hiero project files and shots get thumbnails; projects, plain groupings and no specification do not |
| Interface.GetEntityName | resource/legacy_plugins/ftrackProvider/ftrackFoundryManager/FTrackInterface.py:139-141 | the name is found exactly when the reference resolves |
| Interface.Names | resource/legacy_plugins/ftrackProvider/ftrackFoundryManager/FTrackInterface.py:160-163 | one name per entity, in order |
| Interface.DisplayNameForClip | resource/legacy_plugins/ftrackProvider/ftrackFoundryManager/FTrackInterface.py:167-176 | anything but a component shows as ''; a component shows as its asset's name; a component without a version, a version without an asset, or an unnamed asset raises |
| Interface.GetEntityDisplayName | resource/legacy_plugins/ftrackProvider/ftrackFoundryManager/FTrackInterface.py:143-164 | an unresolvable reference raises; outside a clip locale, and for anything but a component, the display name is the hierarchy path; under a clip locale a component shows as its asset's name when that is not empty, the hierarchy path when it is, and its faults propagate |
| Interface.ReverseOfNames | resource/legacy_plugins/ftrackProvider/ftrackFoundryManager/FTrackInterface.py:164 | naming commutes with reversing |
| Interface.ReverseNames | resource/legacy_plugins/ftrackProvider/ftrackFoundryManager/FTrackInterface.py:158-164 | reversing the names of an object and its ancestors names the ancestors root first, then the object |
| Interface.PathPartsAreNames | resource/legacy_plugins/ftrackProvider/ftrackFoundryManager/FTrackInterface.py:158-164 | without asset types, the parts of a path are the names of the ancestors root first, then the object |
| Interface.HierarchyNameIsSlashPath | resource/legacy_plugins/ftrackProvider/ftrackFoundryManager/FTrackInterface.py:158-164 | the hierarchy display name is the path `getPath` builds with ' / ' and without asset types (`HierarchyName`) |
| Interface.VersionName | resource/legacy_plugins/ftrackProvider/ftrackFoundryManager/FTrackInterface.py:437-448 | the version label of a component's version, of a version itself, or of an asset's last version; a component without a version and an asset without versions fail; anything else gives '' |
| Interface.VersionNameAgrees | resource/legacy_plugins/ftrackProvider/ftrackFoundryManager/FTrackInterface.py:437-448 | a component, its version, and an asset whose latest version that is all carry the same version name |
| Interface.VersionsToSearch | resource/legacy_plugins/ftrackProvider/ftrackFoundryManager/FTrackInterface.py:413-425 | an asset's versions are searched for 'main', as are a version's siblings; only a component searches for its own name |
| Interface.NamedComponents | resource/legacy_plugins/ftrackProvider/ftrackFoundryManager/FTrackInterface.py:427-432 | at most one component per version, each a stored component with the searched name |
| Interface.NamedComponentsOnePerVersion | resource/legacy_plugins/ftrackProvider/ftrackFoundryManager/FTrackInterface.py:427-432 | when every version has a component of that name, there is exactly one per version, in version order |
| Interface.ObjectVersionsOf | resource/legacy_plugins/ftrackProvider/ftrackFoundryManager/FTrackInterface.py:407-434 | the relevant versions are stored components, and none for anything but a component, version or asset |
| Interface.TrimVersions | resource/legacy_plugins/ftrackProvider/ftrackFoundryManager/FTrackInterface.py:199-201 | a positive `maxResults` below the count keeps exactly that many of the most recent; otherwise all are kept |
| Interface.DictOf | resource/legacy_plugins/ftrackProvider/ftrackFoundryManager/FTrackInterface.py:203 | `dict(zip(keys, vals))` has exactly the given keys and only given values |
| Interface.DictOfLastWins | resource/legacy_plugins/ftrackProvider/ftrackFoundryManager/FTrackInterface.py:203 | a key maps to the value paired with its last occurrence |
| Interface.VersionNames | resource/legacy_plugins/ftrackProvider/ftrackFoundryManager/FTrackInterface.py:203 | one version name per component when none fails, each that component's |
| Interface.VersionRefs | resource/legacy_plugins/ftrackProvider/ftrackFoundryManager/FTrackInterface.py:203 | every version name maps to the reference of one of the components |
| Interface.VersionRefsListed | resource/legacy_plugins/ftrackProvider/ftrackFoundryManager/FTrackInterface.py:203 | a component whose version name no later component shares is listed under that name with its own reference |
| Interface.GetEntityVersions | resource/legacy_plugins/ftrackProvider/ftrackFoundryManager/FTrackInterface.py:187-204 | an unresolvable reference raises; an error while listing becomes EntityResolutionError; the kept components are the last `maxResults` of the relevant ones, and the answer maps exactly their version names to their references, failing when a version name fails |
| Interface.GetEntityVersionName | resource/legacy_plugins/ftrackProvider/ftrackFoundryManager/FTrackInterface.py:180-184 | the version name of the resolved object |
| Interface.GetFinalizedEntityVersion | resource/legacy_plugins/ftrackProvider/ftrackFoundryManager/FTrackInterface.py:207-237 | no version asked, or the current one, gives the reference itself; any other answer is the reference of a relevant component |
| Interface.FinalizedPicksNamedVersion | resource/legacy_plugins/ftrackProvider/ftrackFoundryManager/FTrackInterface.py:220-233 | asking for another version's name gives the reference of the last relevant component carrying that name |
| Interface.MetamapInjective | resource/legacy_plugins/ftrackProvider/ftrackFoundryManager/FTrackInterface.py:12-16 | no two native keys map to the same field name |
| Interface.RevMetamapInverse | resource/legacy_plugins/ftrackProvider/ftrackFoundryManager/FTrackInterface.py:26 | the reverse map is the inverse of the metadata map |
| Interface.InverseStep | resource/legacy_plugins/ftrackProvider/ftrackFoundryManager/FTrackInterface.py:26 | adding one native key to the reverse map adds its own entry and no other |
| Interface.InverseUnique | resource/legacy_plugins/ftrackProvider/ftrackFoundryManager/FTrackInterface.py:26 | a map has at most one inverse, so the reverse map is determined |
| Interface.MetaKeysWellFormed | resource/legacy_plugins/ftrackProvider/ftrackFoundryManager/FTrackInterface.py:18-22 | every class lists distinct keys under distinct field names, none of them 'handles', each read back by the reverse map |
| Interface.MetaValues | resource/legacy_plugins/ftrackProvider/ftrackFoundryManager/FTrackInterface.py:243 | the metadata holds exactly the stored entries with their values |
| Interface.MappedMetadataUntouched | resource/legacy_plugins/ftrackProvider/ftrackFoundryManager/FTrackInterface.py:247-248 | an entry no listed key maps to is left as it was |
| Interface.MappedMetadataSets | resource/legacy_plugins/ftrackProvider/ftrackFoundryManager/FTrackInterface.py:247-248 | a listed key whose field name no later key shares ends up holding its native value |
| Interface.EntityMetadataContents | resource/legacy_plugins/ftrackProvider/ftrackFoundryManager/FTrackInterface.py:240-252 | the metadata shows each native key of the class under its field name with the native value, and every other stored entry unchanged (`EntityMetadata`) |
| Interface.EntryAgreesWithMetadata | resource/legacy_plugins/ftrackProvider/ftrackFoundryManager/FTrackInterface.py:286-298 | reading one entry agrees with reading the whole metadata for every field name that is not itself a native key (`MetadataEntry`) |
| Interface.SetEntry | resource/legacy_plugins/ftrackProvider/ftrackFoundryManager/FTrackInterface.py:301-313 | setting an entry changes only the entity's native fields and meta |
| Interface.SetEntryRoundTrip | resource/legacy_plugins/ftrackProvider/ftrackFoundryManager/FTrackInterface.py:301-313 | after setting an entry, reading it gives the value back and no other entry changes |
| Interface.AsWrittenEntryLost | resource/legacy_plugins/ftrackProvider/ftrackFoundryManager/FTrackInterface.py:307-313 | as written, a project's frame start is stored under the native key 'fstart', so reading the field back finds nothing; the corrected setter reads it back (`SetEntryAsWritten`) |
| Interface.AsWrittenAgreesOffMap | resource/legacy_plugins/ftrackProvider/ftrackFoundryManager/FTrackInterface.py:307-313 | for field names outside the map the code as written and the corrected one agree |
| Interface.ParseIntLiteralOfString | resource/legacy_plugins/ftrackProvider/ftrackFoundryManager/FTrackInterface.py:259-260 | `int(str(i)) == i` for every integer |
| Interface.ParseSignedOfString | resource/legacy_plugins/ftrackProvider/ftrackFoundryManager/FTrackInterface.py:259-260 | the decimal form of an integer, sign included, reads back as that integer |
| Interface.ParseIntLiteralPadded | resource/legacy_plugins/ftrackProvider/ftrackFoundryManager/FTrackInterface.py:259-260 | an integer literal padded with white space on either side still reads as its integer |
| Interface.ToInt | resource/legacy_plugins/ftrackProvider/ftrackFoundryManager/FTrackInterface.py:259-260 | `int(s)` succeeds exactly when `s` is an integer literal, possibly surrounded by white space, with its value, and raises ValueError otherwise |
| Interface.HandleWidth | resource/legacy_plugins/ftrackProvider/ftrackFoundryManager/FTrackInterface.py:258-262 | no handle width unless frame-in and frame-start are both given and non-empty; both parseable give frame-in minus frame-start; a bad number raises ValueError |
| Interface.PopMappedFacts | resource/legacy_plugins/ftrackProvider/ftrackFoundryManager/FTrackInterface.py:266-276 | popping takes exactly the field names of the listed keys out of the data, sets each listed key that was present natively, and changes nothing else |
| Interface.SetMetadataEffects | resource/legacy_plugins/ftrackProvider/ftrackFoundryManager/FTrackInterface.py:254-283 | after `setEntityMetadata` the handle width is stored, every listed key given under its field name is set natively and popped, and the meta holds the remaining data over the old meta when merging, or exactly it otherwise |
| Interface.SetMetadataSpec | resource/legacy_plugins/ftrackProvider/ftrackFoundryManager/FTrackInterface.py:254-283 | `setEntityMetadata` raises ValueError exactly when the frame numbers for the handle width do not read as integers |
| Interface.SetMetadataWithEffects | resource/legacy_plugins/ftrackProvider/ftrackFoundryManager/FTrackInterface.py:262-283 | whatever the handle width: the entity keeps its identity, stores the width under 'handles', sets natively each listed key given under its field name, keeps the data less those field names, and holds that over the old meta when merging, or exactly it otherwise |
| Interface.FTrackInterface.GetEntityMetadata | resource/legacy_plugins/ftrackProvider/ftrackFoundryManager/FTrackInterface.py:240-252 | an unresolvable reference raises; otherwise the answer is the entity's mapped metadata |
| Interface.FTrackInterface.GetEntityMetadataEntry | resource/legacy_plugins/ftrackProvider/ftrackFoundryManager/FTrackInterface.py:286-298 | an unresolvable reference raises; otherwise the answer is the entry read through the reverse map |
| Interface.FTrackInterface.SetEntityMetadataEntry | resource/legacy_plugins/ftrackProvider/ftrackFoundryManager/FTrackInterface.py:301-313 | an unresolvable reference raises and changes nothing; otherwise the entity becomes the corrected setter's result and nothing else changes |
| Interface.FTrackInterface.SetEntityMetadata | resource/legacy_plugins/ftrackProvider/ftrackFoundryManager/FTrackInterface.py:254-283 | an unresolvable reference raises and changes nothing; otherwise the entity becomes the metadata specification's result and the caller's data is left without the popped keys |
| Interface.FTrackInterface.GetRelatedReferences | resource/legacy_plugins/ftrackProvider/ftrackFoundryManager/FTrackInterface.py:317-331 | equal counts are answered pairwise, one reference against every specification, or every reference against one specification; other counts raise ValueError; the answer has one entry per query |
| Interface.FTrackInterface.Register | resource/legacy_plugins/ftrackProvider/ftrackFoundryManager/FTrackInterface.py:354-401 | an unknown specification raises and changes nothing; a project is created as a new top-level entity; a grouping and each file kind leave exactly the store and answer of `registerGrouping` or of `_registerGenericFile` with that kind's asset type, component name and default name |
| Interface.BatchShapeOf | resource/legacy_plugins/ftrackProvider/ftrackFoundryManager/FTrackInterface.py:319-331 | the batch shape is decided by the counts in that order, and counts fitting none raise ValueError |
| Interface.Preflight | resource/legacy_plugins/ftrackProvider/ftrackFoundryManager/FTrackInterface.py:338-351 | preflight succeeds, echoing the reference, exactly when the target exists |
| Interface.IsOfTypeAncestor | resource/legacy_plugins/ftrackProvider/ftrackFoundryManager/FTrackInterface.py:359-364 | a type derived from t is also derived from every type t is derived from |
| Interface.GroupNotFile | resource/legacy_plugins/ftrackProvider/ftrackFoundryManager/FTrackInterface.py:367-393 | no type is both a grouping and a file, so the route order cannot hide a case |
| Interface.ImageIsFile | resource/legacy_plugins/ftrackProvider/ftrackFoundryManager/FTrackInterface.py:376-393 | every image type is a file type |
| Interface.RegisterRoute | resource/legacy_plugins/ftrackProvider/ftrackFoundryManager/FTrackInterface.py:366-397 | the kinds are tried in a fixed order; a specification that is neither a grouping nor a file raises 'Unknown entity Specification'; each route implies its type |
| Interface.FTrackInterface.constructor | resource/legacy_plugins/ftrackProvider/ftrackFoundryManager/FTrackInterface.py:24-26 | the reverse metadata map built item by item is the exact inverse of the metadata map |
| NukeHelpers.GuidFromCloneTag | resource/legacy_plugins/theFoundry/assetmgr_hiero/nukeExporter/FnNukeHelpers.py:29-33 | the guid of the first tag named "Clone", and None when no tag has that name |
| NukeHelpers.ClipReadRange | resource/legacy_plugins/theFoundry/assetmgr_hiero/nukeExporter/FnNukeHelpers.py:96-121 | untrimmed, the whole source from sourceIn for duration frames; trimmed, the soft trims when enabled, each bound overridden by trimStart/trimEnd relative to sourceIn; QuickTime media shifts both ends by one |
| NukeHelpers.ColourTransformOf | resource/legacy_plugins/theFoundry/assetmgr_hiero/nukeExporter/FnNukeHelpers.py:169-175 | a given transform wins; otherwise the clip's colourspace metadata is used exactly when it does not name a default |
| NukeHelpers.AdditionalNodes | resource/legacy_plugins/theFoundry/assetmgr_hiero/nukeExporter/FnNukeHelpers.py:228-249 | exactly the additional nodes that are not None are kept, each disabled exactly when the clip is |
| NukeHelpers.AdditionalNodesAppend | resource/legacy_plugins/theFoundry/assetmgr_hiero/nukeExporter/FnNukeHelpers.py:228-249 | the nodes for a concatenation of names are those of each part in turn, so the names' order is kept |
| NukeHelpers.AdditionalNodesAllPresent | resource/legacy_plugins/theFoundry/assetmgr_hiero/nukeExporter/FnNukeHelpers.py:228-249 | when every name is present each gives its node, disabled exactly when the clip is, in the same order |
| NukeHelpers.SourceNode | resource/legacy_plugins/theFoundry/assetmgr_hiero/nukeExporter/FnNukeHelpers.py:139-146 | a Nuke script gives a Precomp node and any other file a Read node over the clip's read range; the colourspace is "linear" under OCIO, otherwise the colour transform on a Read node and none on a Precomp |
| NukeHelpers.OcioName | resource/legacy_plugins/theFoundry/assetmgr_hiero/nukeExporter/FnNukeHelpers.py:187-189 | the OCIO colourspace ends with the transform, and is longer exactly when the transform has a non-empty LUT group |
| NukeHelpers.MiddleNodesContents | resource/legacy_plugins/theFoundry/assetmgr_hiero/nukeExporter/FnNukeHelpers.py:163-215 | a TimeClip only for a precomp with a first frame, over the read range; an OCIO node exactly when OCIO applies, with the LUT-group-prefixed colourspace; an AddChannels node exactly when the clip is disabled; a Metadata node exactly when none was given |
| NukeHelpers.MiddleNodesRanked | resource/legacy_plugins/theFoundry/assetmgr_hiero/nukeExporter/FnNukeHelpers.py:163-215 | the middle nodes come in the fixed order TimeClip, OCIO, AddChannels, Metadata, each at most once |
| NukeHelpers.TransformAfter | resource/legacy_plugins/theFoundry/assetmgr_hiero/nukeExporter/FnNukeHelpers.py:171-189 | the colour transform after a file is the clip's, prefixed by its LUT group when an OCIO node was added |
| NukeHelpers.FileNodes | resource/legacy_plugins/theFoundry/assetmgr_hiero/nukeExporter/FnNukeHelpers.py:139-252 | the nodes for one media file are its Read or Precomp node, then the middle nodes for the file's colour transform, then the additional nodes; a Metadata node is among them exactly when none was given |
| NukeHelpers.FileNodesRanked | resource/legacy_plugins/theFoundry/assetmgr_hiero/nukeExporter/FnNukeHelpers.py:139-215 | the nodes before the additional ones are in the fixed order source, TimeClip, OCIO, AddChannels, Metadata |
| NukeHelpers.ClipNodes | resource/legacy_plugins/theFoundry/assetmgr_hiero/nukeExporter/FnNukeHelpers.py:79-93 | a clip without media adds nothing; otherwise the first file's nodes come first and the rest are those of the later files under the options the first leaves (Metadata node given, colour transform carried over); exactly one Metadata node when none was given, and none after the first file |
| NukeHelpers.TransitionHandles | resource/legacy_plugins/theFoundry/assetmgr_hiero/nukeExporter/FnNukeHelpers.py:303-313 | a dissolve handle moves the item's start or end to the transition's; no dissolve gives a zero handle |
| NukeHelpers.ReversedSwapsHandles | resource/legacy_plugins/theFoundry/assetmgr_hiero/nukeExporter/FnNukeHelpers.py:323-328 | reversing an item swaps the roles of its start and end handles (`Handles`) |
| NukeHelpers.TrackItemRange | resource/legacy_plugins/theFoundry/assetmgr_hiero/nukeExporter/FnNukeHelpers.py:318-441 | last − first frame is (duration − 1) plus both handles and both transition handles, less the trim; a given first frame is kept plus trim and offset; otherwise the last frame follows the timeline-in |
| NukeHelpers.OffsetShiftsOutput | resource/legacy_plugins/theFoundry/assetmgr_hiero/nukeExporter/FnNukeHelpers.py:357-441 | the global offset shifts the read node's first frame and both output frames by the offset and leaves the read range alone |
| NukeHelpers.HandlesStayInMedia | resource/legacy_plugins/theFoundry/assetmgr_hiero/nukeExporter/FnNukeHelpers.py:332-339 | with non-negative handles and a source range inside the media, the clamped read range stays within the media and still covers the source range |
| NukeHelpers.TrackItemReadRange | resource/legacy_plugins/theFoundry/assetmgr_hiero/nukeExporter/FnNukeHelpers.py:390-393 | the track item's Read node reads exactly its read range: both trims given override the soft trims |
| NukeHelpers.DissolveFrames | resource/legacy_plugins/theFoundry/assetmgr_hiero/nukeExporter/FnNukeHelpers.py:664-667 | a dissolve spans out − in frames, plus one when that exceeds one |
| NukeHelpers.PlacedNodes | resource/legacy_plugins/theFoundry/assetmgr_hiero/nukeExporter/FnNukeHelpers.py:638-696 | an item gives its own nodes, preceded by a Black node for a fade out and followed by a Black node and an Append with the fade's length for a fade in, with a closing Append whose dissolve is one more than the fade out's Black length; never a gap node |
| NukeHelpers.WalkAppendCount | resource/legacy_plugins/theFoundry/assetmgr_hiero/nukeExporter/FnNukeHelpers.py:587-671 | every placed item after the first is joined to the one before by exactly one kept AppendClip, the first too when the track ends in a gap (`Walk`) |
| NukeHelpers.GapNodes | resource/legacy_plugins/theFoundry/assetmgr_hiero/nukeExporter/FnNukeHelpers.py:603-614 | a gap exists exactly when the previous item starts more than one frame after this one ends; its Constant covers the frames in between, shifted by the offset, and is followed by an Append exactly when something was placed already |
| NukeHelpers.StepGapsNonEmpty | resource/legacy_plugins/theFoundry/assetmgr_hiero/nukeExporter/FnNukeHelpers.py:603-614 | one step of the walk keeps every gap non-empty (`Step`) |
| NukeHelpers.WalkGapsNonEmpty | resource/legacy_plugins/theFoundry/assetmgr_hiero/nukeExporter/FnNukeHelpers.py:587-697 | every gap the walk fills is at least one frame long |
| NukeHelpers.FillGap | resource/legacy_plugins/theFoundry/assetmgr_hiero/nukeExporter/FnNukeHelpers.py:603-624 | the gap adds a Constant and, unless nothing was placed yet, an Append; the track starts with a gap exactly when a gap comes before any placed item |
| NukeHelpers.PlaceItem | resource/legacy_plugins/theFoundry/assetmgr_hiero/nukeExporter/FnNukeHelpers.py:626-696 | the body of the walk for a placed item leaves the state of one step of the walk specification |
| NukeHelpers.AppendPlaced | resource/legacy_plugins/theFoundry/assetmgr_hiero/nukeExporter/FnNukeHelpers.py:638-696 | the nodes placed after the gap are appended in the order the walk makes them |
| NukeHelpers.WalkTrack | resource/legacy_plugins/theFoundry/assetmgr_hiero/nukeExporter/FnNukeHelpers.py:583-697 | the loop over the reversed items leaves the state the walk specification computes |
| NukeHelpers.AppendInReverse | resource/legacy_plugins/theFoundry/assetmgr_hiero/nukeExporter/FnNukeHelpers.py:717-721 | the kept AppendClip nodes are added last to first |
| NukeHelpers.AddVideoTrack | resource/legacy_plugins/theFoundry/assetmgr_hiero/nukeExporter/FnNukeHelpers.py:555-734 | the track's nodes are the walk's, the leading gap, then the kept AppendClip nodes reversed (`TrackNodes`) |
| NukeHelpers.IncludedTracks | resource/legacy_plugins/theFoundry/assetmgr_hiero/nukeExporter/FnNukeHelpers.py:745-760 | a track is written exactly when it has items or its sub-track items are not all of an excluded kind |
| NukeHelpers.PartitionKeepsAll | resource/legacy_plugins/theFoundry/assetmgr_hiero/nukeExporter/FnNukeHelpers.py:771-779 | the split keeps every written track exactly once (`Partition`) |
| NukeHelpers.PartitionConnectsMaster | resource/legacy_plugins/theFoundry/assetmgr_hiero/nukeExporter/FnNukeHelpers.py:771-779 | the master's track and blended tracks are connected; a disconnected track is neither |
| NukeHelpers.PartitionFirstConnected | resource/legacy_plugins/theFoundry/assetmgr_hiero/nukeExporter/FnNukeHelpers.py:771-779 | an item-less track is connected only after a connected one, so the first connected track is the master's or a blended one |
| NukeHelpers.ConnectedDisconnectedFacts | resource/legacy_plugins/theFoundry/assetmgr_hiero/nukeExporter/FnNukeHelpers.py:740-784 | the two lists together are the included tracks, each list keeping their order; nothing is disconnected unless asked with a master track; the master track with items is connected (`ConnectedDisconnected`) |
| NukeHelpers.PartitionInterleaves | resource/legacy_plugins/theFoundry/assetmgr_hiero/nukeExporter/FnNukeHelpers.py:740-784 | the connected and disconnected lists interleave to the tracks they were split from, so each keeps the tracks' order |
| NukeHelpers.FilterTracks | resource/legacy_plugins/theFoundry/assetmgr_hiero/nukeExporter/FnNukeHelpers.py:745-760 | the first loop keeps exactly the written tracks, in order |
| NukeHelpers.SplitTracks | resource/legacy_plugins/theFoundry/assetmgr_hiero/nukeExporter/FnNukeHelpers.py:769-779 | the second loop splits the tracks as the partition specification |
| NukeHelpers.GetConnectedDisconnectedTracks | resource/legacy_plugins/theFoundry/assetmgr_hiero/nukeExporter/FnNukeHelpers.py:740-784 | the method returns the connected and disconnected tracks of the specification |
| Browser.IsValid | resource/legacy_plugins/ftrackProvider/ftrackFoundryManager/ui/widgets/BrowserWidget.py:364-402 | a shot specification accepts exactly a sequence; a file-like specification accepts, under write, a task not directly under the project, a sequence or shot, or an asset under plain write, and under read any asset, version or component; a publish locale overrides all of that with "is a task"; any other specification accepts nothing; a parentless task under write faults on the missing parent |
| Browser.ClimbParents | resource/legacy_plugins/ftrackProvider/ftrackFoundryManager/ui/widgets/BrowserWidget.py:69-80 | whatever entity the climb reaches is in the store |
| Browser.ClimbParentsAncestor | resource/legacy_plugins/ftrackProvider/ftrackFoundryManager/ui/widgets/BrowserWidget.py:69-80 | climbing k parents succeeds exactly when the entity has at least k ancestors and then reaches the k-th ancestor; zero steps stays put |
| Browser.SetWhereToCreate | resource/legacy_plugins/ftrackProvider/ftrackFoundryManager/ui/widgets/BrowserWidget.py:69-80 | a component climbs three parents, a version two, an asset or task one, anything else none, and the result is the reference of that ancestor; it fails exactly when the ancestor chain is too short |
| Browser.MatchesAny | resource/legacy_plugins/ftrackProvider/ftrackFoundryManager/ui/widgets/BrowserWidget.py:249-251 | a component is in the component filter exactly when ftrack's equality matches it with some filter name |
| Browser.MetaHits | resource/legacy_plugins/ftrackProvider/ftrackFoundryManager/ui/widgets/BrowserWidget.py:252-257 | the meta filter loop only ever appends the component being examined |
| Browser.MetaHitsCount | resource/legacy_plugins/ftrackProvider/ftrackFoundryManager/ui/widgets/BrowserWidget.py:252-257 | the component is appended once for every meta filter key present in its metadata, repeats included |
| Browser.ComponentRows | resource/legacy_plugins/ftrackProvider/ftrackFoundryManager/ui/widgets/BrowserWidget.py:248-259 | a component the component filter excludes contributes nothing; otherwise it contributes itself once without metadata filters, and once per filter key present in its metadata with them |
| Browser.Importable | resource/legacy_plugins/ftrackProvider/ftrackFoundryManager/ui/widgets/BrowserWidget.py:245-259 | every importable component is one of the version's components and, with a component filter, matches it, so a component the filter excludes contributes nothing; with neither filter they are exactly the components |
| Browser.ImportableUnfiltered | resource/legacy_plugins/ftrackProvider/ftrackFoundryManager/ui/widgets/BrowserWidget.py:248-259 | with neither filter set, the importable components are exactly the version's components, in order |
| Browser.ImportableStep | resource/legacy_plugins/ftrackProvider/ftrackFoundryManager/ui/widgets/BrowserWidget.py:248-259 | the importable list of a prefix, extended by the rows of the next component, is the importable list of the longer prefix |
| Browser.CollectMetaHits | resource/legacy_plugins/ftrackProvider/ftrackFoundryManager/ui/widgets/BrowserWidget.py:255-257 | the inner loop yields exactly the component once per filter key in its metadata |
| Browser.RowsOf | resource/legacy_plugins/ftrackProvider/ftrackFoundryManager/ui/widgets/BrowserWidget.py:249-259 | the loop body yields exactly the rows the filters allow for one component |
| Browser.ImportableComponents | resource/legacy_plugins/ftrackProvider/ftrackFoundryManager/ui/widgets/BrowserWidget.py:245-259 | the loop collects exactly the importable components of the version, in order |
| Browser.VersionRows | resource/legacy_plugins/ftrackProvider/ftrackFoundryManager/ui/widgets/BrowserWidget.py:175-194 | the version rows are the versions newest first, one per version; the version opened next is the last one, shown in the first row, and an asset without versions raises IndexError |
| Browser.AssetVersions | resource/legacy_plugins/ftrackProvider/ftrackFoundryManager/ui/widgets/BrowserWidget.py:177-180 | without a component filter all the asset's versions; with one exactly the versions holding a matching component |
| Browser.KeepWithComponent | resource/legacy_plugins/ftrackProvider/ftrackFoundryManager/ui/widgets/BrowserWidget.py:177-178 | exactly the versions holding a matching component are kept; a single version is kept exactly when it holds one |
| Browser.KeepWithComponentAppend | resource/legacy_plugins/ftrackProvider/ftrackFoundryManager/ui/widgets/BrowserWidget.py:177-178 | filtering a concatenation filters each part in turn, so the kept versions stay in order |
| Browser.NextStop | resource/legacy_plugins/ftrackProvider/ftrackFoundryManager/ui/widgets/BrowserWidget.py:226-266 | a visit fails exactly when the validity check faults or an asset with versions shown has none; an asset moves on to its last version, a version to its first importable component (if any), anything else stays; every move goes strictly down from asset to version to component |
| Browser.Settle | resource/legacy_plugins/ftrackProvider/ftrackFoundryManager/ui/widgets/BrowserWidget.py:226-266 | a click settles on a stored entity whose validity check succeeds; an asset with versions shown never settles on itself, a version with importable components settles on a component, and anything else settles where it was clicked |
| Browser.MoveOn | resource/legacy_plugins/ftrackProvider/ftrackFoundryManager/ui/widgets/BrowserWidget.py:239-266 | after a valid check, the move a visit makes is the one NextStop describes |
| Browser.BrowserWidget.constructor | resource/legacy_plugins/ftrackProvider/ftrackFoundryManager/ui/widgets/BrowserWidget.py:86-112 | a new widget has nothing selected or filtered, shows assets, tasks, versions and shots, enables shots, and keeps its specification and context |
| Browser.BrowserWidget.SetShowAssets | resource/legacy_plugins/ftrackProvider/ftrackFoundryManager/ui/widgets/BrowserWidget.py:346-347 | only the show-assets flag changes, to the value given |
| Browser.BrowserWidget.SetShowTasks | resource/legacy_plugins/ftrackProvider/ftrackFoundryManager/ui/widgets/BrowserWidget.py:349-350 | only the show-tasks flag changes, to the value given |
| Browser.BrowserWidget.SetShowAssetVersions | resource/legacy_plugins/ftrackProvider/ftrackFoundryManager/ui/widgets/BrowserWidget.py:352-353 | only the show-versions flag changes, to the value given |
| Browser.BrowserWidget.SetShotsEnabled | resource/legacy_plugins/ftrackProvider/ftrackFoundryManager/ui/widgets/BrowserWidget.py:355-356 | only the shots-enabled flag changes, to the value given |
| Browser.BrowserWidget.SetComponentFilter | resource/legacy_plugins/ftrackProvider/ftrackFoundryManager/ui/widgets/BrowserWidget.py:358-359 | only the component filter changes, to the value given |
| Browser.BrowserWidget.SetMetaFilters | resource/legacy_plugins/ftrackProvider/ftrackFoundryManager/ui/widgets/BrowserWidget.py:361-362 | only the meta filters change, to the value given |
| Browser.BrowserWidget.Visit | resource/legacy_plugins/ftrackProvider/ftrackFoundryManager/ui/widgets/BrowserWidget.py:226-266 | one visit records the reference it was reached by as the one being browsed, and the entity's validity when the check succeeds; it changes nothing else and returns the move NextStop describes |
| Browser.BrowserWidget.UpdateMainWidget | resource/legacy_plugins/ftrackProvider/ftrackFoundryManager/ui/widgets/BrowserWidget.py:226-266 | a reference that does not resolve raises with the lookup's error and changes nothing; otherwise following the click succeeds exactly when Settle does, and the widget then browses the settled entity with its validity, recorded under `targetRef` as given when the click stays where it landed and under the settled entity's own reference when it moved on; whatever the outcome, including a failed click, the new state is `AfterClick` of the old one, so only the current entity and the selection flag can change |
| Browser.BrowserWidget.Browse | resource/legacy_plugins/ftrackProvider/ftrackFoundryManager/ui/widgets/BrowserWidget.py:226-266 | the visits from a resolved entity succeed exactly when Settle does, and leave the state `AfterClick` of the old one, with the first entity recorded under the reference it was reached by |
| Browser.AfterClick | resource/legacy_plugins/ftrackProvider/ftrackFoundryManager/ui/widgets/BrowserWidget.py:226-266 | whatever the click leads to, only the current entity and the selection flag change; the clicked entity is recorded under the reference clicked, each later one under its own reference; a first entity whose check fails becomes current under the reference clicked and leaves the flag alone |
| Browser.AfterClickSettled | resource/legacy_plugins/ftrackProvider/ftrackFoundryManager/ui/widgets/BrowserWidget.py:226-266 | a click that settles leaves the settled entity current with its validity as the selection flag, under the reference clicked when the click did not move and under the settled entity's own reference when it did |
| Browser.ClickMovesOn | resource/legacy_plugins/ftrackProvider/ftrackFoundryManager/ui/widgets/BrowserWidget.py:226-266 | a click that moves on settles where a click on the next entity, under its own reference, settles, leaves the same state as that click, and never settles back on the clicked entity |
| FtrackBrowser.Configured | resource/legacy_plugins/ftrackProvider/ftrackFoundryManager/ui/FTrackBrowserWidget.py:36-88 | after the panel's setters, the browser filters on the nukescript or hieroproject component exactly for those specification types, filters on the img_main metadata key exactly for images, hides asset versions exactly for writes, disables shots and hides tasks and assets for shot specifications, shows tasks for file-like writes, hides assets under the publish locale, and has nothing selected (`isOfType` is modelled by `AssetApi.IsOfType`: the type itself or a dotted extension of it) |
| FtrackBrowser.AssetNameShown | resource/legacy_plugins/ftrackProvider/ftrackFoundryManager/ui/FTrackBrowserWidget.py:23-77 | the asset-name box is hidden for multiple selections, for reads of a non-grouping specification, for writes of a non-file specification and for shot specifications, and shown for a plain write of a file specification outside the publish locale |
| FtrackBrowser.FromVersion | resource/legacy_plugins/ftrackProvider/ftrackFoundryManager/ui/FTrackBrowserWidget.py:111-133 | for nukescript and hrox specifications a read captures the component of that name, and raises FTrackError naming it exactly when the version has none (`getComponent(name=...)`); with no name, the version's only component, else the clicked reference with the valid-selection flag cleared, which happens exactly when no name applies and the version has not exactly one component |
| FtrackBrowser.Captured | resource/legacy_plugins/ftrackProvider/ftrackFoundryManager/ui/FTrackBrowserWidget.py:106-137 | outside reads the clicked reference is kept as it is; under read the capture raises exactly when the reference is unknown (with the lookup's error), names an asset without versions (IndexError), or the latest version (of the asset, or the version clicked) lacks the named component (FTrackError); otherwise an asset's result is FromVersion of its last version, a version's is FromVersion of itself, anything else keeps the reference |
| FtrackBrowser.WithAssetName | resource/legacy_plugins/ftrackProvider/ftrackFoundryManager/ui/FTrackBrowserWidget.py:149-151 | each stored selection keeps its place and its text and gains exactly the asset-name parameter and the name |
| FtrackBrowser.WithAssetNameElements | resource/legacy_plugins/ftrackProvider/ftrackFoundryManager/ui/FTrackBrowserWidget.py:150-151 | element i of the suffixed list is element i of the selection with "&assetName=" and the name appended |
| FtrackBrowser.AssetNameOverride | resource/legacy_plugins/ftrackProvider/ftrackFoundryManager/ui/FTrackBrowserWidget.py:144-148 | there is an override name exactly when the box is checked and the text is not empty |
| FtrackBrowser.WithAssetNameNotIdempotent | resource/legacy_plugins/ftrackProvider/ftrackFoundryManager/ui/FTrackBrowserWidget.py:149-152 | because the suffix is written back into the stored selection, a second call appends it again: the stored selection grows with every call |
| FtrackBrowser.ConfigureAccess | resource/legacy_plugins/ftrackProvider/ftrackFoundryManager/ui/FTrackBrowserWidget.py:36-63 | on a fresh browser, tasks end hidden exactly for reads of a non-grouping specification and asset versions hidden exactly for writes |
| FtrackBrowser.ConfigureFilters | resource/legacy_plugins/ftrackProvider/ftrackFoundryManager/ui/FTrackBrowserWidget.py:49-58 | only the component and meta filters change, to the configured ones |
| FtrackBrowser.ConfigureKind | resource/legacy_plugins/ftrackProvider/ftrackFoundryManager/ui/FTrackBrowserWidget.py:67-88 | the shot and file-like branches set assets and shots-enabled to their configured values and override tasks only in the branches that set them; nothing else changes |
| FtrackBrowser.FTrackBrowserWidget.constructor | resource/legacy_plugins/ftrackProvider/ftrackFoundryManager/ui/FTrackBrowserWidget.py:15-90 | the new panel wraps a fresh browser with the same specification and context, in the configured state, with the asset-name box shown exactly when AssetNameShown says so, the versions list hidden exactly for writes, and an empty selection |
| FtrackBrowser.FTrackBrowserWidget.PickComponent | resource/legacy_plugins/ftrackProvider/ftrackFoundryManager/ui/FTrackBrowserWidget.py:111-133 | the component chosen for a version, or the FTrackError of a missing named component, is what FromVersion describes |
| FtrackBrowser.FTrackBrowserWidget.Capture | resource/legacy_plugins/ftrackProvider/ftrackFoundryManager/ui/FTrackBrowserWidget.py:106-133 | the lookup and descent compute exactly Captured |
| FtrackBrowser.FTrackBrowserWidget.CaptureSelection | resource/legacy_plugins/ftrackProvider/ftrackFoundryManager/ui/FTrackBrowserWidget.py:106-138 | a successful capture stores exactly the captured reference as a one-element selection and clears the browser's valid flag only where Captured says so; a capture that raises (unknown reference, asset without versions, missing named component) leaves the selection and the browser unchanged |
| FtrackBrowser.FTrackBrowserWidget.GetSelection | resource/legacy_plugins/ftrackProvider/ftrackFoundryManager/ui/FTrackBrowserWidget.py:143-152 | with an override name the stored selection becomes the suffixed list, otherwise it is unchanged; the stored list is returned |
| ShotPreset.Initialised | resource/legacy_plugins/theFoundry/assetmgr_hiero/nukeExporter/FnNukeShotPreset.py:13-45 | the properties hold every default key and every loaded key; a loaded value overrides its default and every other default stays |
| ShotPreset.NukeShotPreset.constructor | resource/legacy_plugins/theFoundry/assetmgr_hiero/nukeExporter/FnNukeShotPreset.py:9-45 | the new preset keeps its name and holds the defaults overridden by the loaded properties; in particular assets are used, the script is published, tracks are not connected, the method is "Blend" and the post-process script runs unless loaded otherwise |
| ShotPreset.ExtResolver | resource/legacy_plugins/theFoundry/assetmgr_hiero/nukeExporter/FnNukeShotPreset.py:47-51 | the {ext} token resolves to "nknc" exactly under a non-commercial Nuke and to "nk" exactly otherwise |
| ShotPreset.NukeShotPreset.PropertiesForPathCallbacks | resource/legacy_plugins/theFoundry/assetmgr_hiero/nukeExporter/FnNukeShotPreset.py:56-60 | the path properties are the read, write and annotation pre-comp path lists, in that order |
| ShotPreset.Occurrences | resource/legacy_plugins/theFoundry/assetmgr_hiero/nukeExporter/FnNukeShotPreset.py:79-83 | a path occurs at most as often as the list is long, and zero times exactly when it is absent |
| ShotPreset.RemoveFirst | resource/legacy_plugins/theFoundry/assetmgr_hiero/nukeExporter/FnNukeShotPreset.py:82 | list.remove drops exactly one element |
| ShotPreset.FirstIndex | resource/legacy_plugins/theFoundry/assetmgr_hiero/nukeExporter/FnNukeShotPreset.py:82 | the position list.remove removes holds the value and no earlier position does |
| ShotPreset.OnlyOccurrence | resource/legacy_plugins/theFoundry/assetmgr_hiero/nukeExporter/FnNukeShotPreset.py:79-83 | a value that occurs once occurs neither before nor after that position |
| ShotPreset.RewriteFrom | resource/legacy_plugins/theFoundry/assetmgr_hiero/nukeExporter/FnNukeShotPreset.py:80-83 | the loop as written, iterating by position while it removes and appends, keeps the list's length |
| ShotPreset.RewriteAsWritten | resource/legacy_plugins/theFoundry/assetmgr_hiero/nukeExporter/FnNukeShotPreset.py:79-83 | the list after the callback as written has the same length |
| ShotPreset.RewriteFromUntouched | resource/legacy_plugins/theFoundry/assetmgr_hiero/nukeExporter/FnNukeShotPreset.py:80-83 | from a position past every occurrence of the old path, the loop changes nothing |
| ShotPreset.ListWithoutOldUnchanged | resource/legacy_plugins/theFoundry/assetmgr_hiero/nukeExporter/FnNukeShotPreset.py:79-83 | a path list that does not reference the old path is left exactly as it was |
| ShotPreset.RewriteFromSkips | resource/legacy_plugins/theFoundry/assetmgr_hiero/nukeExporter/FnNukeShotPreset.py:80-83 | before the first occurrence of the old path the loop only moves on |
| ShotPreset.RewriteSingle | resource/legacy_plugins/theFoundry/assetmgr_hiero/nukeExporter/FnNukeShotPreset.py:79-83 | when the old path occurs once and differs from the new one, the callback as written removes it from its place and appends the new path at the end |
| ShotPreset.RewriteAsWrittenSkips | resource/legacy_plugins/theFoundry/assetmgr_hiero/nukeExporter/FnNukeShotPreset.py:79-83 | the loop as written skips the element after a removal: [old, old] becomes [old, new], still referencing the old path, while the intended rewrite removes both |
| ShotPreset.RewriteListAsWritten | resource/legacy_plugins/theFoundry/assetmgr_hiero/nukeExporter/FnNukeShotPreset.py:80-83 | the loop over one list, mutating it while iterating, computes exactly RewriteAsWritten |
| ShotPreset.Without | resource/legacy_plugins/theFoundry/assetmgr_hiero/nukeExporter/FnNukeShotPreset.py:82 | removing every occurrence leaves no occurrence, shortens the list by the number of occurrences and adds nothing new |
| ShotPreset.WithoutAbsent | resource/legacy_plugins/theFoundry/assetmgr_hiero/nukeExporter/FnNukeShotPreset.py:82 | removing an absent path changes nothing |
| ShotPreset.WithoutSplit | resource/legacy_plugins/theFoundry/assetmgr_hiero/nukeExporter/FnNukeShotPreset.py:82 | removing the only occurrence leaves the list around it |
| ShotPreset.Rewrite | resource/legacy_plugins/theFoundry/assetmgr_hiero/nukeExporter/FnNukeShotPreset.py:75-83 | the intended rewrite keeps the list's length, leaves no reference to the old path, references the new path whenever the old one was referenced, and introduces no other path |
| ShotPreset.RewriteAgreesWhenSingle | resource/legacy_plugins/theFoundry/assetmgr_hiero/nukeExporter/FnNukeShotPreset.py:79-83 | whenever the old path occurs at most once (and differs from the new one) the intended rewrite and the loop as written give the same list |
| ShotPreset.KeepOthers | resource/legacy_plugins/theFoundry/assetmgr_hiero/nukeExporter/FnNukeShotPreset.py:82 | the loop keeps exactly the entries other than the old path, in order |
| ShotPreset.CountOccurrences | resource/legacy_plugins/theFoundry/assetmgr_hiero/nukeExporter/FnNukeShotPreset.py:80-81 | the loop counts exactly the occurrences of the old path |
| ShotPreset.RewriteList | resource/legacy_plugins/theFoundry/assetmgr_hiero/nukeExporter/FnNukeShotPreset.py:79-83 | the loops compute exactly the intended rewrite of one list |
| ShotPreset.NukeShotPreset.RewritePathProperty | resource/legacy_plugins/theFoundry/assetmgr_hiero/nukeExporter/FnNukeShotPreset.py:79-83 | only the given path property changes, to the intended rewrite of its list; every path property stays a list |
| ShotPreset.NukeShotPreset.OnElementPathChanged | resource/legacy_plugins/theFoundry/assetmgr_hiero/nukeExporter/FnNukeShotPreset.py:75-83 | the read, write and annotation path lists each become their intended rewrite and every other property is unchanged |

## Left out

- Qt widgets, layouts, icons, fonts, table cells, signals and the create dialog are left out: they are user-interface toolkit code. The browser keeps only its fields and the decisions that set them.
- `populateBookmarks`, `levelUp`, `setStartLocation`, `showCreateDialog`, `BrowserWidget.setSelection` and `getCorrectIcon` are left out: they only drive table cells, icons and dialogs around `updateMainWidget`.
- `updateMainWidget`'s listing of children, tasks and assets (sorting, bold, italic and disabled cells) is left out: it only fills the main table. The model keeps the validity check, the descent from asset to version to component, and the browsing state.
- `FTrackBrowserWidget.__init__` is also left out where it uses the `referenceHint` field or the `FTRACK_TASKID` environment variable to pick a start location. That path reads the environment and drives the table.
- Browser.AssetVersions: `getVersions(componentNames=...)` is an ftrack server query. The model keeps a version when one of its components matches a filter name.
- Browser.MatchesAny: the component-against-name equality Python applies in `comp in compFilter` belongs to the ftrack API. It is the parameter `eq`.
- Retimes and floating point are left out: `playbackSpeed`, rounding of float products, the OFlow node and its key-frame curve, and the `%f` formats. The playback rate is fixed at +1, or -1 for a reversed item.
- The contents of the metadata, reformat and LUT nodes of the Nuke export are left out, as are QuickTime detection and the colour-transform lookup. These are taken as parameters.
- `_Sequence_addToNukeScript`, `_Format_addToNukeScript`, the sub-track items and effects of `_addTrackSubTrackItems`, and the per-track additional-nodes callback are left out: they only create Nuke nodes from host objects.
- `offsetNodeAnimationFrames` is left out: `_nuke` is never imported in its file, so the function does nothing.
- The path properties of the shot preset are assumed to stay lists. A loaded property that replaces one with another type is left out, as is aliasing between the lists.
- `initialiseCallbacks` is left out: it registers callbacks on Hiero export elements.
- Nuke knob value types are reduced to strings. A tab knob's value counts as the empty string.
- The hook's filesystem discovery of applications and its environment-path editing (ftrack_connect_legacy_plugins_hook.py lines 122-294) are left out, as are the event-hub subscriptions, `get_version_information` and the launcher's own launch. These are platform and plugin-loading plumbing.
- A stored application without an 'identifier' or 'label' key (a KeyError in `discover`) is left out: the application record always has both.
- `getInfo`, `initialize` (network proxy, environment lookups), `getIdentifier` and `getDisplayName` are left out: they are constants or environment reads.
- `managementPolicy`, `getDefaultEntityReference`, `resolveInlineEntityReferences`, `containsEntityReference` and `resolveEntityReferences` (which raise NotImplementedError or return fixed values) and `setRelatedReferences` (a no-op) are left out: they make no decision.
- `preProcessMeta`'s 'status' lookup is left out: it compares a status name with the status object itself, which never matches, so the lookup cannot succeed.
- `getFileFromUrl`, `getFtrackQNetworkProxy` and `register_scheme` are left out: they are network plumbing.
- Publishing's thumbnails, `os.path.isfile`, the `os.stat`/`os.chmod` calls of `lockFile` and `version.publish()` are left out: they are file and server effects. The model keeps only the mode mask of `lockFile`.
- The ftrack server is an abstract entity store. Identifiers of new entities are parameters, distinct and unused.
- Utils.GetPathUnders: only the '_' join is proved to split back into its parts. The ' / ' and '.' joins are defined but get no round-trip lemma, because a multi-character separator cannot be split on one character.
- UrlSplit: it gives the parts `urlsplit` computes without its final check of the network location. A network location holding one of '[' and ']' without the other, where Python raises ValueError, is only described by UrlSplitChecked.
- IsEntityReference: it splits with UrlSplit, so a token whose network location holds an unbalanced '[' or ']' gives False here where Python raises ValueError.
- TargetAssetNameFromRef: it splits with UrlSplit, so a reference whose network location holds an unbalanced '[' or ']' is read here where Python raises ValueError.
- Lookup: `objectById` splits with UrlSplit, so a reference whose network location holds an unbalanced '[' or ']' is looked up here by that network location, where Python raises ValueError.
- NukeHelpers.SourceNode: the Read node's `label` knob, set from `nodeLabel`, is not modelled, like the other knob contents of the export nodes. Nor is the blocking 'hieroToNukeScriptAddClip' event that `useEntityRefs` fires with the Read node. That event's handler, which adds the ftrack knobs to the Read node, is modelled on its own as Events.HieroToNukeAddClip.
- NukeHelpers.ClipNodes: through SourceNode, it leaves out the Read node's label and the 'hieroToNukeScriptAddClip' event of every file.
- Interface.SetMetadataEffects: `obj.setMeta(data)` is taken to replace the entity's whole meta with `data`. Without `merge` that is the popped dictionary; with it, the existing meta updated by that dictionary. The ftrack API's own behaviour of `setMeta` is not part of this model. The same holds for Interface.SetMetadataWithEffects and Interface.FTrackInterface.SetEntityMetadata.
- FnAssetAPI, FnNukeShotExporter.py, loadAssetSystem.py, FTrackPlugin.py and the UI widget files other than the two browser files are not part of this model.

## Findings

| source | as written | input that shows it | evidently intended | confidence | as-written member | corrected member |
|---|---|---|---|---|---|---|
| resource/legacy_plugins/ftrackProvider/ftrackFoundryManager/FTrackGetRelated.py:148-152 | with 'latestapproved', the loop variable rebinds `version` to a version object, so later assets no longer compare equal to 'latestapproved' and reuse the first asset's target version | two image assets with versions under the tasks, the first with an approved version | each asset contributes the img_main components of its own latest approved version | not executed | GetRelated.AsWrittenLatestApprovedRepeats | GetRelated.RefsOfTwoAssets |
| resource/legacy_plugins/theFoundry/assetmgr_hiero/nukeExporter/FnNukeShotPreset.py:79-83 | `onElementPathChanged` removes from and appends to the list it iterates, so the element after a removal is skipped | a path list [old, old] | every reference to the old path becomes the new path, here [new, new] | not executed | ShotPreset.RewriteAsWrittenSkips | ShotPreset.RewriteAgreesWhenSingle |
| resource/legacy_plugins/ftrackProvider/ftrackFoundryManager/FTrackInterface.py:301-313 | `setEntityMetadataEntry` stores the value in meta under the native key instead of the field name, so `getEntityMetadataEntry` cannot read it back | a project and the field name that maps to 'fstart' | the entry reads back as the value just set | not executed | Interface.AsWrittenEntryLost | Interface.SetEntryRoundTrip |
