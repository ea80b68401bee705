/**
 * The frame arithmetic Hiero uses when it writes a timeline out as a Nuke
 * script: the read range of a clip, the handles and output range of a track
 * item, the gap filling and dissolves of a video track, and the split of a
 * sequence's tracks into connected and disconnected ones. Retimes are left
 * out: the playback rate is +1, or -1 for a reversed item.
 */
module NukeHelpers {
  import opened Wrappers
  import opened Seqs
  import opened Text

  function Min(a: int, b: int): int { if a <= b then a else b }
  function Max(a: int, b: int): int { if a <= b then b else a }

  // ---------------------------------------------------------------------------
  // Clone tags

  /** A tag on a clip, track item, track or sequence; `guid` is its "tag.guid" metadata, when it has one. */
  datatype Tag = Tag(name: string, guid: Option<string>)

  const CloneTagName: string := "Clone"

  /** `_guidFromCloneTag`: the guid of the first tag named "Clone", or None. */
  function GuidFromCloneTag(tags: seq<Tag>): (r: Option<string>)
    ensures (forall i :: 0 <= i < |tags| ==> tags[i].name != CloneTagName) ==> r == None
    ensures forall i :: (0 <= i < |tags| && tags[i].name == CloneTagName
      && (forall j :: 0 <= j < i ==> tags[j].name != CloneTagName)) ==> r == tags[i].guid
  {
    if tags == [] then None
    else if tags[0].name == CloneTagName then tags[0].guid
    else GuidFromCloneTag(tags[1..])
  }

  // ---------------------------------------------------------------------------
  // Clips

  datatype FrameRange = FrameRange(first: int, last: int)

  /** The clip's soft trims: whether they are on, and their in and out times. */
  datatype SoftTrims = SoftTrims(enabled: bool, inTime: int, outTime: int)

  datatype Clip = Clip(sourceIn: int, duration: int, softTrims: SoftTrims, metadata: map<string, string>)

  /**
   * The frame range of the Read node for one media file of a clip: the whole
   * source when untrimmed; when trimmed, the soft trims if enabled, with
   * `trimStart`/`trimEnd` overriding each bound relative to the source start;
   * QuickTime media starts at frame 1, so both ends move up by one.
   */
  function ClipReadRange(c: Clip, quicktime: bool, trimmed: bool, trimStart: Option<int>, trimEnd: Option<int>)
    : (r: FrameRange)
    ensures var shift := if quicktime then 1 else 0;
      && (!trimmed ==> r == FrameRange(c.sourceIn + shift, c.sourceIn + c.duration - 1 + shift))
      && (trimmed && trimStart.Some? ==> r.first == trimStart.value + c.sourceIn + shift)
      && (trimmed && trimEnd.Some? ==> r.last == trimEnd.value + c.sourceIn + shift)
      && (trimmed && trimStart.None? && c.softTrims.enabled ==> r.first == c.softTrims.inTime + shift)
      && (trimmed && trimEnd.None? && c.softTrims.enabled ==> r.last == c.softTrims.outTime + shift)
      && (trimmed && trimStart.None? && !c.softTrims.enabled ==> r.first == c.sourceIn + shift)
      && (trimmed && trimEnd.None? && !c.softTrims.enabled ==> r.last == c.sourceIn + c.duration - 1 + shift)
  {
    var startFrame := c.sourceIn;
    var start := startFrame;
    var end := start + c.duration - 1;
    var start := if trimmed && c.softTrims.enabled then c.softTrims.inTime else start;
    var end := if trimmed && c.softTrims.enabled then c.softTrims.outTime else end;
    var start := if trimmed && trimStart.Some? then trimStart.value + startFrame else start;
    var end := if trimmed && trimEnd.Some? then trimEnd.value + startFrame else end;
    if quicktime then FrameRange(start + 1, end + 1) else FrameRange(start, end)
  }

  /** The metadata key a clip's colourspace is read from. */
  const ColourspaceKey: string := "clip.properties.colourspacename"

  /** Extensions that never get an OCIO node. */
  const OcioExclusions: seq<string> := ["r3d", "ari", "arri", "arriraw"]

  /**
   * The colour transform of a clip: the one given, or else the clip's
   * colourspace metadata unless it names a default.
   */
  function ColourTransformOf(given: Option<string>, metadata: map<string, string>): (r: Option<string>)
    ensures given.Some? ==> r == given
    ensures given.None? && r.Some? ==> ColourspaceKey in metadata && r.value == metadata[ColourspaceKey]
    ensures given.None? && r.Some? ==> !("default" <= r.value)
    ensures given.None? && ColourspaceKey in metadata && !("default" <= metadata[ColourspaceKey]) ==> r.Some?
  {
    if given.Some? then given
    else if ColourspaceKey in metadata then
      var t := metadata[ColourspaceKey];
      if "default" <= t then None else Some(t)
    else None
  }

  /** One media file of a clip's source, with its lower-cased extension (no dot) and whether it is QuickTime. */
  datatype FileInfo = FileInfo(filename: string, ext: string, quicktime: bool)

  /**
   * The options a caller passes to a clip's `addToNukeScript`. `lutGroups`
   * stands for `hiero.core.LUTGroup`: the LUT group of a colour transform,
   * where an absent or empty entry means none.
   */
  datatype ClipOptions = ClipOptions(
    firstFrame: Option<int>,
    trimmed: bool,
    trimStart: Option<int>,
    trimEnd: Option<int>,
    useOCIO: bool,
    colourTransform: Option<string>,
    lutGroups: map<string, string>,
    metadataNodeGiven: bool,
    enabled: bool,
    additionalNodes: seq<Option<string>>)

  /** A node added to the script, with the knobs the rules above set on it. */
  datatype ScriptNode =
    | ReadNode(file: string, range: FrameRange, startAt: Option<int>, colourspace: Option<string>, disabled: bool)
    | PrecompNode(file: string, colourspace: Option<string>, disabled: bool)
    | TimeClipNode(range: FrameRange, frame: int)
    | OcioNode(ocioColourspace: string)
    | AddChannelsNode
    | MetadataNode
    | AdditionalNode(name: string, disabled: bool)

  /**
   * The place of each kind of node among the nodes of one media file: the
   * source node, TimeClip, OCIO, AddChannels, Metadata, then the additional
   * nodes.
   */
  function NodeRank(n: ScriptNode): nat
  {
    if n.ReadNode? || n.PrecompNode? then 0
    else if n.TimeClipNode? then 1
    else if n.OcioNode? then 2
    else if n.AddChannelsNode? then 3
    else if n.MetadataNode? then 4
    else 5
  }

  predicate EndsWith(s: string, suffix: string)
  {
    |suffix| <= |s| && s[|s| - |suffix|..] == suffix
  }

  /** Whether an OCIO node is added for this file. */
  predicate UsesOcio(transform: Option<string>, useOCIO: bool, ext: string)
  {
    transform.Some? && useOCIO && ext !in OcioExclusions
  }

  /** The colourspace of an OCIO node: the transform, prefixed by its LUT group when it has one. */
  function OcioName(transform: string, lutGroups: map<string, string>): (r: string)
    ensures EndsWith(r, transform)
    ensures (transform in lutGroups && lutGroups[transform] != "") <==> |r| > |transform|
  {
    if transform in lutGroups && lutGroups[transform] != "" then
      var r := lutGroups[transform] + "/" + transform;
      assert r[|r| - |transform|..] == transform;
      r
    else transform
  }

  /** The additional nodes that are not None, in order, each disabled when the clip is. */
  function AdditionalNodes(names: seq<Option<string>>, enabled: bool): (r: seq<ScriptNode>)
    ensures |r| <= |names|
    ensures forall i :: 0 <= i < |r| ==> r[i].AdditionalNode? && r[i].disabled == !enabled
    ensures forall i :: 0 <= i < |names| && names[i].Some? ==> AdditionalNode(names[i].value, !enabled) in r
    ensures forall i :: 0 <= i < |r| ==> Some(r[i].name) in names
    ensures |names| == 1 ==> r == (if names[0].Some? then [AdditionalNode(names[0].value, !enabled)] else [])
  {
    if names == [] then []
    else
      var rest := AdditionalNodes(names[1..], enabled);
      assert forall x :: x in names[1..] ==> x in names;
      (if names[0].Some? then [AdditionalNode(names[0].value, !enabled)] else []) + rest
  }

  /** The nodes for a concatenation are those of each part in turn: the order of the names is kept. */
  lemma {:induction false} AdditionalNodesAppend(a: seq<Option<string>>, b: seq<Option<string>>, enabled: bool)
    ensures AdditionalNodes(a + b, enabled) == AdditionalNodes(a, enabled) + AdditionalNodes(b, enabled)
    decreases |a|
  {
    if a == [] {
      assert a + b == b;
    } else {
      assert (a + b)[0] == a[0];
      assert (a + b)[1..] == a[1..] + b;
      AdditionalNodesAppend(a[1..], b, enabled);
      var head := if a[0].Some? then [AdditionalNode(a[0].value, !enabled)] else [];
      AppendAssoc(head, AdditionalNodes(a[1..], enabled), AdditionalNodes(b, enabled));
    }
  }

  /** When every name is present, each gives one node, in the same order. */
  lemma {:induction false} AdditionalNodesAllPresent(names: seq<Option<string>>, enabled: bool)
    requires forall i :: 0 <= i < |names| ==> names[i].Some?
    ensures var r := AdditionalNodes(names, enabled);
      |r| == |names| && forall i :: 0 <= i < |r| ==> r[i] == AdditionalNode(names[i].value, !enabled)
    decreases |names|
  {
    if names != [] {
      AdditionalNodesAllPresent(names[1..], enabled);
    }
  }

  /**
   * The Read node, or a Precomp node for a Nuke script, that heads the nodes
   * of one media file. Under OCIO its colourspace is "linear"; otherwise a
   * Read node takes the colour transform and a Precomp node none.
   */
  function SourceNode(c: Clip, fi: FileInfo, opts: ClipOptions): (r: ScriptNode)
    ensures r.ReadNode? <==> !EndsWith(fi.filename, ".nk")
    ensures r.PrecompNode? <==> EndsWith(fi.filename, ".nk")
    ensures NodeRank(r) == 0 && r.file == fi.filename && r.disabled == !opts.enabled
    ensures r.ReadNode? ==> r.range == ClipReadRange(c, fi.quicktime, opts.trimmed, opts.trimStart, opts.trimEnd)
    ensures r.ReadNode? ==> r.startAt == opts.firstFrame
    ensures var transform := ColourTransformOf(opts.colourTransform, c.metadata);
      r.colourspace == (if UsesOcio(transform, opts.useOCIO, fi.ext) then Some("linear")
                        else if r.ReadNode? then transform else None)
  {
    var range := ClipReadRange(c, fi.quicktime, opts.trimmed, opts.trimStart, opts.trimEnd);
    var isRead := !EndsWith(fi.filename, ".nk");
    var transform := ColourTransformOf(opts.colourTransform, c.metadata);
    var colourspace :=
      if UsesOcio(transform, opts.useOCIO, fi.ext) then Some("linear")
      else if transform.Some? && isRead then transform
      else None;
    if isRead then ReadNode(fi.filename, range, opts.firstFrame, colourspace, !opts.enabled)
    else PrecompNode(fi.filename, colourspace, !opts.enabled)
  }

  /** Each node ranked strictly below the next, hence below every later one. */
  predicate StrictlyRanked(r: seq<ScriptNode>)
  {
    |r| <= 1 || (NodeRank(r[0]) < NodeRank(r[1]) && StrictlyRanked(r[1..]))
  }

  /** In a strictly ranked sequence every node ranks at least as high as the first. */
  lemma {:induction false} StrictlyRankedFirst(r: seq<ScriptNode>)
    requires StrictlyRanked(r)
    ensures forall i :: 0 <= i < |r| ==> NodeRank(r[0]) <= NodeRank(r[i])
    decreases |r|
  {
    if |r| > 1 {
      StrictlyRankedFirst(r[1..]);
      assert forall i :: 1 <= i < |r| ==> r[i] == r[1..][i - 1];
    }
  }

  /** At most one node placed below the first of a strictly ranked sequence keeps it strictly ranked. */
  lemma RankedPrepend(p: seq<ScriptNode>, rest: seq<ScriptNode>)
    requires |p| <= 1 && StrictlyRanked(rest)
    requires p != [] && rest != [] ==> NodeRank(p[0]) < NodeRank(rest[0])
    ensures StrictlyRanked(p + rest)
    ensures p + rest != [] ==> (p + rest)[0] == if p != [] then p[0] else rest[0]
  {
    if p == [] {
      assert p + rest == rest;
    } else {
      assert (p + rest)[1..] == rest;
    }
  }

  /** The TimeClip node of a Nuke-script precomp that is given a first frame. */
  function TimeClipPart(c: Clip, fi: FileInfo, opts: ClipOptions): (r: seq<ScriptNode>)
    ensures |r| <= 1
    ensures r != [] <==> EndsWith(fi.filename, ".nk") && opts.firstFrame.Some?
    ensures forall n :: n in r ==>
      EndsWith(fi.filename, ".nk") && opts.firstFrame.Some?
      && n == TimeClipNode(ClipReadRange(c, fi.quicktime, opts.trimmed, opts.trimStart, opts.trimEnd), opts.firstFrame.value)
    ensures forall n :: n in r ==> NodeRank(n) == 1
  {
    if EndsWith(fi.filename, ".nk") && opts.firstFrame.Some? then
      [TimeClipNode(ClipReadRange(c, fi.quicktime, opts.trimmed, opts.trimStart, opts.trimEnd), opts.firstFrame.value)]
    else []
  }

  /** The OCIO node of one media file, when the colour transform calls for one. */
  function OcioPart(transform: Option<string>, opts: ClipOptions, ext: string): (r: seq<ScriptNode>)
    ensures |r| <= 1
    ensures r != [] <==> UsesOcio(transform, opts.useOCIO, ext)
    ensures forall n :: n in r ==> UsesOcio(transform, opts.useOCIO, ext) && n == OcioNode(OcioName(transform.value, opts.lutGroups))
    ensures forall n :: n in r ==> NodeRank(n) == 2
  {
    if UsesOcio(transform, opts.useOCIO, ext) then [OcioNode(OcioName(transform.value, opts.lutGroups))] else []
  }

  /** An AddChannels node for a disabled clip, then a Metadata node unless the caller gave one. */
  function FlagPart(opts: ClipOptions): (r: seq<ScriptNode>)
    ensures AddChannelsNode in r <==> !opts.enabled
    ensures MetadataNode in r <==> !opts.metadataNodeGiven
    ensures forall n :: n in r ==> n == AddChannelsNode || n == MetadataNode
    ensures forall n :: n in r ==> 3 <= NodeRank(n) <= 4
    ensures StrictlyRanked(r)
  {
    var channels := if !opts.enabled then [AddChannelsNode] else [];
    var metadata := if !opts.metadataNodeGiven then [MetadataNode] else [];
    RankedPrepend(channels, metadata);
    channels + metadata
  }

  /**
   * The nodes between the source node and the additional nodes, given the
   * clip's colour transform.
   */
  function MiddleNodes(c: Clip, fi: FileInfo, opts: ClipOptions, transform: Option<string>): seq<ScriptNode>
  {
    TimeClipPart(c, fi, opts) + (OcioPart(transform, opts, fi.ext) + FlagPart(opts))
  }

  /** The middle nodes are in rank order: each kind at most once, all ranked above the source node. */
  lemma MiddleNodesRanked(c: Clip, fi: FileInfo, opts: ClipOptions, transform: Option<string>)
    ensures var r := MiddleNodes(c, fi, opts, transform);
      && StrictlyRanked(r)
      && forall n :: n in r ==> 1 <= NodeRank(n) <= 4
  {
    RankedMiddle(TimeClipPart(c, fi, opts), OcioPart(transform, opts, fi.ext), FlagPart(opts));
  }

  /** A TimeClip part, an OCIO part and the flag nodes, each in its rank band, join in rank order. */
  lemma RankedMiddle(timeClip: seq<ScriptNode>, ocioNode: seq<ScriptNode>, flags: seq<ScriptNode>)
    requires |timeClip| <= 1 && |ocioNode| <= 1 && StrictlyRanked(flags)
    requires forall n :: n in timeClip ==> NodeRank(n) == 1
    requires forall n :: n in ocioNode ==> NodeRank(n) == 2
    requires forall n :: n in flags ==> 3 <= NodeRank(n) <= 4
    ensures StrictlyRanked(timeClip + (ocioNode + flags))
    ensures forall n :: n in timeClip + (ocioNode + flags) ==> 1 <= NodeRank(n) <= 4
  {
    RankedPrepend(ocioNode, flags);
    var rest := ocioNode + flags;
    assert forall n :: n in rest ==> 2 <= NodeRank(n) <= 4;
    assert rest != [] ==> rest[0] in rest;
    RankedPrepend(timeClip, rest);
  }

  /**
   * A TimeClip for a precomp with a first frame, an OCIO node with the
   * LUT-group-prefixed colourspace exactly when OCIO applies, an AddChannels
   * node exactly when disabled and a Metadata node exactly unless one was
   * given.
   */
  lemma MiddleNodesContents(c: Clip, fi: FileInfo, opts: ClipOptions, transform: Option<string>)
    ensures var r := MiddleNodes(c, fi, opts, transform);
      && (forall n :: n in r && n.TimeClipNode? ==>
            EndsWith(fi.filename, ".nk") && opts.firstFrame.Some?
            && n == TimeClipNode(ClipReadRange(c, fi.quicktime, opts.trimmed, opts.trimStart, opts.trimEnd), opts.firstFrame.value))
      && (EndsWith(fi.filename, ".nk") && opts.firstFrame.Some? ==>
            r != [] && r[0] == TimeClipNode(ClipReadRange(c, fi.quicktime, opts.trimmed, opts.trimStart, opts.trimEnd), opts.firstFrame.value))
      && (forall n :: n in r && n.OcioNode? ==>
            UsesOcio(transform, opts.useOCIO, fi.ext) && n == OcioNode(OcioName(transform.value, opts.lutGroups)))
      && (UsesOcio(transform, opts.useOCIO, fi.ext) ==> OcioNode(OcioName(transform.value, opts.lutGroups)) in r)
      && (AddChannelsNode in r <==> !opts.enabled)
      && (MetadataNode in r <==> !opts.metadataNodeGiven)
  {
    var timeClip := TimeClipPart(c, fi, opts);
    var ocioNode := OcioPart(transform, opts, fi.ext);
    var flags := FlagPart(opts);
    var r := timeClip + (ocioNode + flags);
    assert forall n :: n in r <==> n in timeClip || n in ocioNode || n in flags;
  }

  /**
   * The nodes `addToNukeScript` adds for one media file of a clip: the Read
   * node (a Precomp node for a Nuke script), then the middle nodes for the
   * colour transform the file sees, and the additional nodes last.
   */
  function FileNodes(c: Clip, fi: FileInfo, opts: ClipOptions): (r: seq<ScriptNode>)
    ensures var post := AdditionalNodes(opts.additionalNodes, opts.enabled);
      && |post| < |r|
      && r[0] == SourceNode(c, fi, opts)
      && r[1..|r| - |post|] == MiddleNodes(c, fi, opts, ColourTransformOf(opts.colourTransform, c.metadata))
      && r[|r| - |post|..] == post
    ensures MetadataNode in r <==> !opts.metadataNodeGiven
  {
    var source := SourceNode(c, fi, opts);
    var middle := MiddleNodes(c, fi, opts, ColourTransformOf(opts.colourTransform, c.metadata));
    var post := AdditionalNodes(opts.additionalNodes, opts.enabled);
    var r := [source] + middle + post;
    assert r[1..|r| - |post|] == middle;
    assert r[|r| - |post|..] == post;
    assert MetadataNode !in post;
    MiddleNodesContents(c, fi, opts, ColourTransformOf(opts.colourTransform, c.metadata));
    r
  }

  /** The nodes before the additional ones are in rank order: source, TimeClip, OCIO, AddChannels, Metadata. */
  lemma FileNodesRanked(c: Clip, fi: FileInfo, opts: ClipOptions)
    ensures var r := FileNodes(c, fi, opts);
      var post := AdditionalNodes(opts.additionalNodes, opts.enabled);
      StrictlyRanked(r[..|r| - |post|])
  {
    var r := FileNodes(c, fi, opts);
    var middle := MiddleNodes(c, fi, opts, ColourTransformOf(opts.colourTransform, c.metadata));
    var post := AdditionalNodes(opts.additionalNodes, opts.enabled);
    MiddleNodesRanked(c, fi, opts, ColourTransformOf(opts.colourTransform, c.metadata));
    RankedPrepend([SourceNode(c, fi, opts)], middle);
    assert r[..|r| - |post|] == [SourceNode(c, fi, opts)] + middle;
  }

  /** The colour transform after one media file: the clip's, prefixed by its LUT group when an OCIO node was added. */
  function TransformAfter(c: Clip, fi: FileInfo, opts: ClipOptions): (r: Option<string>)
    ensures var transform := ColourTransformOf(opts.colourTransform, c.metadata);
      && (UsesOcio(transform, opts.useOCIO, fi.ext) ==> r == Some(OcioName(transform.value, opts.lutGroups)))
      && (!UsesOcio(transform, opts.useOCIO, fi.ext) ==> r == transform)
  {
    var transform := ColourTransformOf(opts.colourTransform, c.metadata);
    if UsesOcio(transform, opts.useOCIO, fi.ext) then Some(OcioName(transform.value, opts.lutGroups)) else transform
  }

  /**
   * What the loop over the media files carries to the next file: the
   * Metadata node now exists, and `colourTransform` keeps its new value.
   */
  function NextFileOptions(c: Clip, fi: FileInfo, opts: ClipOptions): (r: ClipOptions)
    ensures r == opts.(metadataNodeGiven := true, colourTransform := TransformAfter(c, fi, opts))
  {
    opts.(metadataNodeGiven := true, colourTransform := TransformAfter(c, fi, opts))
  }

  /**
   * The nodes for every media file of a clip, in order; nothing for a clip
   * without media. One Metadata node serves all the files, and each file
   * after the first sees the colour transform as the previous one left it.
   */
  function ClipNodes(c: Clip, media: Option<seq<FileInfo>>, opts: ClipOptions): (r: seq<ScriptNode>)
    ensures media.None? ==> r == []
    ensures media.Some? ==> (r == [] <==> media.value == [])
    ensures media.Some? && media.value != [] ==>
      var first := FileNodes(c, media.value[0], opts);
      && |first| <= |r| && r[..|first|] == first
      && r[|first|..] == ClipNodes(c, Some(media.value[1..]), NextFileOptions(c, media.value[0], opts))
      && MetadataNode !in r[|first|..]
    ensures MetadataNode in r <==> media.Some? && media.value != [] && !opts.metadataNodeGiven
    decreases if media.Some? then |media.value| else 0
  {
    if media.None? || media.value == [] then []
    else
      var first := FileNodes(c, media.value[0], opts);
      var rest := ClipNodes(c, Some(media.value[1..]), NextFileOptions(c, media.value[0], opts));
      var r := first + rest;
      assert r[..|first|] == first && r[|first|..] == rest;
      r
  }

  // ---------------------------------------------------------------------------
  // Track items

  datatype Alignment = Dissolve | FadeIn | FadeOut | OtherAlignment

  datatype Transition = Transition(alignment: Alignment, timelineIn: int, timelineOut: int)

  /**
   * A track item: its cut on the timeline, its range in the source, its
   * length, its transitions and its clip.
   */
  datatype TrackItem = TrackItem(
    timelineIn: int,
    timelineOut: int,
    sourceIn: int,
    sourceOut: int,
    duration: int,
    inTransition: Option<Transition>,
    outTransition: Option<Transition>,
    clip: Clip,
    mediaPresent: bool)

  predicate IsDissolve(t: Option<Transition>)
  {
    t.Some? && t.value.alignment == Dissolve
  }

  /**
   * The handles that make the item cover its dissolve transitions, as
   * (in, out): each moves the item's end to the transition's end.
   */
  function TransitionHandles(item: TrackItem): (r: (int, int))
    ensures IsDissolve(item.inTransition) ==> item.timelineIn - r.0 == item.inTransition.value.timelineIn
    ensures IsDissolve(item.outTransition) ==> item.timelineOut + r.1 == item.outTransition.value.timelineOut
    ensures !IsDissolve(item.inTransition) ==> r.0 == 0
    ensures !IsDissolve(item.outTransition) ==> r.1 == 0
  {
    var outHandle := if IsDissolve(item.outTransition) then item.outTransition.value.timelineOut - item.timelineOut else 0;
    var inHandle := if IsDissolve(item.inTransition) then item.timelineIn - item.inTransition.value.timelineIn else 0;
    (inHandle, outHandle)
  }

  /**
   * The (in, out) handles in source order: the requested handles plus the
   * transition handles, crossed over for a reversed item.
   */
  function Handles(item: TrackItem, reversed: bool, startHandle: int, endHandle: int): (r: (int, int))
  {
    var (inT, outT) := TransitionHandles(item);
    if !reversed then (startHandle + inT, endHandle + outT)
    else (startHandle + outT, endHandle + inT)
  }

  /** Reversing an item swaps the role of its start and end handles. */
  lemma ReversedSwapsHandles(item: TrackItem, startHandle: int, endHandle: int)
    ensures Handles(item, true, startHandle, endHandle).0 == Handles(item, false, endHandle, startHandle).1
    ensures Handles(item, true, startHandle, endHandle).1 == Handles(item, false, endHandle, startHandle).0
  {
  }

  /** `if trimStart:`: a trim of None or zero moves nothing. */
  function TrimOf(trimStart: Option<int>): int
  {
    if trimStart.Some? then trimStart.value else 0
  }

  /**
   * The ranges `addToNukeScript` computes for a track item: the read range
   * in source frames (after clamping the handles to the media), the first
   * frame of the Read node's output, and the output frame range.
   */
  datatype ItemRange = ItemRange(readStart: int, readEnd: int, readFirstFrame: int, firstFrame: int, lastFrame: int)

  function TrackItemRange(item: TrackItem, reversed: bool, startHandle: Option<int>, endHandle: Option<int>,
                          firstFrame: Option<int>, trimStart: Option<int>, offset: int): (r: ItemRange)
    ensures var sh := if startHandle.Some? then startHandle.value else 0;
      var eh := if endHandle.Some? then endHandle.value else 0;
      var (inT, outT) := TransitionHandles(item);
      r.lastFrame - r.firstFrame == (item.duration - 1) + sh + eh + inT + outT - TrimOf(trimStart)
    ensures firstFrame.Some? ==> r.firstFrame == firstFrame.value + TrimOf(trimStart) + offset
    ensures firstFrame.None? ==>
      r.lastFrame == item.timelineIn + (item.duration - 1) + (if endHandle.Some? then endHandle.value else 0)
        + TransitionHandles(item).1 + offset
  {
    var sh := if startHandle.Some? then startHandle.value else 0;
    var eh := if endHandle.Some? then endHandle.value else 0;
    var (inT, outT) := TransitionHandles(item);
    var start := Min(item.sourceIn, item.sourceOut);
    var end := Max(item.sourceIn, item.sourceOut);
    var (inHandle, outHandle) := Handles(item, reversed, sh, eh);
    var readStartHandle := Min(start, inHandle);
    var readEndHandle := Min((item.clip.duration - 1) - end, outHandle);
    var start := start - readStartHandle;
    var end := end + readEndHandle;
    var readFirstFrame :=
      if firstFrame.None? then item.timelineIn - Min(Min(item.sourceIn, item.sourceOut), inHandle)
      else firstFrame.value + inHandle - readStartHandle;
    var trim := TrimOf(trimStart);
    var (first, last) :=
      if firstFrame.Some? then (firstFrame.value, firstFrame.value + (sh + inT) + (item.duration - 1) + (eh + outT))
      else (item.timelineIn - (sh + inT), item.timelineIn + (item.duration - 1) + (eh + outT));
    ItemRange(start + trim, end, readFirstFrame + trim + offset, first + trim + offset, last + offset)
  }

  /** The global offset moves every output frame and no read frame. */
  lemma OffsetShiftsOutput(item: TrackItem, reversed: bool, startHandle: Option<int>, endHandle: Option<int>,
                           firstFrame: Option<int>, trimStart: Option<int>, offset: int)
    ensures var a := TrackItemRange(item, reversed, startHandle, endHandle, firstFrame, trimStart, 0);
      var b := TrackItemRange(item, reversed, startHandle, endHandle, firstFrame, trimStart, offset);
      && b.readStart == a.readStart && b.readEnd == a.readEnd
      && b.readFirstFrame == a.readFirstFrame + offset
      && b.firstFrame == a.firstFrame + offset && b.lastFrame == a.lastFrame + offset
  {
  }

  /**
   * With non-negative handles and a source range inside the media, the read
   * range after adding the clamped handles still lies inside the media and
   * still covers the source range.
   */
  lemma HandlesStayInMedia(item: TrackItem, reversed: bool, startHandle: Option<int>, endHandle: Option<int>,
                           firstFrame: Option<int>, offset: int)
    requires var sh := if startHandle.Some? then startHandle.value else 0;
      var eh := if endHandle.Some? then endHandle.value else 0;
      Handles(item, reversed, sh, eh).0 >= 0 && Handles(item, reversed, sh, eh).1 >= 0
    requires 0 <= Min(item.sourceIn, item.sourceOut) && Max(item.sourceIn, item.sourceOut) <= item.clip.duration - 1
    ensures var r := TrackItemRange(item, reversed, startHandle, endHandle, firstFrame, None, offset);
      0 <= r.readStart <= Min(item.sourceIn, item.sourceOut)
      && Max(item.sourceIn, item.sourceOut) <= r.readEnd <= item.clip.duration - 1
  {
  }

  /**
   * The Read node of a track item reads exactly its read range: the range
   * handed to the clip overrides both trim bounds, whatever its soft trims.
   */
  lemma TrackItemReadRange(item: TrackItem, quicktime: bool, r: ItemRange)
    ensures var range := ClipReadRange(item.clip, quicktime, true, Some(r.readStart), Some(r.readEnd));
      && range.first == r.readStart + item.clip.sourceIn + (if quicktime then 1 else 0)
      && range.last - range.first == r.readEnd - r.readStart
  {
  }

  // ---------------------------------------------------------------------------
  // Video tracks

  /**
   * What a video track adds: gap-filling and fade Constants, the nodes of a
   * track item (summarised by its ranges) and AppendClip nodes, with a
   * dissolve length when they join across a dissolve or a fade.
   */
  datatype TrackNode =
    | GapNode(first: int, last: int)
    | BlackNode(first: int, last: int)
    | ItemNodes(range: ItemRange)
    | AppendNode(dissolve: Option<int>)

  /** The frames of a dissolve: out - in, plus one when that exceeds one. */
  function DissolveFrames(t: Transition): (r: int)
    ensures t.timelineOut - t.timelineIn > 1 ==> r == t.timelineOut - t.timelineIn + 1
    ensures t.timelineOut - t.timelineIn <= 1 ==> r == t.timelineOut - t.timelineIn
  {
    var d := t.timelineOut - t.timelineIn;
    if d > 1 then d + 1 else d
  }

  /** The dissolve set on the AppendClip that joins an item to the one after it. */
  function JoinDissolve(out: Option<Transition>): Option<int>
  {
    if IsDissolve(out) then Some(DissolveFrames(out.value)) else None
  }

  predicate IsFade(t: Option<Transition>, a: Alignment)
  {
    t.Some? && t.value.alignment == a
  }

  /**
   * The state of the walk from the end of the track: the timeline-in of the
   * last item placed (the sequence length before any), whether an item was
   * placed, whether the track ends in a gap, the nodes added so far and the
   * AppendClip nodes kept for the end.
   */
  datatype WalkState = WalkState(lastIn: int, seen: bool, startingWithGap: bool, added: seq<TrackNode>, appends: seq<TrackNode>)

  function InitialWalk(sequenceDuration: int): WalkState
  {
    WalkState(sequenceDuration, false, false, [], [])
  }

  /** Whether the walk places an item (offline items are skipped when asked). */
  predicate Placed(item: TrackItem, skipOffline: bool)
  {
    item.mediaPresent || !skipOffline
  }

  /**
   * The nodes placed for one item after its gap: a black node before a fade
   * out, the item's own nodes, a black node and its Append after a fade in,
   * and the Append of a fade out.
   */
  function PlacedNodes(item: TrackItem, offset: int): (r: seq<TrackNode>)
    ensures forall i :: 0 <= i < |r| ==> !r[i].GapNode?
    ensures var fadeIn := IsFade(item.inTransition, FadeIn);
      var fadeOut := IsFade(item.outTransition, FadeOut);
      var k := if fadeOut then 1 else 0;
      && |r| == 1 + (if fadeIn then 2 else 0) + (if fadeOut then 2 else 0)
      && r[k] == ItemNodes(TrackItemRange(item, false, None, None, None, if fadeIn then Some(1) else None, offset))
      && (fadeOut ==>
            && r[0] == BlackNode(item.outTransition.value.timelineIn + 1 + offset, item.outTransition.value.timelineOut + 1 + offset)
            && r[|r| - 1].AppendNode? && r[|r| - 1].dissolve == Some(r[0].last - r[0].first + 1))
      && (fadeIn ==>
            && r[k + 1] == BlackNode(item.inTransition.value.timelineIn + offset, item.inTransition.value.timelineOut + 1 + offset)
            && r[k + 2].AppendNode? && r[k + 2].dissolve == Some(r[k + 1].last - r[k + 1].first))
  {
    var fadeIn := IsFade(item.inTransition, FadeIn);
    var fadeOut := IsFade(item.outTransition, FadeOut);
    var fadeOutBlack :=
      if fadeOut then [BlackNode(item.outTransition.value.timelineIn + 1 + offset, item.outTransition.value.timelineOut + 1 + offset)]
      else [];
    var range := TrackItemRange(item, false, None, None, None, if fadeIn then Some(1) else None, offset);
    var fadeInNodes :=
      if fadeIn then
        [BlackNode(item.inTransition.value.timelineIn + offset, item.inTransition.value.timelineOut + 1 + offset),
         AppendNode(Some(item.inTransition.value.timelineOut - item.inTransition.value.timelineIn + 1))]
      else [];
    var fadeOutJoin :=
      if fadeOut then [AppendNode(Some(item.outTransition.value.timelineOut - item.outTransition.value.timelineIn + 1))]
      else [];
    fadeOutBlack + [ItemNodes(range)] + fadeInNodes + fadeOutJoin
  }

  /** One step of the walk: place one item, filling the gap after it. */
  function Step(st: WalkState, item: TrackItem, offset: int, skipOffline: bool): WalkState
  {
    if !Placed(item, skipOffline) then st
    else
      var gap := st.lastIn - item.timelineOut > 1;
      var startingWithGap := st.startingWithGap || (gap && !st.seen);
      var join := if st.seen || startingWithGap then [AppendNode(JoinDissolve(item.outTransition))] else [];
      WalkState(item.timelineIn, true, startingWithGap,
        st.added + GapNodes(st, item, offset) + PlacedNodes(item, offset),
        st.appends + join)
  }

  /** The walk over items in the order visited (last item of the track first). */
  function Walk(st: WalkState, items: seq<TrackItem>, offset: int, skipOffline: bool): WalkState
    decreases |items|
  {
    if items == [] then st else Walk(Step(st, items[0], offset, skipOffline), items[1..], offset, skipOffline)
  }

  /**
   * The nodes of `VideoTrack.addToNukeScript`: the walk from the end of the
   * track, a leading gap from frame 0 when the first item starts later, then
   * the kept AppendClip nodes in reverse.
   */
  function TrackNodes(items: seq<TrackItem>, sequenceDuration: int, offset: int, skipOffline: bool): seq<TrackNode>
  {
    var st := Walk(InitialWalk(sequenceDuration), Reverse(items), offset, skipOffline);
    st.added
      + (if st.seen && st.lastIn > 0 then [GapNode(0, st.lastIn - 1 + offset), AppendNode(None)] else [])
      + Reverse(st.appends)
  }

  /** The number of items the walk places. */
  function PlacedCount(items: seq<TrackItem>, skipOffline: bool): nat
  {
    if items == [] then 0 else (if Placed(items[0], skipOffline) then 1 else 0) + PlacedCount(items[1..], skipOffline)
  }

  /**
   * Every placed item after the first is joined to the one before it by
   * exactly one kept AppendClip; the first is joined too when the track ends
   * in a gap. Once an item is placed, whether the track ends in a gap is
   * settled.
   */
  lemma {:induction false} WalkAppendCount(st: WalkState, items: seq<TrackItem>, offset: int, skipOffline: bool)
    ensures var w := Walk(st, items, offset, skipOffline);
      && w.seen == (st.seen || PlacedCount(items, skipOffline) > 0)
      && (st.seen ==> w.startingWithGap == st.startingWithGap)
      && |w.appends| == |st.appends| + PlacedCount(items, skipOffline)
           - (if !st.seen && PlacedCount(items, skipOffline) > 0 && !w.startingWithGap then 1 else 0)
    decreases |items|
  {
    if items != [] {
      var st' := Step(st, items[0], offset, skipOffline);
      WalkAppendCount(st', items[1..], offset, skipOffline);
    }
  }

  /** Every gap node in `s` covers at least one frame. */
  predicate GapsNonEmpty(s: seq<TrackNode>)
  {
    forall i :: 0 <= i < |s| && s[i].GapNode? ==> s[i].first <= s[i].last
  }

  lemma GapsNonEmptyConcat(a: seq<TrackNode>, b: seq<TrackNode>)
    requires GapsNonEmpty(a) && GapsNonEmpty(b)
    ensures GapsNonEmpty(a + b)
  {
    assert forall i :: |a| <= i < |a + b| ==> (a + b)[i] == b[i - |a|];
  }

  /** The gap node of one step, when there is a gap. */
  function GapNodes(st: WalkState, item: TrackItem, offset: int): (r: seq<TrackNode>)
    ensures GapsNonEmpty(r)
    ensures r != [] <==> st.lastIn - item.timelineOut > 1
    ensures r != [] ==> r[0] == GapNode(item.timelineOut + 1 + offset, st.lastIn - 1 + offset)
    ensures r != [] ==> (|r| == 2 <==> st.seen) && (st.seen ==> r[1] == AppendNode(None))
    ensures |r| <= 2
  {
    if st.lastIn - item.timelineOut > 1 then
      [GapNode(item.timelineOut + 1 + offset, st.lastIn - 1 + offset)] + (if st.seen then [AppendNode(None)] else [])
    else []
  }

  /** One step keeps every gap non-empty. */
  lemma StepGapsNonEmpty(st: WalkState, item: TrackItem, offset: int, skipOffline: bool)
    requires GapsNonEmpty(st.added)
    ensures GapsNonEmpty(Step(st, item, offset, skipOffline).added)
  {
    if Placed(item, skipOffline) {
      var g := GapNodes(st, item, offset);
      GapsNonEmptyConcat(st.added, g);
      GapsNonEmptyConcat(st.added + g, PlacedNodes(item, offset));
    }
  }

  /** Every gap the walk fills is at least one frame long. */
  lemma {:induction false} WalkGapsNonEmpty(st: WalkState, items: seq<TrackItem>, offset: int, skipOffline: bool)
    requires GapsNonEmpty(st.added)
    ensures GapsNonEmpty(Walk(st, items, offset, skipOffline).added)
    decreases |items|
  {
    if items != [] {
      StepGapsNonEmpty(st, items[0], offset, skipOffline);
      WalkGapsNonEmpty(Step(st, items[0], offset, skipOffline), items[1..], offset, skipOffline);
    }
  }

  /** `reversed(s)` starts with the last element of `s`. */
  lemma ReverseUnsnoc<T>(s: seq<T>)
    requires |s| > 0
    ensures Reverse(s) == [s[|s| - 1]] + Reverse(s[..|s| - 1])
  {
  }

  /** The gap between an item and the one placed after it: a Constant node, and an Append unless nothing was placed yet. */
  method FillGap(lastInTime: int, seen: bool, startingWithGap: bool, added: seq<TrackNode>, item: TrackItem, offset: int)
    returns (added': seq<TrackNode>, startingWithGap': bool)
    ensures added' == added + GapNodes(WalkState(lastInTime, seen, startingWithGap, added, []), item, offset)
    ensures startingWithGap' == (startingWithGap || (lastInTime - item.timelineOut > 1 && !seen))
  {
    added', startingWithGap' := added, startingWithGap;
    if lastInTime - item.timelineOut > 1 {
      added' := added' + [GapNode(item.timelineOut + 1 + offset, lastInTime - 1 + offset)];
      if !seen {
        startingWithGap' := true;
      } else {
        added' := added' + [AppendNode(None)];
      }
    }
  }

  /** The body of the walk for one item that is placed. */
  method PlaceItem(lastInTime: int, seen: bool, startingWithGap: bool, added: seq<TrackNode>, appendClipNodes: seq<TrackNode>,
                   item: TrackItem, offset: int, skipOffline: bool)
    returns (lastInTime': int, seen': bool, startingWithGap': bool, added': seq<TrackNode>, appendClipNodes': seq<TrackNode>)
    requires Placed(item, skipOffline)
    ensures WalkState(lastInTime', seen', startingWithGap', added', appendClipNodes')
      == Step(WalkState(lastInTime, seen, startingWithGap, added, appendClipNodes), item, offset, skipOffline)
  {
    added', startingWithGap' := FillGap(lastInTime, seen, startingWithGap, added, item, offset);
    added' := AppendPlaced(added', item, offset);
    appendClipNodes' := appendClipNodes;
    if seen || startingWithGap' {
      appendClipNodes' := appendClipNodes' + [AppendNode(JoinDissolve(item.outTransition))];
    }
    seen' := true;
    lastInTime' := item.timelineIn;
  }

  /** The appends of one placed item after its gap, in the order the walk makes them. */
  method AppendPlaced(added: seq<TrackNode>, item: TrackItem, offset: int) returns (added': seq<TrackNode>)
    ensures added' == added + PlacedNodes(item, offset)
  {
    var fadeIn := IsFade(item.inTransition, FadeIn);
    var fadeOut := IsFade(item.outTransition, FadeOut);
    added' := added;
    if fadeOut {
      added' := added' + [BlackNode(item.outTransition.value.timelineIn + 1 + offset, item.outTransition.value.timelineOut + 1 + offset)];
    }
    var range := TrackItemRange(item, false, None, None, None, if fadeIn then Some(1) else None, offset);
    added' := added' + [ItemNodes(range)];
    if fadeIn {
      added' := added' + [BlackNode(item.inTransition.value.timelineIn + offset, item.inTransition.value.timelineOut + 1 + offset)];
      added' := added' + [AppendNode(Some(item.inTransition.value.timelineOut - item.inTransition.value.timelineIn + 1))];
    }
    if fadeOut {
      added' := added' + [AppendNode(Some(item.outTransition.value.timelineOut - item.outTransition.value.timelineIn + 1))];
    }
  }

  /** The loop of `VideoTrack.addToNukeScript`, walking the items from the end of the track. */
  method WalkTrack(items: seq<TrackItem>, sequenceDuration: int, offset: int, skipOffline: bool)
    returns (lastInTime: int, seen: bool, startingWithGap: bool, added: seq<TrackNode>, appendClipNodes: seq<TrackNode>)
    ensures WalkState(lastInTime, seen, startingWithGap, added, appendClipNodes)
      == Walk(InitialWalk(sequenceDuration), Reverse(items), offset, skipOffline)
  {
    added, appendClipNodes := [], [];
    lastInTime := sequenceDuration;
    seen, startingWithGap := false, false;
    var i := |items|;
    assert items[..i] == items;
    while i > 0
      invariant 0 <= i <= |items|
      invariant Walk(InitialWalk(sequenceDuration), Reverse(items), offset, skipOffline)
        == Walk(WalkState(lastInTime, seen, startingWithGap, added, appendClipNodes), Reverse(items[..i]), offset, skipOffline)
    {
      var item := items[i - 1];
      ghost var rest := Reverse(items[..i - 1]);
      ReverseUnsnoc(items[..i]);
      assert items[..i][..i - 1] == items[..i - 1];
      assert Reverse(items[..i]) == [item] + rest;
      assert ([item] + rest)[1..] == rest;
      i := i - 1;
      if Placed(item, skipOffline) {
        lastInTime, seen, startingWithGap, added, appendClipNodes :=
          PlaceItem(lastInTime, seen, startingWithGap, added, appendClipNodes, item, offset, skipOffline);
      }
    }
    assert items[..0] == [];
  }

  /** The AppendClip nodes kept during the walk, added last to first. */
  method AppendInReverse(added: seq<TrackNode>, appendClipNodes: seq<TrackNode>) returns (r: seq<TrackNode>)
    ensures r == added + Reverse(appendClipNodes)
  {
    r := added;
    var j := |appendClipNodes|;
    while j > 0
      invariant 0 <= j <= |appendClipNodes|
      invariant r == added + Reverse(appendClipNodes)[..|appendClipNodes| - j]
    {
      assert Reverse(appendClipNodes)[..|appendClipNodes| - j + 1]
        == Reverse(appendClipNodes)[..|appendClipNodes| - j] + [appendClipNodes[j - 1]];
      r := r + [appendClipNodes[j - 1]];
      j := j - 1;
    }
    assert Reverse(appendClipNodes)[..|appendClipNodes|] == Reverse(appendClipNodes);
  }

  /** `VideoTrack.addToNukeScript`: the walk, the leading gap, then the kept AppendClip nodes. */
  method AddVideoTrack(items: seq<TrackItem>, sequenceDuration: int, offset: int, skipOffline: bool)
    returns (nodes: seq<TrackNode>)
    ensures nodes == TrackNodes(items, sequenceDuration, offset, skipOffline)
  {
    var lastInTime, seen, startingWithGap, added, appendClipNodes := WalkTrack(items, sequenceDuration, offset, skipOffline);
    if seen && lastInTime > 0 {
      added := added + [GapNode(0, lastInTime - 1 + offset), AppendNode(None)];
    }
    nodes := AppendInReverse(added, appendClipNodes);
  }

  // ---------------------------------------------------------------------------
  // Connected and disconnected tracks

  datatype SubTrackItem = AnnotationItem | EffectItem | OtherSubItem

  /** A video track: an identity, whether it holds track items, its sub-track items and its blend flag. */
  datatype Track = Track(id: nat, hasItems: bool, subItems: seq<SubTrackItem>, blendEnabled: bool)

  /**
   * Whether a track is written: a track with items always is; an item-less
   * track is dropped when it holds only annotations that are not included,
   * or only effects that are not included.
   */
  predicate Included(t: Track, includeEffects: bool, includeAnnotations: bool)
  {
    t.hasItems
    || (var hasAnnotations := AnnotationItem in t.subItems;
        var hasEffects := EffectItem in t.subItems;
        !((!includeAnnotations && hasAnnotations && !hasEffects) || (!includeEffects && hasEffects && !hasAnnotations)))
  }

  /** The tracks that are written, in order. */
  function IncludedTracks(tracks: seq<Track>, includeEffects: bool, includeAnnotations: bool): (r: seq<Track>)
    ensures forall t :: t in r <==> t in tracks && Included(t, includeEffects, includeAnnotations)
    ensures |r| <= |tracks|
  {
    if tracks == [] then []
    else
      var init := tracks[..|tracks| - 1];
      var last := tracks[|tracks| - 1];
      assert tracks == init + [last];
      IncludedTracks(init, includeEffects, includeAnnotations) + (if Included(last, includeEffects, includeAnnotations) then [last] else [])
  }

  /**
   * The split against a master track: a track is connected when it is the
   * master's, when it is item-less and a track before it is connected, or
   * when it blends.
   */
  function Partition(tracks: seq<Track>, master: nat, anyConnected: bool): (r: (seq<Track>, seq<Track>))
    decreases |tracks|
  {
    if tracks == [] then ([], [])
    else
      var t := tracks[0];
      var connected := t.id == master || (!t.hasItems && anyConnected) || t.blendEnabled;
      var rest := Partition(tracks[1..], master, anyConnected || connected);
      if connected then ([t] + rest.0, rest.1) else (rest.0, [t] + rest.1)
  }

  /** The split keeps every track exactly once. */
  lemma {:induction false} PartitionKeepsAll(tracks: seq<Track>, master: nat, anyConnected: bool)
    ensures var r := Partition(tracks, master, anyConnected);
      multiset(r.0) + multiset(r.1) == multiset(tracks)
    decreases |tracks|
  {
    if tracks != [] {
      var t := tracks[0];
      var connected := t.id == master || (!t.hasItems && anyConnected) || t.blendEnabled;
      var rest := Partition(tracks[1..], master, anyConnected || connected);
      PartitionKeepsAll(tracks[1..], master, anyConnected || connected);
      assert tracks == [t] + tracks[1..];
      var r := Partition(tracks, master, anyConnected);
      if connected {
        calc {
          multiset(r.0) + multiset(r.1);
          multiset([t] + rest.0) + multiset(rest.1);
          multiset{t} + (multiset(rest.0) + multiset(rest.1));
          multiset{t} + multiset(tracks[1..]);
          multiset(tracks);
        }
      } else {
        calc {
          multiset(r.0) + multiset(r.1);
          multiset(rest.0) + multiset([t] + rest.1);
          multiset{t} + (multiset(rest.0) + multiset(rest.1));
          multiset{t} + multiset(tracks[1..]);
          multiset(tracks);
        }
      }
    }
  }

  /** The master's track and the blended tracks are connected; a disconnected track is neither. */
  lemma {:induction false} PartitionConnectsMaster(tracks: seq<Track>, master: nat, anyConnected: bool)
    ensures var r := Partition(tracks, master, anyConnected);
      && (forall t :: t in tracks && (t.id == master || t.blendEnabled) ==> t in r.0)
      && (forall t :: t in r.1 ==> t in tracks && t.id != master && !t.blendEnabled)
    decreases |tracks|
  {
    if tracks != [] {
      var t := tracks[0];
      var connected := t.id == master || (!t.hasItems && anyConnected) || t.blendEnabled;
      PartitionConnectsMaster(tracks[1..], master, anyConnected || connected);
      assert forall u :: u in tracks ==> u == t || u in tracks[1..];
    }
  }

  /**
   * An item-less track is connected only after a connected one: when none
   * was connected before the list, the first connected track is the
   * master's or a blended one.
   */
  lemma {:induction false} PartitionFirstConnected(tracks: seq<Track>, master: nat)
    ensures var r := Partition(tracks, master, false);
      r.0 != [] ==> r.0[0].id == master || r.0[0].blendEnabled
    decreases |tracks|
  {
    if tracks != [] {
      var t := tracks[0];
      if !(t.id == master || t.blendEnabled) {
        PartitionFirstConnected(tracks[1..], master);
      }
    }
  }

  /** `a` and `b` interleave to `s`: `s` is the two merged, each keeping its own order. */
  predicate Interleaves(a: seq<Track>, b: seq<Track>, s: seq<Track>)
    decreases |s|
  {
    if s == [] then a == [] && b == []
    else
      || (a != [] && a[0] == s[0] && Interleaves(a[1..], b, s[1..]))
      || (b != [] && b[0] == s[0] && Interleaves(a, b[1..], s[1..]))
  }

  /** The split keeps the order of the tracks within each list. */
  lemma {:induction false} PartitionInterleaves(tracks: seq<Track>, master: nat, anyConnected: bool)
    ensures var r := Partition(tracks, master, anyConnected);
      Interleaves(r.0, r.1, tracks)
    decreases |tracks|
  {
    if tracks != [] {
      var t := tracks[0];
      var connected := t.id == master || (!t.hasItems && anyConnected) || t.blendEnabled;
      var rest := Partition(tracks[1..], master, anyConnected || connected);
      PartitionInterleaves(tracks[1..], master, anyConnected || connected);
      if connected {
        assert ([t] + rest.0)[1..] == rest.0;
      } else {
        assert ([t] + rest.1)[1..] == rest.1;
      }
    }
  }

  /** A list interleaves with nothing to itself. */
  lemma {:induction false} InterleavesLeft(s: seq<Track>)
    ensures Interleaves(s, [], s)
    decreases |s|
  {
    if s != [] {
      InterleavesLeft(s[1..]);
    }
  }

  /** `getConnectedDisconnectedTracks` as a value. */
  function ConnectedDisconnected(tracks: seq<Track>, masterTrack: Option<nat>, disconnected: bool,
                                 includeEffects: bool, includeAnnotations: bool): (seq<Track>, seq<Track>)
  {
    var ts := IncludedTracks(tracks, includeEffects, includeAnnotations);
    if disconnected && masterTrack.Some? then Partition(ts, masterTrack.value, false) else (ts, [])
  }

  /**
   * Between them the two lists hold each written track once, each list in
   * the order the tracks are written; nothing is disconnected unless
   * disconnection was asked for with a master track item.
   */
  lemma ConnectedDisconnectedFacts(tracks: seq<Track>, masterTrack: Option<nat>, disconnected: bool,
                                   includeEffects: bool, includeAnnotations: bool)
    ensures var (c, d) := ConnectedDisconnected(tracks, masterTrack, disconnected, includeEffects, includeAnnotations);
      && multiset(c) + multiset(d) == multiset(IncludedTracks(tracks, includeEffects, includeAnnotations))
      && Interleaves(c, d, IncludedTracks(tracks, includeEffects, includeAnnotations))
      && (!(disconnected && masterTrack.Some?) ==> d == [])
      && (forall t :: t in tracks && t.hasItems && masterTrack.Some? && t.id == masterTrack.value ==> t in c)
  {
    var ts := IncludedTracks(tracks, includeEffects, includeAnnotations);
    if disconnected && masterTrack.Some? {
      PartitionKeepsAll(ts, masterTrack.value, false);
      PartitionConnectsMaster(ts, masterTrack.value, false);
      PartitionInterleaves(ts, masterTrack.value, false);
    } else {
      InterleavesLeft(ts);
    }
  }

  /** The first loop of `getConnectedDisconnectedTracks`: keep the tracks that are written. */
  method FilterTracks(sequenceTracks: seq<Track>, includeEffects: bool, includeAnnotations: bool) returns (tracks: seq<Track>)
    ensures tracks == IncludedTracks(sequenceTracks, includeEffects, includeAnnotations)
  {
    tracks := [];
    var i := 0;
    while i < |sequenceTracks|
      invariant 0 <= i <= |sequenceTracks|
      invariant tracks == IncludedTracks(sequenceTracks[..i], includeEffects, includeAnnotations)
    {
      assert sequenceTracks[..i + 1][..i] == sequenceTracks[..i];
      var track := sequenceTracks[i];
      if Included(track, includeEffects, includeAnnotations) {
        tracks := tracks + [track];
      }
      i := i + 1;
    }
    assert sequenceTracks[..|sequenceTracks|] == sequenceTracks;
  }

  /** The second loop of `getConnectedDisconnectedTracks`: split against the master track. */
  method SplitTracks(tracks: seq<Track>, master: nat) returns (connectedTracks: seq<Track>, disconnectedTracks: seq<Track>)
    ensures (connectedTracks, disconnectedTracks) == Partition(tracks, master, false)
  {
    connectedTracks, disconnectedTracks := [], [];
    var k := 0;
    assert tracks[k..] == tracks;
    while k < |tracks|
      invariant 0 <= k <= |tracks|
      invariant Partition(tracks, master, false).0 == connectedTracks + Partition(tracks[k..], master, |connectedTracks| > 0).0
      invariant Partition(tracks, master, false).1 == disconnectedTracks + Partition(tracks[k..], master, |connectedTracks| > 0).1
    {
      var track := tracks[k];
      var isMaster := track.id == master;
      var isEffectsOnly := !track.hasItems && |connectedTracks| > 0;
      var connected := isMaster || isEffectsOnly || track.blendEnabled;
      assert tracks[k..][1..] == tracks[k + 1..];
      ghost var rest := Partition(tracks[k + 1..], master, |connectedTracks| > 0 || connected);
      assert Partition(tracks[k..], master, |connectedTracks| > 0)
        == if connected then ([track] + rest.0, rest.1) else (rest.0, [track] + rest.1);
      if connected {
        connectedTracks := connectedTracks + [track];
      } else {
        disconnectedTracks := disconnectedTracks + [track];
      }
      k := k + 1;
    }
    assert tracks[k..] == [];
    assert connectedTracks + [] == connectedTracks && disconnectedTracks + [] == disconnectedTracks;
  }

  /** `getConnectedDisconnectedTracks`: filter the tracks, then split them. */
  method GetConnectedDisconnectedTracks(sequenceTracks: seq<Track>, masterTrack: Option<nat>, disconnected: bool,
                                        includeEffects: bool, includeAnnotations: bool)
    returns (connectedTracks: seq<Track>, disconnectedTracks: seq<Track>)
    ensures (connectedTracks, disconnectedTracks)
      == ConnectedDisconnected(sequenceTracks, masterTrack, disconnected, includeEffects, includeAnnotations)
  {
    var tracks := FilterTracks(sequenceTracks, includeEffects, includeAnnotations);
    if disconnected && masterTrack.Some? {
      connectedTracks, disconnectedTracks := SplitTracks(tracks, masterTrack.value);
    } else {
      connectedTracks, disconnectedTracks := tracks, [];
    }
  }
}
