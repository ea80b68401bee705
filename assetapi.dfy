/**
 * The FnAssetAPI notions the ftrack manager relies on: specification types
 * and their `isOfType` test, the context an operation runs in (access mode,
 * locale, manager options) and the field names used in metadata and
 * specifications.
 *
 * FnAssetAPI is not part of this model. Its specification types are dotted
 * strings in which a type is derived from every dotted prefix of it; the
 * field-name constants are given the values below.
 */
module AssetApi {
  import opened Wrappers

  /** `isOfType(t)`: the type is `t` itself or is derived from it ('file.image' is a 'file'). */
  predicate IsOfType(typ: string, t: string)
  {
    typ == t || t + "." <= typ
  }

  /** A specification: its type string and its fields. */
  datatype Specification = Specification(typ: string, fields: map<string, string>)

  /** `spec.getField(key, default)`. */
  function GetField(spec: Specification, key: string, default: Option<string>): Option<string>
  {
    if key in spec.fields then Some(spec.fields[key]) else default
  }

  datatype Access = Read | ReadMultiple | Write | WriteMultiple

  /**
   * A context: the access mode, the type of the locale (None when there is
   * no locale) and the manager options.
   */
  datatype Context = Context(access: Access, locale: Option<string>, managerOptions: map<string, string>)

  predicate IsForWrite(c: Context) { c.access == Write || c.access == WriteMultiple }

  predicate IsForRead(c: Context) { c.access == Read || c.access == ReadMultiple }

  predicate IsForMultiple(c: Context) { c.access == ReadMultiple || c.access == WriteMultiple }

  /** Whether the (optional) context has a locale of type `t` or derived from it. */
  predicate LocaleIsOfType(context: Option<Context>, t: string)
  {
    context.Some? && context.value.locale.Some? && IsOfType(context.value.locale.value, t)
  }

  // Specification types.
  const ProjectType := "group.project"
  const GroupingType := "group"
  const ShotType := "group.shot"
  const FileType := "file"
  const ImageType := "file.image"
  const NukeScriptType := "file.nukescript"
  const HieroProjectType := "file.hrox"

  // Field names.
  const DisplayNameField := "displayName"
  const FrameStartField := "startFrame"
  const FrameEndField := "endFrame"
  const FrameInField := "inFrame"
  const HintNameField := "nameHint"
}
