/** A table configuration's column sequence and column-role map, with the
    setter that re-validates the columns and the role operations that keep
    marker columns out of the role map. Pass-through display settings that
    carry no rule are not modelled. */
module TableConfigurations {
  import opened Results
  import opened Columns
  import opened ColumnLayout

  datatype TableConfiguration = TableConfiguration(
    name: string,
    initialFilterShouldKeep: bool,
    columns: seq<ColumnConfiguration>,
    columnRoles: map<string, Guid>)

  /** The configuration invariant: the installed columns obey the layout
      rules and no role is bound to a marker column. */
  predicate Valid(cfg: TableConfiguration)
  {
    && ValidLayout(cfg.columns)
    && forall role :: role in cfg.columnRoles ==> !IsMetadataGuid(cfg.columnRoles[role])
  }

  /** The state left by an assignment that may be rejected: on rejection the
      configuration is the one before the call. */
  datatype Update<E> = Update(config: TableConfiguration, outcome: Outcome<E>)

  /** Why a role operation threw. */
  datatype RoleError =
    | NullColumn            // the column argument is null
    | NullRoleName          // the role name is null
    | BlankRoleName         // the role name is empty or only white space
    | MetadataColumnRole    // the column is one of the four marker columns

  /** `char.IsWhiteSpace`: the Unicode space, line and paragraph separators,
      U+0009 to U+000D, U+0085 and U+00A0. */
  predicate IsWhiteSpace(ch: char)
  {
    || ('\U{0009}' <= ch <= '\U{000D}')
    || ch == '\U{0020}' || ch == '\U{0085}' || ch == '\U{00A0}' || ch == '\U{1680}'
    || ('\U{2000}' <= ch <= '\U{200A}')
    || ch == '\U{2028}' || ch == '\U{2029}' || ch == '\U{202F}' || ch == '\U{205F}' || ch == '\U{3000}'
  }

  /** A role name the argument guard rejects: empty or all white space. */
  predicate IsBlank(s: string)
  {
    forall i :: 0 <= i < |s| ==> IsWhiteSpace(s[i])
  }

  /** A new configuration: the given name, no columns, no roles, and an
      initial filter that keeps the rows it matches. */
  function NewTableConfiguration(name: string): (cfg: TableConfiguration)
    ensures cfg.name == name && cfg.initialFilterShouldKeep
    ensures |cfg.columns| == 0 && |cfg.columnRoles| == 0
    ensures Valid(cfg)
  {
    TableConfiguration(name, true, [], map[])
  }

  /** The parameterless constructor: as above with the empty name. */
  function DefaultTableConfiguration(): (cfg: TableConfiguration)
    ensures cfg.name == "" && cfg.initialFilterShouldKeep
    ensures |cfg.columns| == 0 && |cfg.columnRoles| == 0
    ensures Valid(cfg)
  {
    NewTableConfiguration("")
  }

  /** Assigning `Columns`; `None` is a null assignment, installed as no columns. */
  function SetColumns(cfg: TableConfiguration, value: Option<seq<ColumnConfiguration>>): (r: Update<LayoutError>)
    ensures value.None? ==> r.outcome.Pass? && r.config.columns == []
    ensures value.Some? ==> (r.outcome.Pass? <==> ValidLayout(value.value))
    ensures r.outcome == Validate(if value.Some? then value.value else [])
    ensures r.outcome.Pass? ==> r.config.columns == (if value.Some? then value.value else [])
    ensures r.outcome.Fail? ==> r.config == cfg
    ensures r.config.name == cfg.name && r.config.initialFilterShouldKeep == cfg.initialFilterShouldKeep
    ensures r.config.columnRoles == cfg.columnRoles
    ensures Valid(cfg) ==> Valid(r.config)
  {
    var columnCollection := match value case None => [] case Some(cols) => cols;
    match Validate(columnCollection)
    case Fail(e) => Update(cfg, Fail(e))
    case Pass => Update(cfg.(columns := columnCollection), Pass)
  }

  /** Placing a column GUID into a role. The marker check comes before the
      role-name guard. */
  function AddColumnRoleGuid(cfg: TableConfiguration, columnRole: Option<string>, columnGuid: Guid): (r: Update<RoleError>)
    ensures r.outcome.Pass? <==> !IsMetadataGuid(columnGuid) && columnRole.Some? && !IsBlank(columnRole.value)
    ensures IsMetadataGuid(columnGuid) ==> r.outcome == Fail(MetadataColumnRole)
    ensures !IsMetadataGuid(columnGuid) && columnRole.None? ==> r.outcome == Fail(NullRoleName)
    ensures !IsMetadataGuid(columnGuid) && columnRole.Some? && IsBlank(columnRole.value) ==> r.outcome == Fail(BlankRoleName)
    ensures r.outcome.Fail? ==> r.config == cfg
    ensures r.outcome.Pass? ==>
      && r.config.columnRoles.Keys == cfg.columnRoles.Keys + {columnRole.value}
      && r.config.columnRoles[columnRole.value] == columnGuid
      && forall k :: k in cfg.columnRoles && k != columnRole.value ==> r.config.columnRoles[k] == cfg.columnRoles[k]
    ensures r.config.columns == cfg.columns && r.config.name == cfg.name
    ensures r.config.initialFilterShouldKeep == cfg.initialFilterShouldKeep
    ensures Valid(cfg) ==> Valid(r.config)
  {
    if IsMetadataGuid(columnGuid) then Update(cfg, Fail(MetadataColumnRole))
    else match columnRole
      case None => Update(cfg, Fail(NullRoleName))
      case Some(role) =>
        if IsBlank(role) then Update(cfg, Fail(BlankRoleName))
        else Update(cfg.(columnRoles := cfg.columnRoles[role := columnGuid]), Pass)
  }

  /** Placing a column into a role: the null-column and role-name guards run
      first, then only the column's base GUID is stored. */
  function AddColumnRole(cfg: TableConfiguration, columnRole: Option<string>, column: Option<ColumnConfiguration>): (r: Update<RoleError>)
    ensures column.None? ==> r.outcome == Fail(NullColumn)
    ensures column.Some? && columnRole.None? ==> r.outcome == Fail(NullRoleName)
    ensures column.Some? && columnRole.Some? && IsBlank(columnRole.value) ==> r.outcome == Fail(BlankRoleName)
    ensures r.outcome.Pass? <==>
      column.Some? && columnRole.Some? && !IsBlank(columnRole.value) && !IsMetadataGuid(column.value.metadata.guid)
    ensures r.outcome.Fail? ==> r.config == cfg
    ensures r.outcome.Pass? ==>
      && columnRole.value in r.config.columnRoles
      && r.config.columnRoles[columnRole.value] == column.value.metadata.guid
    ensures column.Some? && columnRole.Some? && !IsBlank(columnRole.value) && IsMetadataGuid(column.value.metadata.guid) ==>
      r.outcome == Fail(MetadataColumnRole)
    ensures column.Some? && columnRole.Some? && !IsBlank(columnRole.value) ==>
      r == AddColumnRoleGuid(cfg, columnRole, column.value.metadata.guid)
    ensures r.config.columns == cfg.columns && r.config.name == cfg.name
    ensures r.config.initialFilterShouldKeep == cfg.initialFilterShouldKeep
    ensures r.outcome.Pass? ==>
      && r.config.columnRoles.Keys == cfg.columnRoles.Keys + {columnRole.value}
      && forall k :: k in cfg.columnRoles && k != columnRole.value ==> r.config.columnRoles[k] == cfg.columnRoles[k]
    ensures Valid(cfg) ==> Valid(r.config)
  {
    match column
    case None => Update(cfg, Fail(NullColumn))
    case Some(c) =>
      match columnRole
      case None => Update(cfg, Fail(NullRoleName))
      case Some(role) =>
        if IsBlank(role) then Update(cfg, Fail(BlankRoleName))
        else AddColumnRoleGuid(cfg, columnRole, c.metadata.guid)
  }

  /** Removing a role binding; removing a null key throws. */
  function RemoveColumnRole(cfg: TableConfiguration, columnRole: Option<string>): (r: Update<RoleError>)
    ensures r.outcome.Pass? <==> columnRole.Some?
    ensures columnRole.None? ==> r.outcome == Fail(NullRoleName)
    ensures r.outcome.Fail? ==> r.config == cfg
    ensures r.outcome.Pass? ==>
      && r.config.columnRoles.Keys == cfg.columnRoles.Keys - {columnRole.value}
      && forall k :: k in r.config.columnRoles ==> r.config.columnRoles[k] == cfg.columnRoles[k]
    ensures columnRole.Some? && columnRole.value !in cfg.columnRoles ==> r.config == cfg
    ensures r.config.columns == cfg.columns && r.config.name == cfg.name
    ensures r.config.initialFilterShouldKeep == cfg.initialFilterShouldKeep
    ensures Valid(cfg) ==> Valid(r.config)
  {
    match columnRole
    case None => Update(cfg, Fail(NullRoleName))
    case Some(role) =>
      assert role !in cfg.columnRoles ==> cfg.columnRoles - {role} == cfg.columnRoles;
      Update(cfg.(columnRoles := cfg.columnRoles - {role}), Pass)
  }

  /** Re-assigning a role keeps only the last column assigned, whether or not
      the first assignment was accepted. */
  lemma LastWriterWins(cfg: TableConfiguration, role: string, first: Guid, second: Guid)
    requires !IsMetadataGuid(second)
    ensures AddColumnRoleGuid(AddColumnRoleGuid(cfg, Some(role), first).config, Some(role), second)
         == AddColumnRoleGuid(cfg, Some(role), second)
  {
  }

  /** A column's variant is ignored: every variant of a column lands in the
      role the same way its base column does. */
  lemma VariantIgnored(cfg: TableConfiguration, role: Option<string>, c: ColumnConfiguration, variant: Option<Guid>)
    ensures AddColumnRole(cfg, role, Some(c.(variantGuid := variant))) == AddColumnRole(cfg, role, Some(c.(variantGuid := None)))
  {
  }

  /** Adding an unbound role and then removing it restores the configuration. */
  lemma AddThenRemove(cfg: TableConfiguration, role: string, g: Guid)
    requires !IsBlank(role) && !IsMetadataGuid(g) && role !in cfg.columnRoles
    ensures RemoveColumnRole(AddColumnRoleGuid(cfg, Some(role), g).config, Some(role)) == Update(cfg, Pass)
  {
  }
}
