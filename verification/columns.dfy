/** Column identities and the four reserved layout-marker columns of a
    table configuration. */
module Columns {
  import opened Results

  /** A 128-bit GUID, read as the unsigned number its hexadecimal text spells. */
  newtype Guid = x: int | 0 <= x < 0x1_0000_0000_0000_0000_0000_0000_0000_0000

  /** The stable identity of a column plus its display name (cosmetic). */
  datatype ColumnMetadata = ColumnMetadata(guid: Guid, name: string)

  /** A column as placed in a table configuration: the base column and, when
      the column is a projection variant, the variant's GUID. */
  datatype ColumnConfiguration = ColumnConfiguration(metadata: ColumnMetadata, variantGuid: Option<Guid>)

  const PivotGuid: Guid := 0x319E867F_245A_436E_9735_DB620F844EDC
  const GraphGuid: Guid := 0xA5CE8FAF_5668_49FC_82BC_D2C482086C06
  const LeftFreezeGuid: Guid := 0x4D35A44E_804B_454E_9375_568543E198C2
  const RightFreezeGuid: Guid := 0xA755CEC5_BBC4_4E9F_BDB3_CB78B56DDCFA

  /** Columns to the left of this marker are pivoted. */
  const PivotColumn := ColumnConfiguration(ColumnMetadata(PivotGuid, "Pivot Column"), None)
  /** Columns to the right of this marker are graphed. */
  const GraphColumn := ColumnConfiguration(ColumnMetadata(GraphGuid, "Graph Column"), None)
  /** Columns to the left of this marker stay in place while scrolling horizontally. */
  const LeftFreezeColumn := ColumnConfiguration(ColumnMetadata(LeftFreezeGuid, "Left Freeze Column"), None)
  /** Columns to the right of this marker stay in place while scrolling horizontally. */
  const RightFreezeColumn := ColumnConfiguration(ColumnMetadata(RightFreezeGuid, "Right Freeze Column"), None)

  /** All reserved marker columns, in their declaration order. */
  const AllMetadataColumns: seq<ColumnConfiguration> :=
    [PivotColumn, GraphColumn, LeftFreezeColumn, RightFreezeColumn]

  /** Column equality: the display name is cosmetic, identity is the base
      GUID together with the variant GUID. */
  predicate SameColumn(a: ColumnConfiguration, b: ColumnConfiguration)
  {
    a.metadata.guid == b.metadata.guid && a.variantGuid == b.variantGuid
  }

  /** Whether some reserved marker column has the given base GUID. */
  predicate IsMetadataGuid(g: Guid)
  {
    exists i :: 0 <= i < |AllMetadataColumns| && AllMetadataColumns[i].metadata.guid == g
  }

  /** The reserved GUIDs are exactly the four marker constants. */
  lemma MetadataGuids(g: Guid)
    ensures IsMetadataGuid(g) <==> g in {PivotGuid, GraphGuid, LeftFreezeGuid, RightFreezeGuid}
  {
    if g in {PivotGuid, GraphGuid, LeftFreezeGuid, RightFreezeGuid} {
      var i := if g == PivotGuid then 0 else if g == GraphGuid then 1 else if g == LeftFreezeGuid then 2 else 3;
      assert AllMetadataColumns[i].metadata.guid == g;
    }
  }
}
