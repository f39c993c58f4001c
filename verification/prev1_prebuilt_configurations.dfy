/** The version-0.1 prebuilt-configurations node of the configuration DTO
    chain and its step to the version-1.0 node. The per-entry upgrade of a
    table-configurations entry is a parameter. */
module PreV1PrebuiltConfigurations {
  import opened Results

  /** The schema version tag carried by a node. */
  datatype DtoVersion = V0_1 | V1_0

  /** A prebuilt-configurations node: its version tag and its `Tables` array,
      `None` while the array is null. */
  datatype PrebuiltConfigurations<T> = PrebuiltConfigurations(version: DtoVersion, tables: Option<seq<T>>)

  /** Why an upgrade step threw. */
  datatype UpgradeError = NullTables

  /** A freshly constructed version-0.1 node: tagged 0.1, `Tables` not yet set. */
  function NewPreV1<T>(): (node: PrebuiltConfigurations<T>)
    ensures node.version == V0_1 && node.tables.None?
  {
    PrebuiltConfigurations(V0_1, None)
  }

  /** Element-wise projection, first element first. */
  function MapTables<T, U>(upgrade: T -> U, ts: seq<T>): (us: seq<U>)
    ensures |us| == |ts|
    ensures forall i :: 0 <= i < |ts| ==> us[i] == upgrade(ts[i])
  {
    if |ts| == 0 then [] else [upgrade(ts[0])] + MapTables(upgrade, ts[1..])
  }

  /** The version-0.1 to version-1.0 step: the new node's `Tables` holds the
      upgrade of each source entry at the same index; a null `Tables` array
      makes the projection throw. */
  function UpgradeToNext<T, U>(node: PrebuiltConfigurations<T>, upgrade: T -> U): (r: Result<PrebuiltConfigurations<U>, UpgradeError>)
    ensures r.Failure? <==> node.tables.None?
    ensures r.Success? ==>
      && r.value.version == V1_0
      && r.value.tables.Some?
      && |r.value.tables.value| == |node.tables.value|
      && forall i :: 0 <= i < |node.tables.value| ==> r.value.tables.value[i] == upgrade(node.tables.value[i])
  {
    match node.tables
    case None => Failure(NullTables)
    case Some(ts) => Success(PrebuiltConfigurations(V1_0, Some(MapTables(upgrade, ts))))
  }

  /** Order is kept: upgrading the concatenation of two arrays gives the
      concatenation of their upgrades. */
  lemma UpgradeKeepsOrder<T, U>(a: seq<T>, b: seq<T>, upgrade: T -> U)
    ensures MapTables(upgrade, a + b) == MapTables(upgrade, a) + MapTables(upgrade, b)
  {
  }

  /** Nothing is dropped by the step itself: when the per-entry upgrade has a
      left inverse, the source `Tables` can be recovered from the result. */
  lemma UpgradeLosesNothing<T, U>(node: PrebuiltConfigurations<T>, upgrade: T -> U, downgrade: U -> T)
    requires node.tables.Some?
    requires forall t :: downgrade(upgrade(t)) == t
    ensures UpgradeToNext(node, upgrade).Success?
    ensures MapTables(downgrade, UpgradeToNext(node, upgrade).value.tables.value) == node.tables.value
  {
  }

  /** A node whose `Tables` was never assigned cannot be upgraded. */
  lemma FreshNodeNeedsTables<T, U>(upgrade: T -> U)
    ensures UpgradeToNext(NewPreV1<T>(), upgrade) == Failure(NullTables)
  {
  }
}
