# Table configuration, processor dispatch and PreV1 upgrade — a Dafny model

This project models three sequential pieces of a performance-toolkit SDK.

- **Column layout of a table configuration.** A table configuration holds an ordered
  column sequence. Four reserved marker columns may appear in it: Pivot, Graph,
  LeftFreeze and RightFreeze. Every assignment of the sequence is validated by one
  fail-fast scan. The model proves that the scan accepts exactly the sequences in which
  each marker occurs at most once, no Pivot follows the Graph marker and no LeftFreeze
  follows the RightFreeze marker. When it rejects, it reports the first rule broken.
  The `Columns` setter installs a sequence only when it passes. A rejected assignment
  leaves the configuration as it was.
- **Column roles.** A role map goes from a case-sensitive role name to a column GUID.
  Marker columns can never be bound to a role.
- **Custom data processor bookkeeping.** This covers the immutable table-to-build-delegate
  mapping, the set of enabled tables, and the trace of build dispatches
  `(descriptor, delegate, builder)`. `BuildMetadataTables` takes one fresh builder per
  metadata table from a builder factory and dispatches the tables in the mapping's
  enumeration order.
- **PreV1 prebuilt configurations.** A version-0.1 node upgrades to the version-1.0
  node by mapping its `Tables` array element by element. The per-entry upgrade is a
  function parameter.

Files:

- `results.dfy`: `Option`, `Result` and `Outcome`. `None` stands for a C# `null`; a
  thrown exception becomes `Failure`/`Fail`.
- `columns.dfy`: GUIDs (an integer below 2^128), column records and the four marker
  constants with their GUIDs.
- `column_layout.dfy`: the validator, modelled three ways. `Scan` is a left fold.
  `ValidLayout` is the declarative rule set. `ValidateColumnCollection` is the linear
  scan with four counters. Lemmas connect the three.
- `table_configuration.dfy`: the configuration record, the `Columns` setter and the role
  operations.
- `custom_data_processor.dfy`: the processor state, enabling, dispatch and the builder
  factory.
- `prev1_prebuilt_configurations.dfy`: the version-0.1 node and its upgrade step.

Points about the program's behaviour that the model makes explicit:

- `AddColumnRole(string, Guid)` rejects a marker GUID before it checks the role name.
  The column overload runs its null and role-name guards first. So a blank role paired
  with a marker column gives different errors from the two overloads.
- The unregistered-descriptor case of `BuildTable` is not modelled; registration is a
  precondition.
- A freshly constructed PreV1 node has a null `Tables` array. Upgrading such a node
  throws inside the projection, and the model returns `Failure(NullTables)`.

## Model

| member | source | states |
|---|---|---|
| Columns.MetadataGuids | src/Microsoft.Performance.SDK/Processing/TableConfiguration.cs:23-54 | A GUID belongs to some reserved marker column iff it is one of the four marker GUID constants |
| ColumnLayout.Scan | src/Microsoft.Performance.SDK/Processing/TableConfiguration.cs:262-325 | When the fail-fast scan gets through, each of its four "seen" counters equals the number of occurrences of its marker |
| ColumnLayout.ScanAcceptsExactlyValidLayouts | src/Microsoft.Performance.SDK/Processing/TableConfiguration.cs:262-325 | The scan accepts a sequence iff each marker occurs at most once, no Pivot follows Graph and no LeftFreeze follows RightFreeze |
| ColumnLayout.Validate | src/Microsoft.Performance.SDK/Processing/TableConfiguration.cs:262-325 | The validator passes exactly the sequences satisfying the declarative layout rules |
| ColumnLayout.ValidateColumnCollection | src/Microsoft.Performance.SDK/Processing/TableConfiguration.cs:262-325 | The linear scan with four counters and early exit returns the validator's verdict, so it passes iff the layout rules hold |
| ColumnLayout.FirstViolationReported | src/Microsoft.Performance.SDK/Processing/TableConfiguration.cs:272-324 | After a valid prefix, a column keeps the sequence valid iff it breaks no rule. Otherwise the whole sequence is rejected with the first rule it breaks, whatever follows |
| ColumnLayout.PivotRules | src/Microsoft.Performance.SDK/Processing/TableConfiguration.cs:274-287 | A Pivot after a Graph is rejected as pivot-after-graph; otherwise a second Pivot is rejected as a duplicate; otherwise it is accepted |
| ColumnLayout.LeftFreezeRules | src/Microsoft.Performance.SDK/Processing/TableConfiguration.cs:288-301 | A LeftFreeze after a RightFreeze is rejected as such; otherwise a second LeftFreeze is rejected as a duplicate; otherwise it is accepted |
| ColumnLayout.RightFreezeAndGraphRules | src/Microsoft.Performance.SDK/Processing/TableConfiguration.cs:302-319 | A second RightFreeze and a second Graph are each rejected as duplicates; a first one is accepted |
| ColumnLayout.AtMostOnceIffCount | src/Microsoft.Performance.SDK/Processing/TableConfiguration.cs:281-318 | "No marker after another copy of itself" is the same as "the marker occurs at most once" |
| ColumnLayout.ScanIgnoresOrdinaryColumns | src/Microsoft.Performance.SDK/Processing/TableConfiguration.cs:272-323 | The scan of a column sequence gives the same result as the scan run over its reserved markers alone, in order |
| ColumnLayout.SameMarkersSameVerdict | src/Microsoft.Performance.SDK/Processing/TableConfiguration.cs:320-323 | Ordinary columns and the display names of marker columns are irrelevant: two sequences whose reserved markers come in the same order get the same verdict |
| ColumnLayout.ExampleLayouts | src/Microsoft.Performance.SDK/Processing/TableConfiguration.cs:274-279 | `[A, Pivot, B, Graph, C]` passes and `[A, Graph, Pivot]` is rejected as pivot-after-graph |
| TableConfigurations.NewTableConfiguration | src/Microsoft.Performance.SDK/Processing/TableConfiguration.cs:76-123 | A new configuration has the given name, no columns, no roles, a keep-rows initial filter, and satisfies the configuration invariant |
| TableConfigurations.DefaultTableConfiguration | src/Microsoft.Performance.SDK/Processing/TableConfiguration.cs:66-69 | The parameterless constructor gives the same defaults with the empty name |
| TableConfigurations.SetColumns | src/Microsoft.Performance.SDK/Processing/TableConfiguration.cs:175-180 | Null installs no columns. A sequence is installed iff it obeys the layout rules; on rejection the configuration is unchanged and the outcome is the validator's, naming the first rule broken. Roles and other settings never change, and the invariant is preserved |
| TableConfigurations.AddColumnRoleGuid | src/Microsoft.Performance.SDK/Processing/TableConfiguration.cs:233-249 | Succeeds iff the GUID is not a marker's and the role is non-null and not blank. A marker GUID always gives the metadata-role error; otherwise a null role gives the null-role error and a blank role the blank-role error. On success only that role's key is bound to the GUID and every other key keeps its value, keys comparing as exact character sequences (ordinal, case-sensitive); on failure nothing changes |
| TableConfigurations.AddColumnRole | src/Microsoft.Performance.SDK/Processing/TableConfiguration.cs:212-221 | The null-column and role-name errors take precedence. Past them it behaves exactly as the GUID overload on the column's base GUID: a marker column gives the metadata-role error; otherwise the role is bound to the base GUID and every other role, the columns, the name and the filter flag are kept |
| TableConfigurations.RemoveColumnRole | src/Microsoft.Performance.SDK/Processing/TableConfiguration.cs:257-260 | Removes exactly the given key and keeps every other binding. It is a no-op when the key is absent and fails only for a null key, with the null-role error |
| TableConfigurations.LastWriterWins | src/Microsoft.Performance.SDK/Processing/TableConfiguration.cs:248 | Assigning a role twice equals assigning it once with the second column, whether or not the first assignment was accepted |
| TableConfigurations.VariantIgnored | src/Microsoft.Performance.SDK/Processing/TableConfiguration.cs:192-221 | Any variant of a column lands in a role exactly as its base column does |
| TableConfigurations.AddThenRemove | src/Microsoft.Performance.SDK/Processing/TableConfiguration.cs:239-260 | Adding a previously unbound role and then removing it restores the configuration |
| CustomDataProcessors.CreateProcessor | src/Microsoft.Performance.SDK.Tests/CustomDataProcessorTests.cs:51-90 | Options, application environment and the table mapping are exposed as given. The enabled set is empty, so no metadata table is in it, and the processor invariant holds |
| CustomDataProcessors.MetadataTables | src/Microsoft.Performance.SDK.Tests/CustomDataProcessorTests.cs:49 | A descriptor is listed iff it is a key of the mapping marked as a metadata table |
| CustomDataProcessors.MetadataTablesFollowEnumerationOrder | src/Microsoft.Performance.SDK.Tests/CustomDataProcessorTests.cs:49 | The metadata list of a concatenated enumeration is the concatenation of the lists, so enumeration order is kept |
| CustomDataProcessors.EnableTable | src/Microsoft.Performance.SDK.Tests/CustomDataProcessorTests.cs:94-102 | The enabled set gains exactly the given table and grows by one unless the table was already there. Nothing else changes |
| CustomDataProcessors.EnableTableIdempotent | src/Microsoft.Performance.SDK.Tests/CustomDataProcessorTests.cs:190 | Enabling a table twice equals enabling it once |
| CustomDataProcessors.BuildTable | src/Microsoft.Performance.SDK.Tests/CustomDataProcessorTests.cs:106-117 | Building a registered table appends exactly one dispatch: the table, its registered delegate and the given builder. Nothing else changes and the invariant is kept |
| CustomDataProcessors.NewFactory | src/Microsoft.Performance.SDK.Tests/CustomDataProcessorTests.cs:250-253 | A new factory has created no builders |
| CustomDataProcessors.Create | src/Microsoft.Performance.SDK.Tests/CustomDataProcessorTests.cs:257-262 | Each factory call returns a builder it never handed out before and appends it to its created builders |
| CustomDataProcessors.DispatchEach | src/Microsoft.Performance.SDK.Tests/CustomDataProcessorTests.cs:121-135 | One dispatch per table in order. The k-th pairs the k-th table with its delegate and the k-th builder newly created |
| CustomDataProcessors.BuildMetadataTables | src/Microsoft.Performance.SDK.Tests/CustomDataProcessorTests.cs:121-135 | The factory is called once per metadata table and exactly that many dispatches are added. The k-th new dispatch is (k-th metadata table, its delegate, k-th new builder). All builders are distinct and the enabled set is untouched |
| CustomDataProcessors.BuildMetadataTablesOnFreshProcessor | src/Microsoft.Performance.SDK.Tests/CustomDataProcessorTests.cs:121-135 | On a fresh processor and factory, the builders created, the dispatches and the metadata tables correspond index by index, and nothing is enabled |
| PreV1PrebuiltConfigurations.NewPreV1 | src/Microsoft.Performance.SDK.Runtime/DTO/PreV1/PrebuiltConfigurations.cs:13-18 | A freshly constructed node carries version tag 0.1 and has no `Tables` yet |
| PreV1PrebuiltConfigurations.MapTables | src/Microsoft.Performance.SDK.Runtime/DTO/PreV1/PrebuiltConfigurations.cs:27 | The projection has the source's length, and its i-th entry is the upgrade of the i-th source entry |
| PreV1PrebuiltConfigurations.UpgradeToNext | src/Microsoft.Performance.SDK.Runtime/DTO/PreV1/PrebuiltConfigurations.cs:23-29 | Fails iff `Tables` is null. Otherwise it yields a version-1.0 node whose `Tables` has the same length, with entry i the upgrade of source entry i |
| PreV1PrebuiltConfigurations.UpgradeKeepsOrder | src/Microsoft.Performance.SDK.Runtime/DTO/PreV1/PrebuiltConfigurations.cs:27 | Upgrading a concatenation gives the concatenation of the upgrades |
| PreV1PrebuiltConfigurations.UpgradeLosesNothing | src/Microsoft.Performance.SDK.Runtime/DTO/PreV1/PrebuiltConfigurations.cs:23-29 | When the per-entry upgrade has a left inverse, the source `Tables` is recovered from the upgraded node |
| PreV1PrebuiltConfigurations.FreshNodeNeedsTables | src/Microsoft.Performance.SDK.Runtime/DTO/PreV1/PrebuiltConfigurations.cs:15-27 | Upgrading a node whose `Tables` was never assigned fails |

## Left out

- Pass-through settings of a table configuration carry no rule: chart type, aggregation
  mode, the three query strings, graph-filter values and description. The same goes for
  `HighlightEntries`, and `GraphFilterThresholdValue` is floating point anyway. Only the
  name and `InitialFilterShouldKeep` are kept.
- A null configuration name is not modelled: the name is a plain string. The constructor
  and the `Name` setter store a null name without a guard, and nothing in this model
  reads the name.
- Column equality: the equality comparer is not part of this model. Two column
  configurations are taken to be the same column when their base GUID and their variant
  GUID both agree. The display name does not count.
- GUID parsing: each marker GUID is the number its hexadecimal text spells. The .NET
  byte layout of a GUID is not modelled.
- The null check on `column.Metadata` is not modelled, because column metadata is
  always present in the model. Null elements inside a column sequence are not modelled
  either.
- The scan's `otherColumnsSeen` counter is never read, so it is not modelled.
- `Guard` is not part of this model. It is taken to reject a null string and a string
  that is empty or all white space, where white space follows `char.IsWhiteSpace`. Both
  failures are kept distinct as `NullRoleName` and `BlankRoleName`.
- `ProcessAsync`, progress reporting and cancellation are left out. They are
  asynchronous and cooperative.
- `GetDataSourceInfo` and its `DateTime` values are left out. They are opaque metadata
  with no logic.
- The `TestTable1` data-cooker path, its attributes and the members of
  `FakeTableBuilder` that throw are left out. They are plugin plumbing and stubs.
- CustomDataProcessors.BuildTable: requires the descriptor to be registered.
  `CustomDataProcessor`'s base class is not part of this model, so its behaviour on an
  unregistered descriptor is a precondition here.
- CustomDataProcessors.EnableTable: requires a non-metadata descriptor.
  `CustomDataProcessor`'s base class is not part of this model, so its behaviour when
  asked to enable a metadata descriptor is a precondition here.
- Descriptor equality: a table descriptor is identified by structural equality of its
  GUID, name and metadata flag. The enabled set and the table mapping take their
  meaning from that equality; the descriptor's own `Equals` is not part of this model.
- The dictionary's enumeration order is given explicitly as `TableMapping.order`. The
  model does not derive it from a hash table.
- The mock processor's `metadataTables` constructor argument is dropped by the mock's
  constructor, which does not pass it to the base constructor, so it is not modelled.
- The version tag is an enumeration `V0_1 | V1_0`, not a `double`. Serialization
  attributes and wire format are not modelled.
- The version-1.0 node's constructor is not part of this model. The upgraded node is
  tagged `V1_0` as the next version.
- The chain walker that picks a deserializer by version tag and upgrades repeatedly is
  not part of this model, and neither are the later version steps.
- A null entry inside `Tables` is not modelled. Calling `Upgrade()` on it would throw.
- Purity of `UpgradeToNext` holds by construction. It is a function on values, so the
  source node is never modified and two upgrades of equal nodes are equal. No separate
  lemma states this.
