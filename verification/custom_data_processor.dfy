/** The bookkeeping and dispatch layer of a custom data processor: the
    table-to-build-delegate mapping fixed at construction, the set of enabled
    optional tables, and the record of every build dispatch (descriptor,
    delegate, builder) the processor makes. */
module CustomDataProcessors {
  import opened Columns

  /** A table a processor can build; metadata tables are always built. Two
      descriptors are the same table when all three fields agree. */
  datatype TableDescriptor = TableDescriptor(guid: Guid, name: string, isMetadataTable: bool)

  /** The identity of a build delegate; its body is never inspected. */
  datatype BuildAction = BuildAction(id: nat)

  /** The identity of a table builder handed to a build delegate. */
  datatype TableBuilder = TableBuilder(id: nat)

  /** A parsed option: short flag, long name and the value given to it. */
  datatype OptionInstance = OptionInstance(shortName: char, longName: string, value: string)

  /** Opaque host contexts, passed through unmodified. */
  datatype ApplicationEnvironment = ApplicationEnvironment(id: nat)
  datatype ProcessorEnvironment = ProcessorEnvironment(id: nat)

  /** One call of the processor's build hook. */
  datatype Dispatch = Dispatch(descriptor: TableDescriptor, buildAction: BuildAction, builder: TableBuilder)

  /** The table-to-build-delegate dictionary: its entries, and the order in
      which enumerating it yields its keys. */
  datatype TableMapping = TableMapping(actions: map<TableDescriptor, BuildAction>, order: seq<TableDescriptor>)

  /** Enumeration yields every key exactly once. */
  predicate WellFormed(t: TableMapping)
  {
    && (forall i, j :: 0 <= i < j < |t.order| ==> t.order[i] != t.order[j])
    && (forall d :: d in t.actions ==> d in t.order)
    && forall i :: 0 <= i < |t.order| ==> t.order[i] in t.actions
  }

  datatype Processor = Processor(
    options: seq<OptionInstance>,
    applicationEnvironment: ApplicationEnvironment,
    processorEnvironment: ProcessorEnvironment,
    tables: TableMapping,
    enabledTables: set<TableDescriptor>,
    buildTableCoreCalls: seq<Dispatch>)

  /** The metadata tables among `order`, keeping their relative order. */
  function MetadataTables(order: seq<TableDescriptor>): (r: seq<TableDescriptor>)
    ensures forall d :: d in r <==> d in order && d.isMetadataTable
    ensures |r| <= |order|
  {
    if |order| == 0 then []
    else (if order[0].isMetadataTable then [order[0]] else []) + MetadataTables(order[1..])
  }

  /** Metadata tables enumerated earlier come first: the order of the
      metadata tables follows the mapping's enumeration order. */
  lemma {:induction false} MetadataTablesFollowEnumerationOrder(a: seq<TableDescriptor>, b: seq<TableDescriptor>)
    ensures MetadataTables(a + b) == MetadataTables(a) + MetadataTables(b)
  {
    if |a| > 0 {
      MetadataTablesFollowEnumerationOrder(a[1..], b);
      var head := if a[0].isMetadataTable then [a[0]] else [];
      assert (a + b)[0] == a[0];
      assert (a + b)[1..] == a[1..] + b;
      assert MetadataTables(a + b) == head + MetadataTables(a[1..] + b);
      assert MetadataTables(a) == head + MetadataTables(a[1..]);
      assert head + (MetadataTables(a[1..]) + MetadataTables(b)) == (head + MetadataTables(a[1..])) + MetadataTables(b);
    } else {
      assert a + b == b;
    }
  }

  /** The processor invariant: a well-formed mapping, no metadata table in
      the enabled set, and every dispatch pairs a registered table with its
      own build delegate. */
  predicate Valid(p: Processor)
  {
    && WellFormed(p.tables)
    && (forall d :: d in p.enabledTables ==> !d.isMetadataTable)
    && forall k :: 0 <= k < |p.buildTableCoreCalls| ==>
         && p.buildTableCoreCalls[k].descriptor in p.tables.actions
         && p.buildTableCoreCalls[k].buildAction == p.tables.actions[p.buildTableCoreCalls[k].descriptor]
  }

  /** Construction: the options, environments and mapping are kept as given,
      nothing is enabled and nothing has been dispatched. */
  function CreateProcessor(
    options: seq<OptionInstance>,
    applicationEnvironment: ApplicationEnvironment,
    processorEnvironment: ProcessorEnvironment,
    tables: TableMapping): (p: Processor)
    requires WellFormed(tables)
    ensures p.options == options
    ensures p.applicationEnvironment == applicationEnvironment
    ensures p.processorEnvironment == processorEnvironment
    ensures p.tables == tables
    ensures |p.enabledTables| == 0 && |p.buildTableCoreCalls| == 0
    ensures forall d :: d in MetadataTables(tables.order) ==> d !in p.enabledTables
    ensures Valid(p)
  {
    Processor(options, applicationEnvironment, processorEnvironment, tables, {}, [])
  }

  /** Enabling an optional table (enabling a metadata table is outside what
      the processor defines). */
  function EnableTable(p: Processor, d: TableDescriptor): (r: Processor)
    requires !d.isMetadataTable
    ensures forall t :: t in r.enabledTables <==> t in p.enabledTables || t == d
    ensures |r.enabledTables| == |p.enabledTables| + (if d in p.enabledTables then 0 else 1)
    ensures r == p.(enabledTables := r.enabledTables)
    ensures Valid(p) ==> Valid(r)
  {
    assert d in p.enabledTables ==> p.enabledTables + {d} == p.enabledTables;
    p.(enabledTables := p.enabledTables + {d})
  }

  /** Enabling is set insertion: enabling twice is enabling once. */
  lemma EnableTableIdempotent(p: Processor, d: TableDescriptor)
    requires !d.isMetadataTable
    ensures EnableTable(EnableTable(p, d), d) == EnableTable(p, d)
  {
  }

  /** Building a registered table records exactly one dispatch: the table,
      its registered delegate and the builder given. */
  function BuildTable(p: Processor, d: TableDescriptor, builder: TableBuilder): (r: Processor)
    requires d in p.tables.actions
    ensures |r.buildTableCoreCalls| == |p.buildTableCoreCalls| + 1
    ensures r.buildTableCoreCalls[..|p.buildTableCoreCalls|] == p.buildTableCoreCalls
    ensures r.buildTableCoreCalls[|p.buildTableCoreCalls|] == Dispatch(d, p.tables.actions[d], builder)
    ensures r == p.(buildTableCoreCalls := r.buildTableCoreCalls)
    ensures Valid(p) ==> Valid(r)
  {
    p.(buildTableCoreCalls := p.buildTableCoreCalls + [Dispatch(d, p.tables.actions[d], builder)])
  }

  /** A builder factory that records every builder it creates; the number
      of builders created so far is the id of the next one. */
  datatype BuilderFactory = BuilderFactory(createdBuilders: seq<TableBuilder>)

  /** The i-th builder created carries id i, so no two are equal. */
  predicate FactoryValid(f: BuilderFactory)
  {
    forall i :: 0 <= i < |f.createdBuilders| ==> f.createdBuilders[i].id == i
  }

  function NewFactory(): (f: BuilderFactory)
    ensures |f.createdBuilders| == 0 && FactoryValid(f)
  {
    BuilderFactory([])
  }

  /** One factory call: a builder never handed out before, recorded. */
  function Create(f: BuilderFactory, d: TableDescriptor): (r: (BuilderFactory, TableBuilder))
    requires FactoryValid(f)
    ensures r.1 !in f.createdBuilders
    ensures r.0.createdBuilders == f.createdBuilders + [r.1]
    ensures FactoryValid(r.0)
  {
    var b := TableBuilder(|f.createdBuilders|);
    (BuilderFactory(f.createdBuilders + [b]), b)
  }

  /** The dispatches made for `ds`, in order, each with the table's
      delegate in `m` and a builder obtained from the factory for it. */
  function DispatchEach(m: map<TableDescriptor, BuildAction>, f: BuilderFactory, ds: seq<TableDescriptor>): (r: (seq<Dispatch>, BuilderFactory))
    requires FactoryValid(f)
    requires forall k :: 0 <= k < |ds| ==> ds[k] in m
    ensures FactoryValid(r.1)
    ensures |r.0| == |ds|
    ensures |r.1.createdBuilders| == |f.createdBuilders| + |ds|
    ensures r.1.createdBuilders[..|f.createdBuilders|] == f.createdBuilders
    ensures forall k :: 0 <= k < |ds| ==> r.0[k] == Dispatch(ds[k], m[ds[k]], r.1.createdBuilders[|f.createdBuilders| + k])
    decreases |ds|
  {
    if |ds| == 0 then ([], f)
    else
      var created := Create(f, ds[0]);
      var rest := DispatchEach(m, created.0, ds[1..]);
      var n := |f.createdBuilders|;
      var out := [Dispatch(ds[0], m[ds[0]], created.1)] + rest.0;
      assert rest.1.createdBuilders[..n + 1] == created.0.createdBuilders;
      assert rest.1.createdBuilders[n] == created.1;
      assert forall k :: 0 <= k < |ds| ==> out[k] == Dispatch(ds[k], m[ds[k]], rest.1.createdBuilders[n + k]) by {
        forall k | 0 < k < |ds|
          ensures out[k] == Dispatch(ds[k], m[ds[k]], rest.1.createdBuilders[n + k])
        {
          assert out[k] == rest.0[k - 1];
          assert ds[k] == ds[1..][k - 1];
          assert n + k == |created.0.createdBuilders| + (k - 1);
        }
      }
      (out, rest.1)
  }

  /** Building the metadata tables: one fresh builder per metadata table, and
      one dispatch per metadata table in the mapping's enumeration order. The
      new dispatches and the new builders are the suffixes past what the
      processor and the factory held before. */
  function BuildMetadataTables(p: Processor, f: BuilderFactory): (r: (Processor, BuilderFactory))
    requires WellFormed(p.tables) && FactoryValid(f)
    ensures |r.0.buildTableCoreCalls| == |p.buildTableCoreCalls| + |MetadataTables(p.tables.order)|
    ensures |r.1.createdBuilders| == |f.createdBuilders| + |MetadataTables(p.tables.order)|
    ensures r.0.buildTableCoreCalls[..|p.buildTableCoreCalls|] == p.buildTableCoreCalls
    ensures r.1.createdBuilders[..|f.createdBuilders|] == f.createdBuilders
    ensures var meta := MetadataTables(p.tables.order);
      var dispatched := r.0.buildTableCoreCalls[|p.buildTableCoreCalls|..];
      var built := r.1.createdBuilders[|f.createdBuilders|..];
      forall k :: 0 <= k < |meta| ==>
        && meta[k] in p.tables.actions
        && dispatched[k] == Dispatch(meta[k], p.tables.actions[meta[k]], built[k])
    ensures FactoryValid(r.1)
    ensures forall i, j :: 0 <= i < j < |r.1.createdBuilders| ==> r.1.createdBuilders[i] != r.1.createdBuilders[j]
    ensures r.0 == p.(buildTableCoreCalls := r.0.buildTableCoreCalls)
    ensures Valid(p) ==> Valid(r.0)
  {
    var meta := MetadataTables(p.tables.order);
    var m := p.tables.actions;
    assert forall k :: 0 <= k < |meta| ==> meta[k] in meta;
    var (dispatched, f1) := DispatchEach(m, f, meta);
    var calls := p.buildTableCoreCalls + dispatched;
    var n := |p.buildTableCoreCalls|;
    assert calls[..n] == p.buildTableCoreCalls && calls[n..] == dispatched;
    var built := f1.createdBuilders[|f.createdBuilders|..];
    assert forall k :: 0 <= k < |meta| ==> built[k] == f1.createdBuilders[|f.createdBuilders| + k];
    assert forall k :: 0 <= k < |dispatched| ==> dispatched[k].descriptor in m && dispatched[k].buildAction == m[dispatched[k].descriptor];
    (p.(buildTableCoreCalls := calls), f1)
  }

  /** On a fresh processor and factory: the factory made exactly one builder
      per metadata table, and the i-th dispatch is the i-th metadata table with
      its registered delegate and the i-th builder created; nothing is enabled. */
  lemma BuildMetadataTablesOnFreshProcessor(
    options: seq<OptionInstance>,
    applicationEnvironment: ApplicationEnvironment,
    processorEnvironment: ProcessorEnvironment,
    tables: TableMapping)
    requires WellFormed(tables)
    ensures var r := BuildMetadataTables(CreateProcessor(options, applicationEnvironment, processorEnvironment, tables), NewFactory());
      var meta := MetadataTables(tables.order);
      && |r.1.createdBuilders| == |meta|
      && |r.0.buildTableCoreCalls| == |meta|
      && |r.0.enabledTables| == 0
      && forall i :: 0 <= i < |meta| ==>
           && meta[i] in tables.actions
           && r.0.buildTableCoreCalls[i] == Dispatch(meta[i], tables.actions[meta[i]], r.1.createdBuilders[i])
  {
  }
}
