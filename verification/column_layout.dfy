/** The rules a table configuration's column sequence must obey: each of the
    four reserved marker columns at most once, no Pivot after the Graph
    marker, no LeftFreeze after the RightFreeze marker. The validator is a
    single fail-fast scan; `ValidLayout` is the same rule set stated over
    positions, and the two are proved to agree. */
module ColumnLayout {
  import opened Results
  import opened Columns

  datatype Marker = Pivot | Graph | LeftFreeze | RightFreeze

  /** The rule the scan reports when it rejects a sequence. */
  datatype LayoutError =
    | PivotAfterGraph
    | DuplicatePivot
    | LeftFreezeAfterRightFreeze
    | DuplicateLeftFreeze
    | DuplicateRightFreeze
    | DuplicateGraph

  /** Which marker a column is, if any, tested in the scan's order. */
  function MarkerOf(c: ColumnConfiguration): Option<Marker>
  {
    if SameColumn(c, PivotColumn) then Some(Pivot)
    else if SameColumn(c, LeftFreezeColumn) then Some(LeftFreeze)
    else if SameColumn(c, RightFreezeColumn) then Some(RightFreeze)
    else if SameColumn(c, GraphColumn) then Some(Graph)
    else None
  }

  predicate IsA(c: ColumnConfiguration, m: Marker)
  {
    MarkerOf(c) == Some(m)
  }

  predicate Occurs(cols: seq<ColumnConfiguration>, m: Marker)
  {
    exists i :: 0 <= i < |cols| && IsA(cols[i], m)
  }

  /** No `later` marker is placed anywhere after an `earlier` marker. */
  predicate NeverFollows(cols: seq<ColumnConfiguration>, later: Marker, earlier: Marker)
  {
    forall i, j :: 0 <= i < j < |cols| && IsA(cols[i], earlier) ==> !IsA(cols[j], later)
  }

  /** The declarative layout rules. `NeverFollows(cols, m, m)` says `m` occurs
      at most once (see `AtMostOnceIffCount`); ordinary columns are unconstrained. */
  predicate ValidLayout(cols: seq<ColumnConfiguration>)
  {
    && NeverFollows(cols, Pivot, Pivot)
    && NeverFollows(cols, Graph, Graph)
    && NeverFollows(cols, LeftFreeze, LeftFreeze)
    && NeverFollows(cols, RightFreeze, RightFreeze)
    && NeverFollows(cols, Pivot, Graph)
    && NeverFollows(cols, LeftFreeze, RightFreeze)
  }

  /** Number of occurrences of marker `m`. */
  function Count(cols: seq<ColumnConfiguration>, m: Marker): nat
  {
    if |cols| == 0 then 0
    else Count(cols[..|cols| - 1], m) + (if IsA(cols[|cols| - 1], m) then 1 else 0)
  }

  /** The scan's four "seen" counters. */
  datatype Seen = Seen(pivot: nat, graph: nat, leftFreeze: nat, rightFreeze: nat)
  {
    function Of(m: Marker): nat
    {
      match m
      case Pivot => pivot
      case Graph => graph
      case LeftFreeze => leftFreeze
      case RightFreeze => rightFreeze
    }
  }

  /** One iteration of the scan: an ordinary column passes untouched, a marker
      is checked against the counters and then counted. */
  function Step(s: Seen, c: ColumnConfiguration): Result<Seen, LayoutError>
  {
    match MarkerOf(c)
    case None => Success(s)
    case Some(m) => StepMarker(s, m)
  }

  /** The checks for one marker, in the order the validator makes them. */
  function StepMarker(s: Seen, m: Marker): Result<Seen, LayoutError>
  {
    match m
    case Pivot =>
      if s.graph > 0 then Failure(PivotAfterGraph)
      else if s.pivot > 0 then Failure(DuplicatePivot)
      else Success(s.(pivot := s.pivot + 1))
    case LeftFreeze =>
      if s.rightFreeze > 0 then Failure(LeftFreezeAfterRightFreeze)
      else if s.leftFreeze > 0 then Failure(DuplicateLeftFreeze)
      else Success(s.(leftFreeze := s.leftFreeze + 1))
    case RightFreeze =>
      if s.rightFreeze > 0 then Failure(DuplicateRightFreeze)
      else Success(s.(rightFreeze := s.rightFreeze + 1))
    case Graph =>
      if s.graph > 0 then Failure(DuplicateGraph)
      else Success(s.(graph := s.graph + 1))
  }

  /** The scan as a left fold that stops at the first failing column. When it
      gets through, each counter holds the number of occurrences of its marker. */
  function Scan(cols: seq<ColumnConfiguration>): (r: Result<Seen, LayoutError>)
    ensures r.Success? ==> forall m :: r.value.Of(m) == Count(cols, m)
  {
    if |cols| == 0 then Success(Seen(0, 0, 0, 0))
    else match Scan(cols[..|cols| - 1])
      case Failure(e) => Failure(e)
      case Success(s) => Step(s, cols[|cols| - 1])
  }

  lemma {:induction false} CountOccurs(cols: seq<ColumnConfiguration>, m: Marker)
    ensures Count(cols, m) > 0 <==> Occurs(cols, m)
  {
    if |cols| > 0 {
      var p := cols[..|cols| - 1];
      CountOccurs(p, m);
      if Occurs(p, m) {
        var i :| 0 <= i < |p| && IsA(p[i], m);
        assert cols[i] == p[i];
      }
      if Occurs(cols, m) && !IsA(cols[|cols| - 1], m) {
        var i :| 0 <= i < |cols| && IsA(cols[i], m);
        assert p[i] == cols[i];
      }
    }
  }

  /** Appending one column keeps a rule iff the rule held before and the new
      column is not a `later` marker placed after an `earlier` one. */
  lemma NeverFollowsExtend(p: seq<ColumnConfiguration>, c: ColumnConfiguration, later: Marker, earlier: Marker)
    ensures NeverFollows(p + [c], later, earlier)
        <==> NeverFollows(p, later, earlier) && !(IsA(c, later) && Occurs(p, earlier))
  {
    var q := p + [c];
    if NeverFollows(q, later, earlier) {
      if IsA(c, later) {
        forall i | 0 <= i < |p|
          ensures !IsA(p[i], earlier)
        {
          assert q[i] == p[i] && q[|p|] == c;
        }
      }
      forall i, j | 0 <= i < j < |p| && IsA(p[i], earlier)
        ensures !IsA(p[j], later)
      {
        assert q[i] == p[i] && q[j] == p[j];
      }
    }
  }

  lemma ValidLayoutExtend(p: seq<ColumnConfiguration>, c: ColumnConfiguration)
    ensures ValidLayout(p + [c]) <==>
      && ValidLayout(p)
      && !(IsA(c, Pivot) && (Occurs(p, Pivot) || Occurs(p, Graph)))
      && !(IsA(c, Graph) && Occurs(p, Graph))
      && !(IsA(c, LeftFreeze) && (Occurs(p, LeftFreeze) || Occurs(p, RightFreeze)))
      && !(IsA(c, RightFreeze) && Occurs(p, RightFreeze))
  {
    NeverFollowsExtend(p, c, Pivot, Pivot);
    NeverFollowsExtend(p, c, Graph, Graph);
    NeverFollowsExtend(p, c, LeftFreeze, LeftFreeze);
    NeverFollowsExtend(p, c, RightFreeze, RightFreeze);
    NeverFollowsExtend(p, c, Pivot, Graph);
    NeverFollowsExtend(p, c, LeftFreeze, RightFreeze);
  }

  /** The fail-fast scan accepts exactly the sequences that obey the declarative rules. */
  lemma {:induction false} ScanAcceptsExactlyValidLayouts(cols: seq<ColumnConfiguration>)
    ensures Scan(cols).Success? <==> ValidLayout(cols)
  {
    if |cols| > 0 {
      var p, c := cols[..|cols| - 1], cols[|cols| - 1];
      assert cols == p + [c];
      ScanAcceptsExactlyValidLayouts(p);
      ValidLayoutExtend(p, c);
      CountOccurs(p, Pivot);
      CountOccurs(p, Graph);
      CountOccurs(p, LeftFreeze);
      CountOccurs(p, RightFreeze);
    }
  }

  /** Once the scan has failed, later columns do not change its verdict. */
  lemma {:induction false} ScanFailureSticks(q: seq<ColumnConfiguration>, rest: seq<ColumnConfiguration>)
    requires Scan(q).Failure?
    ensures Scan(q + rest) == Scan(q)
    decreases |rest|
  {
    if |rest| == 0 {
      assert q + rest == q;
    } else {
      var front := rest[..|rest| - 1];
      ScanFailureSticks(q, front);
      assert (q + rest)[..|q + rest| - 1] == q + front;
    }
  }

  /** The validator's verdict: pass, or the first rule the scan found broken. */
  function Validate(cols: seq<ColumnConfiguration>): (r: Outcome<LayoutError>)
    ensures r.Pass? <==> ValidLayout(cols)
  {
    ScanAcceptsExactlyValidLayouts(cols);
    match Scan(cols)
    case Success(_) => Pass
    case Failure(e) => Fail(e)
  }

  /** The rule that placing `c` after the valid prefix `p` breaks first,
      checked in the validator's order, in terms of what `p` contains. */
  function Admits(p: seq<ColumnConfiguration>, c: ColumnConfiguration): Outcome<LayoutError>
  {
    match MarkerOf(c)
    case None => Pass
    case Some(Pivot) =>
      if Occurs(p, Graph) then Fail(PivotAfterGraph)
      else if Occurs(p, Pivot) then Fail(DuplicatePivot)
      else Pass
    case Some(LeftFreeze) =>
      if Occurs(p, RightFreeze) then Fail(LeftFreezeAfterRightFreeze)
      else if Occurs(p, LeftFreeze) then Fail(DuplicateLeftFreeze)
      else Pass
    case Some(RightFreeze) =>
      if Occurs(p, RightFreeze) then Fail(DuplicateRightFreeze) else Pass
    case Some(Graph) =>
      if Occurs(p, Graph) then Fail(DuplicateGraph) else Pass
  }

  /** Fail-fast reporting: extending a valid prefix by `c` stays valid exactly
      when `Admits` passes; otherwise the whole sequence is rejected with the
      rule `c` breaks, whatever columns follow. */
  lemma {:induction false} FirstViolationReported(p: seq<ColumnConfiguration>, c: ColumnConfiguration, rest: seq<ColumnConfiguration>)
    requires ValidLayout(p)
    ensures Admits(p, c).Pass? <==> ValidLayout(p + [c])
    ensures Admits(p, c).Fail? ==> Validate(p + [c] + rest) == Admits(p, c)
  {
    ValidLayoutExtend(p, c);
    ScanAcceptsExactlyValidLayouts(p);
    CountOccurs(p, Pivot);
    CountOccurs(p, Graph);
    CountOccurs(p, LeftFreeze);
    CountOccurs(p, RightFreeze);
    var q := p + [c];
    assert q[..|q| - 1] == p;
    if Admits(p, c).Fail? {
      ScanFailureSticks(q, rest);
    }
  }

  lemma PivotRules(p: seq<ColumnConfiguration>, rest: seq<ColumnConfiguration>)
    requires ValidLayout(p)
    ensures Occurs(p, Graph) ==> Validate(p + [PivotColumn] + rest) == Fail(PivotAfterGraph)
    ensures !Occurs(p, Graph) && Occurs(p, Pivot) ==> Validate(p + [PivotColumn] + rest) == Fail(DuplicatePivot)
    ensures !Occurs(p, Graph) && !Occurs(p, Pivot) ==> ValidLayout(p + [PivotColumn])
  {
    FirstViolationReported(p, PivotColumn, rest);
  }

  lemma LeftFreezeRules(p: seq<ColumnConfiguration>, rest: seq<ColumnConfiguration>)
    requires ValidLayout(p)
    ensures Occurs(p, RightFreeze) ==> Validate(p + [LeftFreezeColumn] + rest) == Fail(LeftFreezeAfterRightFreeze)
    ensures !Occurs(p, RightFreeze) && Occurs(p, LeftFreeze) ==> Validate(p + [LeftFreezeColumn] + rest) == Fail(DuplicateLeftFreeze)
    ensures !Occurs(p, RightFreeze) && !Occurs(p, LeftFreeze) ==> ValidLayout(p + [LeftFreezeColumn])
  {
    FirstViolationReported(p, LeftFreezeColumn, rest);
  }

  lemma RightFreezeAndGraphRules(p: seq<ColumnConfiguration>, rest: seq<ColumnConfiguration>)
    requires ValidLayout(p)
    ensures Occurs(p, RightFreeze) ==> Validate(p + [RightFreezeColumn] + rest) == Fail(DuplicateRightFreeze)
    ensures !Occurs(p, RightFreeze) ==> ValidLayout(p + [RightFreezeColumn])
    ensures Occurs(p, Graph) ==> Validate(p + [GraphColumn] + rest) == Fail(DuplicateGraph)
    ensures !Occurs(p, Graph) ==> ValidLayout(p + [GraphColumn])
  {
    FirstViolationReported(p, RightFreezeColumn, rest);
    FirstViolationReported(p, GraphColumn, rest);
  }

  /** "At most once" in counting terms. */
  lemma {:induction false} AtMostOnceIffCount(cols: seq<ColumnConfiguration>, m: Marker)
    ensures NeverFollows(cols, m, m) <==> Count(cols, m) <= 1
  {
    if |cols| > 0 {
      var p, c := cols[..|cols| - 1], cols[|cols| - 1];
      assert cols == p + [c];
      AtMostOnceIffCount(p, m);
      NeverFollowsExtend(p, c, m, m);
      CountOccurs(p, m);
    }
  }

  /** The reserved markers of a sequence, in order, with the ordinary columns
      dropped. Only which marker a column is matters, not its display name. */
  function MarkerSeq(cols: seq<ColumnConfiguration>): seq<Marker>
  {
    if |cols| == 0 then []
    else
      var c := cols[|cols| - 1];
      MarkerSeq(cols[..|cols| - 1]) + (match MarkerOf(c) case None => [] case Some(m) => [m])
  }

  /** The scan run over markers alone. */
  function ScanMarkers(ms: seq<Marker>): Result<Seen, LayoutError>
  {
    if |ms| == 0 then Success(Seen(0, 0, 0, 0))
    else match ScanMarkers(ms[..|ms| - 1])
      case Failure(e) => Failure(e)
      case Success(s) => StepMarker(s, ms[|ms| - 1])
  }

  /** The scan of a column sequence is the scan of its marker sequence. */
  lemma {:induction false} ScanIgnoresOrdinaryColumns(cols: seq<ColumnConfiguration>)
    ensures Scan(cols) == ScanMarkers(MarkerSeq(cols))
  {
    if |cols| > 0 {
      var p, c := cols[..|cols| - 1], cols[|cols| - 1];
      ScanIgnoresOrdinaryColumns(p);
      match MarkerOf(c)
      case Some(m) =>
        var q := MarkerSeq(p) + [m];
        assert q[..|q| - 1] == MarkerSeq(p);
      case None =>
        assert MarkerSeq(cols) == MarkerSeq(p);
    }
  }

  /** The verdict depends only on the relative order of the reserved markers:
      interleaving ordinary columns differently, or renaming a marker column,
      changes nothing. */
  lemma SameMarkersSameVerdict(a: seq<ColumnConfiguration>, b: seq<ColumnConfiguration>)
    requires MarkerSeq(a) == MarkerSeq(b)
    ensures Validate(a) == Validate(b)
  {
    ScanIgnoresOrdinaryColumns(a);
    ScanIgnoresOrdinaryColumns(b);
  }

  /** Ordinary columns around markers in the allowed order pass; a Pivot
      directly after the Graph marker is reported as such. */
  lemma ExampleLayouts(a: ColumnConfiguration, b: ColumnConfiguration, c: ColumnConfiguration)
    requires MarkerOf(a).None? && MarkerOf(b).None? && MarkerOf(c).None?
    ensures Validate([a, PivotColumn, b, GraphColumn, c]) == Pass
    ensures Validate([a, GraphColumn, PivotColumn]) == Fail(PivotAfterGraph)
  {
    var good := [a, PivotColumn, b, GraphColumn, c];
    assert MarkerOf(PivotColumn) == Some(Pivot) && MarkerOf(GraphColumn) == Some(Graph);
    assert ValidLayout(good);
    var p := [a, GraphColumn];
    assert IsA(p[1], Graph);
    PivotRules(p, []);
    assert p + [PivotColumn] + [] == [a, GraphColumn, PivotColumn];
  }

  /** Once the first `i + 1` columns fail the scan, the whole sequence gets that verdict. */
  lemma StopsAt(columns: seq<ColumnConfiguration>, i: nat)
    requires i < |columns| && Scan(columns[..i + 1]).Failure?
    ensures Scan(columns) == Scan(columns[..i + 1])
  {
    ScanFailureSticks(columns[..i + 1], columns[i + 1..]);
    assert columns[..i + 1] + columns[i + 1..] == columns;
  }

  /** The validator as the single linear scan with four counters. */
  method ValidateColumnCollection(columns: seq<ColumnConfiguration>) returns (r: Outcome<LayoutError>)
    ensures r == Validate(columns)
    ensures r.Pass? <==> ValidLayout(columns)
  {
    var isLeftFreezeSeen: nat, isRightFreezeSeen: nat, isPivotSeen: nat, isGraphSeen: nat := 0, 0, 0, 0;
    var i := 0;
    while i < |columns|
      invariant 0 <= i <= |columns|
      invariant Scan(columns[..i]) == Success(Seen(isPivotSeen, isGraphSeen, isLeftFreezeSeen, isRightFreezeSeen))
    {
      var c := columns[i];
      assert columns[..i + 1][..i] == columns[..i];
      if SameColumn(c, PivotColumn) {
        if isGraphSeen > 0 {
          r := Fail(PivotAfterGraph);
          StopsAt(columns, i);
          return;
        }
        if isPivotSeen > 0 {
          r := Fail(DuplicatePivot);
          StopsAt(columns, i);
          return;
        }
        isPivotSeen := isPivotSeen + 1;
      } else if SameColumn(c, LeftFreezeColumn) {
        if isRightFreezeSeen > 0 {
          r := Fail(LeftFreezeAfterRightFreeze);
          StopsAt(columns, i);
          return;
        }
        if isLeftFreezeSeen > 0 {
          r := Fail(DuplicateLeftFreeze);
          StopsAt(columns, i);
          return;
        }
        isLeftFreezeSeen := isLeftFreezeSeen + 1;
      } else if SameColumn(c, RightFreezeColumn) {
        if isRightFreezeSeen > 0 {
          r := Fail(DuplicateRightFreeze);
          StopsAt(columns, i);
          return;
        }
        isRightFreezeSeen := isRightFreezeSeen + 1;
      } else if SameColumn(c, GraphColumn) {
        if isGraphSeen > 0 {
          r := Fail(DuplicateGraph);
          StopsAt(columns, i);
          return;
        }
        isGraphSeen := isGraphSeen + 1;
      }
      i := i + 1;
    }
    assert columns[..i] == columns;
    r := Pass;
  }
}
