/**
 How a cycle's work shape and work scope grow as Execute requests arrive:
 proposed_work_shape, common_scope and merge_scope of the tool pipeline.
 A scope is a path; it is compared by its segments.
*/
module WorkScope {
  import opened Wrappers

  /* ---------- work shape ---------- */

  datatype Shape = ReadOnly | Bounded | Durable | OperateApplication | Invariant

  function Rank(shape: Shape): nat {
    match shape
    case ReadOnly => 0
    case Bounded => 1
    case Durable => 2
    case OperateApplication => 3
    case Invariant => 4
  }

  /** The three facts about a request that the shape classifier looks at. */
  datatype ShapeRequest = ShapeRequest(touchesInvariantPath: bool, operatesApplication: bool, taskPatch: bool)

  function ProposedShape(current: Shape, request: ShapeRequest): Shape {
    var proposed :=
      if request.touchesInvariantPath then Invariant
      else if request.operatesApplication then OperateApplication
      else if request.taskPatch || current == Durable then Durable
      else Bounded;
    if Rank(current) > Rank(proposed) then current else proposed
  }

  /** The shape a request asks for on its own, whatever cycle it arrives in. */
  function DemandedShape(request: ShapeRequest): Shape {
    if request.touchesInvariantPath then Invariant
    else if request.operatesApplication then OperateApplication
    else if request.taskPatch then Durable
    else Bounded
  }

  function FoldShape(initial: Shape, requests: seq<ShapeRequest>): Shape {
    if requests == [] then initial
    else ProposedShape(FoldShape(initial, requests[..|requests| - 1]), requests[|requests| - 1])
  }

  /** `top` is the rank-maximum of the initial shape and every demanded shape. */
  ghost predicate IsRankMaximum(top: Shape, initial: Shape, requests: seq<ShapeRequest>) {
    && Rank(initial) <= Rank(top)
    && (forall request <- requests :: Rank(DemandedShape(request)) <= Rank(top))
    && (top == initial || exists request <- requests :: top == DemandedShape(request))
  }

  lemma {:induction false} FoldShapeIsRankMaximum(initial: Shape, requests: seq<ShapeRequest>)
    ensures IsRankMaximum(FoldShape(initial, requests), initial, requests)
  {
    if requests != [] {
      var front, last := requests[..|requests| - 1], requests[|requests| - 1];
      FoldShapeIsRankMaximum(initial, front);
      var before, top := FoldShape(initial, front), FoldShape(initial, requests);
      assert top == before || top == DemandedShape(last);
      assert forall request <- requests :: request == last || request in front;
      assert last in requests;
    }
  }

  /** The resulting shape depends only on which requests were made, not on their order or number. */
  lemma ShapeIsOrderIndependent(initial: Shape, first: seq<ShapeRequest>, second: seq<ShapeRequest>)
    requires forall request :: request in first <==> request in second
    ensures FoldShape(initial, first) == FoldShape(initial, second)
  {
    FoldShapeIsRankMaximum(initial, first);
    FoldShapeIsRankMaximum(initial, second);
  }

  /** A plan made on an older row proposes the right shape exactly when the shape is the same or outranked. */
  lemma StaleShapeIsRightExactlyWhen(planned: Shape, current: Shape, request: ShapeRequest)
    ensures ProposedShape(planned, request) == ProposedShape(current, request) <==>
            || planned == current
            || (Rank(planned) <= Rank(DemandedShape(request)) && Rank(current) <= Rank(DemandedShape(request)))
  {
  }

  /* ---------- path segments ---------- */

  function Split(path: string): (parts: seq<string>)
    ensures |parts| > 0
    ensures forall part <- parts :: '/' !in part
  {
    if path == "" then [""]
    else
      var rest := Split(path[1..]);
      if path[0] == '/' then [""] + rest
      else
        assert rest[0] in rest;
        assert forall part <- rest[1..] :: part in rest;
        [[path[0]] + rest[0]] + rest[1..]
  }

  predicate Meaningful(segment: string) {
    segment != "" && segment != "."
  }

  function Keep(parts: seq<string>): (kept: seq<string>)
    ensures forall part <- kept :: part in parts && Meaningful(part)
  {
    if parts == [] then []
    else if Meaningful(parts[0]) then [parts[0]] + Keep(parts[1..])
    else Keep(parts[1..])
  }

  function Segments(path: string): (segments: seq<string>)
    ensures forall segment <- segments :: Meaningful(segment) && '/' !in segment
  {
    Keep(Split(path))
  }

  /** Empty parts and dots say nothing about a path; every other part is one of its segments. */
  lemma {:induction false} PartsCount(front: seq<string>, part: string, back: seq<string>)
    ensures Keep(front + [part] + back) == Keep(front) + (if part == "" || part == "." then [] else [part]) + Keep(back)
  {
    if front == [] {
      assert front + [part] + back == [part] + back;
    } else {
      assert (front + [part] + back)[1..] == front[1..] + [part] + back;
      PartsCount(front[1..], part, back);
    }
  }

  function Join(segments: seq<string>): string {
    if segments == [] then ""
    else if |segments| == 1 then segments[0]
    else segments[0] + "/" + Join(segments[1..])
  }

  lemma {:induction false} SplitPrefix(part: string, rest: string)
    requires '/' !in part
    ensures Split(part) == [part]
    ensures Split(part + "/" + rest) == [part] + Split(rest)
  {
    if part == "" {
      assert part + "/" + rest == ['/'] + rest;
    } else {
      SplitPrefix(part[1..], rest);
      var whole := part + "/" + rest;
      assert whole[1..] == part[1..] + "/" + rest;
      assert [part[0]] + part[1..] == part;
    }
  }

  /** Joining clean segments and splitting again gives the segments back. */
  lemma {:induction false} SegmentsOfJoin(segments: seq<string>)
    requires segments != []
    requires forall segment <- segments :: Meaningful(segment) && '/' !in segment
    ensures Segments(Join(segments)) == segments
  {
    var head := segments[0];
    assert head in segments;
    if |segments| == 1 {
      SplitPrefix(head, "");
      assert Keep([head]) == [head] + Keep([]);
      assert segments == [head];
    } else {
      var tail := segments[1..];
      assert forall segment <- tail :: segment in segments;
      SegmentsOfJoin(tail);
      SplitPrefix(head, Join(tail));
      assert Join(segments) == head + "/" + Join(tail);
      assert ([head] + Split(Join(tail)))[1..] == Split(Join(tail));
      assert segments == [head] + tail;
    }
  }

  /* ---------- longest common prefix ---------- */

  function Lcp(a: seq<string>, b: seq<string>): (common: seq<string>)
    ensures common <= a && common <= b
    ensures |common| == |a| || |common| == |b| || a[|common|] != b[|common|]
  {
    if a == [] || b == [] || a[0] != b[0] then []
    else [a[0]] + Lcp(a[1..], b[1..])
  }

  lemma {:induction false} LcpIsGreatest(a: seq<string>, b: seq<string>, c: seq<string>)
    requires c <= a && c <= b
    ensures c <= Lcp(a, b)
  {
    if c != [] {
      LcpIsGreatest(a[1..], b[1..], c[1..]);
    }
  }

  lemma {:induction false} LcpIsFirstMismatch(a: seq<string>, b: seq<string>, keep: nat)
    requires keep <= |a| && keep <= |b| && a[..keep] == b[..keep]
    requires keep == |a| || keep == |b| || a[keep] != b[keep]
    ensures Lcp(a, b) == a[..keep]
  {
    if keep > 0 {
      assert a[0] == a[..keep][0] && b[0] == b[..keep][0];
      assert a[1..][..keep - 1] == a[..keep][1..] && b[1..][..keep - 1] == b[..keep][1..];
      LcpIsFirstMismatch(a[1..], b[1..], keep - 1);
    }
  }

  function LcpAll(paths: seq<string>): seq<string>
    requires paths != []
  {
    if |paths| == 1 then Segments(paths[0])
    else Lcp(LcpAll(paths[..|paths| - 1]), Segments(paths[|paths| - 1]))
  }

  /** common_scope: a single path is kept as it was written, several are cut to what they share. */
  function CommonScope(paths: seq<string>): Option<string> {
    if paths == [] then None
    else if LcpAll(paths) == [] then Some(".")
    else if |paths| == 1 then Some(paths[0])
    else Some(Join(LcpAll(paths)))
  }

  lemma {:induction false} LcpAllClean(paths: seq<string>)
    requires paths != []
    ensures forall segment <- LcpAll(paths) :: Meaningful(segment) && '/' !in segment
  {
    if |paths| > 1 {
      var front := paths[..|paths| - 1];
      LcpAllClean(front);
      assert LcpAll(paths) <= LcpAll(front);
      forall segment <- LcpAll(paths) ensures Meaningful(segment) && '/' !in segment {
        assert segment in LcpAll(front);
      }
    }
  }

  lemma CommonScopeSegments(paths: seq<string>)
    requires paths != []
    ensures Segments(CommonScope(paths).value) == LcpAll(paths)
  {
    LcpAllClean(paths);
    if LcpAll(paths) == [] {
      SplitPrefix(".", "");
      assert Keep(["."]) == Keep([]);
    } else if |paths| > 1 {
      SegmentsOfJoin(LcpAll(paths));
    }
  }

  /** How many leading segments two paths share. */
  method CountShared(a: seq<string>, b: seq<string>) returns (keep: nat)
    ensures keep <= |a| && a[..keep] == Lcp(a, b)
  {
    keep := 0;
    while keep < |a| && keep < |b| && a[keep] == b[keep]
      invariant keep <= |a| && keep <= |b| && a[..keep] == b[..keep]
    {
      keep := keep + 1;
    }
    LcpIsFirstMismatch(a, b, keep);
  }

  /** The source's loop: truncate `common` in place, path by path. */
  method ComputeCommonScope(paths: seq<string>) returns (scope: Option<string>)
    ensures scope == CommonScope(paths)
    ensures scope.None? <==> paths == []
    ensures |paths| == 1 ==> scope == Some(if Segments(paths[0]) == [] then "." else paths[0])
    ensures |paths| > 1 ==> scope.value == "." || scope.value == Join(Segments(scope.value))
  {
    if paths != [] {
      CommonScopeSegments(paths);
    }
    if paths == [] {
      return None;
    }
    var common := Segments(paths[0]);
    var i := 1;
    while i < |paths|
      invariant 1 <= i <= |paths|
      invariant common == LcpAll(paths[..i])
    {
      var keep := CountShared(common, Segments(paths[i]));
      assert paths[..i + 1][..i] == paths[..i];
      common := common[..keep];
      i := i + 1;
    }
    assert paths[..i] == paths;
    if common == [] {
      scope := Some(".");
    } else if |paths| == 1 {
      scope := Some(paths[0]);
    } else {
      scope := Some(Join(common));
    }
  }

  function MergeScope(current: Option<string>, observed: Option<string>): Option<string> {
    if current.None? then observed
    else if observed.None? then current
    else if current == observed then current
    else CommonScope([current.value, observed.value])
  }

  function FoldScope(initial: Option<string>, observed: seq<Option<string>>): Option<string> {
    if observed == [] then initial
    else MergeScope(FoldScope(initial, observed[..|observed| - 1]), observed[|observed| - 1])
  }

  /** `path` is one of the scopes that went into the merge. */
  ghost predicate Contributes(path: string, initial: Option<string>, observed: seq<Option<string>>) {
    initial == Some(path) || Some(path) in observed
  }

  ghost predicate IsCommonPrefix(segments: seq<string>, initial: Option<string>, observed: seq<Option<string>>) {
    forall path | Contributes(path, initial, observed) :: segments <= Segments(path)
  }

  /** A prefix of every contributing scope that every other such prefix is a prefix of. */
  ghost predicate IsGreatestCommonPrefix(segments: seq<string>, initial: Option<string>,
                                         observed: seq<Option<string>>) {
    && IsCommonPrefix(segments, initial, observed)
    && (forall other | IsCommonPrefix(other, initial, observed) :: other <= segments)
  }

  lemma MergeScopeSegments(left: string, right: string)
    ensures MergeScope(Some(left), Some(right)).Some?
    ensures Segments(MergeScope(Some(left), Some(right)).value) == Lcp(Segments(left), Segments(right))
  {
    if left == right {
      LcpIsGreatest(Segments(left), Segments(left), Segments(left));
    } else {
      CommonScopeSegments([left, right]);
      assert [left, right][..1] == [left];
    }
  }

  /** The scope of a cycle is the longest common prefix, by segments, of all scopes it saw. */
  lemma {:induction false} FoldScopeIsGreatestCommonPrefix(initial: Option<string>, observed: seq<Option<string>>)
    ensures FoldScope(initial, observed).None? <==> forall path :: !Contributes(path, initial, observed)
    ensures FoldScope(initial, observed).Some? ==>
              IsGreatestCommonPrefix(Segments(FoldScope(initial, observed).value), initial, observed)
  {
    if observed == [] {
      if initial.Some? {
        assert Contributes(initial.value, initial, observed);
      }
    } else {
      var front, last := observed[..|observed| - 1], observed[|observed| - 1];
      FoldScopeIsGreatestCommonPrefix(initial, front);
      assert observed == front + [last];
      var before, after := FoldScope(initial, front), FoldScope(initial, observed);
      assert forall path :: Contributes(path, initial, observed) <==>
        Contributes(path, initial, front) || last == Some(path);
      if last.Some? {
        assert Contributes(last.value, initial, observed);
        if before.Some? {
          MergeScopeSegments(before.value, last.value);
          GreatestAfterMerge(initial, front, last.value, Segments(before.value));
        }
      } else if before.Some? {
        assert forall other :: IsCommonPrefix(other, initial, observed) <==> IsCommonPrefix(other, initial, front);
      }
    }
  }

  lemma GreatestAfterMerge(initial: Option<string>, front: seq<Option<string>>, last: string, segments: seq<string>)
    requires IsGreatestCommonPrefix(segments, initial, front)
    ensures IsGreatestCommonPrefix(Lcp(segments, Segments(last)), initial, front + [Some(last)])
  {
    var observed, merged := front + [Some(last)], Lcp(segments, Segments(last));
    assert forall path :: Contributes(path, initial, observed) <==> Contributes(path, initial, front) || path == last;
    forall other | IsCommonPrefix(other, initial, observed)
      ensures other <= merged
    {
      assert IsCommonPrefix(other, initial, front);
      assert Contributes(last, initial, observed);
      LcpIsGreatest(segments, Segments(last), other);
    }
    forall path | Contributes(path, initial, observed)
      ensures merged <= Segments(path)
    {
      assert path == last || segments <= Segments(path);
    }
  }

  /** The resulting scope depends only on which scopes were observed, not on their order or number. */
  lemma ScopeIsOrderIndependent(initial: Option<string>, first: seq<Option<string>>, second: seq<Option<string>>)
    requires forall scope :: scope in first <==> scope in second
    ensures FoldScope(initial, first).Some? <==> FoldScope(initial, second).Some?
    ensures FoldScope(initial, first).Some? ==>
              Segments(FoldScope(initial, first).value) == Segments(FoldScope(initial, second).value)
  {
    FoldScopeIsGreatestCommonPrefix(initial, first);
    FoldScopeIsGreatestCommonPrefix(initial, second);
    assert forall path :: Contributes(path, initial, first) <==> Contributes(path, initial, second);
    if FoldScope(initial, first).Some? {
      var a, b := Segments(FoldScope(initial, first).value), Segments(FoldScope(initial, second).value);
      assert IsCommonPrefix(a, initial, second) && IsCommonPrefix(b, initial, first);
    }
  }

  /* ---------- scopes planned on an older row ---------- */

  /** The same place: no scope, or the same segments. */
  predicate SameScope(a: Option<string>, b: Option<string>) {
    (a.Some? <==> b.Some?) && (a.Some? ==> Segments(a.value) == Segments(b.value))
  }

  lemma MergeRespectsSame(a: Option<string>, b: Option<string>, observed: Option<string>)
    requires SameScope(a, b)
    ensures SameScope(MergeScope(a, observed), MergeScope(b, observed))
  {
    if a.Some? && observed.Some? {
      MergeScopeSegments(a.value, observed.value);
      MergeScopeSegments(b.value, observed.value);
    }
  }

  /** How much of `path` is left when it is merged into the scope, in segments. */
  function Depth(scope: Option<string>, path: string): nat {
    if scope.None? then |Segments(path)| else |Lcp(Segments(scope.value), Segments(path))|
  }

  /** The scope that an Execute leaves in the row when its plan was made on an older one. */
  function PlannedScope(planned: Option<string>, current: Option<string>, observed: Option<string>): Option<string> {
    if MergeScope(planned, observed).Some? then MergeScope(planned, observed) else current
  }

  lemma MergeIsPrefix(scope: Option<string>, path: string)
    ensures MergeScope(scope, Some(path)).Some?
    ensures Segments(MergeScope(scope, Some(path)).value) == Segments(path)[..Depth(scope, path)]
  {
    if scope.Some? {
      MergeScopeSegments(scope.value, path);
    }
  }

  /**
   A plan made on an older row leaves the right scope exactly when, for a call that names a path, both rows
   share equally much of it, and for a call that names none, the older row had no scope or the same one.
  */
  lemma StaleScopeIsRightExactlyWhen(planned: Option<string>, current: Option<string>, observed: Option<string>)
    ensures SameScope(PlannedScope(planned, current, observed), MergeScope(current, observed)) <==>
            if observed.Some? then Depth(planned, observed.value) == Depth(current, observed.value)
            else planned.None? || SameScope(planned, current)
  {
    if observed.Some? {
      var segments := Segments(observed.value);
      MergeIsPrefix(planned, observed.value);
      MergeIsPrefix(current, observed.value);
      assert |segments[..Depth(planned, observed.value)]| == Depth(planned, observed.value);
      assert |segments[..Depth(current, observed.value)]| == Depth(current, observed.value);
    }
  }
}
