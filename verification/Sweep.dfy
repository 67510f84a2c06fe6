/**
 The history checker's test for two clients holding one resource at once: group
 the held intervals by resource, sort each group by start, and walk it keeping
 the interval that ends last.
 */
module Sweep {
  import opened Domain

  datatype Hold = Hold(process: nat, from: int, to: int)

  /** A completed operation; `held` is absent when it never held the resource. */
  datatype Op = Op(resource: string, held: Option<Hold>)

  /** `previous` still held the resource when `current` got it. */
  datatype Violation = Violation(previous: Hold, current: Hold)

  predicate Overlap(a: Hold, b: Hold) {
    a.from < b.to && b.from < a.to
  }

  // ------------------------------------------------------------------- sorting

  ghost predicate SortedByStart(s: seq<Hold>) {
    forall i, j :: 0 <= i < j < |s| ==> s[i].from <= s[j].from
  }

  /** Before the first interval that starts no earlier, so that equal starts keep their order. */
  function Insert(x: Hold, s: seq<Hold>): seq<Hold> {
    if s == [] || x.from <= s[0].from then [x] + s else [s[0]] + Insert(x, s[1..])
  }

  function Sort(s: seq<Hold>): seq<Hold> {
    if s == [] then [] else Insert(s[0], Sort(s[1..]))
  }

  lemma {:induction false} InsertContents(x: Hold, s: seq<Hold>)
    ensures multiset(Insert(x, s)) == multiset(s) + multiset{x}
  {
    if s != [] && x.from > s[0].from {
      InsertContents(x, s[1..]);
      assert s == [s[0]] + s[1..];
    }
  }

  lemma {:induction false} InsertSorted(x: Hold, s: seq<Hold>)
    requires SortedByStart(s)
    ensures SortedByStart(Insert(x, s))
    ensures forall h :: h in Insert(x, s) ==> h == x || h in s
  {
    if s != [] && x.from > s[0].from {
      var rest := Insert(x, s[1..]);
      InsertSorted(x, s[1..]);
      forall i | 0 <= i < |rest| ensures s[0].from <= rest[i].from {
        assert rest[i] in rest;
      }
    }
  }

  /** Sorting by start gives an ordered list of the same intervals. */
  lemma {:induction false} SortCorrect(s: seq<Hold>)
    ensures SortedByStart(Sort(s))
    ensures multiset(Sort(s)) == multiset(s)
  {
    if s != [] {
      SortCorrect(s[1..]);
      InsertSorted(s[0], Sort(s[1..]));
      InsertContents(s[0], Sort(s[1..]));
      assert s == [s[0]] + s[1..];
    }
  }

  /** The intervals that start at `start`, in order. */
  function StartingAt(s: seq<Hold>, start: int): seq<Hold> {
    if s == [] then [] else (if s[0].from == start then [s[0]] else []) + StartingAt(s[1..], start)
  }

  lemma StartingNext(x: Hold, s: seq<Hold>, start: int)
    ensures StartingAt([x] + s, start) == (if x.from == start then [x] else []) + StartingAt(s, start)
  {
    assert ([x] + s)[1..] == s;
  }

  lemma {:induction false} InsertStable(x: Hold, s: seq<Hold>, start: int)
    requires SortedByStart(s)
    ensures StartingAt(Insert(x, s), start) == (if x.from == start then [x] else []) + StartingAt(s, start)
  {
    hide StartingAt;
    if s == [] || x.from <= s[0].from {
      StartingNext(x, s, start);
    } else {
      InsertStable(x, s[1..], start);
      StartingNext(s[0], Insert(x, s[1..]), start);
      StartingNext(s[0], s[1..], start);
      assert s == [s[0]] + s[1..];
      var rest := StartingAt(s[1..], start);
      assert [] + rest == rest;
    }
  }

  /** Intervals with equal starts keep their order. */
  lemma {:induction false} SortStable(s: seq<Hold>, start: int)
    ensures StartingAt(Sort(s), start) == StartingAt(s, start)
  {
    if s != [] {
      hide StartingAt;
      SortStable(s[1..], start);
      SortCorrect(s[1..]);
      InsertStable(s[0], Sort(s[1..]), start);
      StartingNext(s[0], s[1..], start);
      assert s == [s[0]] + s[1..];
    }
  }

  // --------------------------------------------------------------------- sweep

  datatype Acc = Acc(latest: Option<Hold>, violations: seq<Violation>)

  function Visit(acc: Acc, op: Hold): Acc {
    var violations :=
      if acc.latest.Some? && op.from < acc.latest.value.to
      then acc.violations + [Violation(acc.latest.value, op)] else acc.violations;
    Acc(if acc.latest.None? || acc.latest.value.to < op.to then Some(op) else acc.latest, violations)
  }

  function Reduce(s: seq<Hold>): Acc {
    if s == [] then Acc(None, []) else Visit(Reduce(s[..|s| - 1]), s[|s| - 1])
  }

  lemma EndsLastNext(s: seq<Hold>, i: nat)
    requires s != [] && EndsLast(s[..|s| - 1], |s| - 1, i)
    ensures EndsLast(s, |s|, if s[i].to < s[|s| - 1].to then |s| - 1 else i)
  {
    var n := |s| - 1;
    assert forall k :: 0 <= k < n ==> s[..n][k] == s[k];
    forall k | 0 <= k < n ensures s[k].to <= s[i].to {
      assert s[..n][k].to <= s[..n][i].to;
    }
    forall k | 0 <= k < i ensures s[k].to < s[i].to {
      assert s[..n][k].to < s[..n][i].to;
    }
  }

  /** The interval kept is the first of those visited that ends last. */
  lemma {:induction false} LatestEndsLast(s: seq<Hold>)
    ensures Reduce(s).latest.None? <==> s == []
    ensures s != [] ==> exists i :: EndsLast(s, |s|, i) && s[i] == Reduce(s).latest.value
  {
    if s != [] {
      var n := |s| - 1;
      LatestEndsLast(s[..n]);
      assert Reduce(s) == Visit(Reduce(s[..n]), s[n]);
      if n == 0 {
        assert EndsLast(s, |s|, 0);
      } else {
        var i :| EndsLast(s[..n], n, i) && s[..n][i] == Reduce(s[..n]).latest.value;
        EndsLastNext(s, i);
        hide EndsLast, Reduce;
        var last := if s[i].to < s[n].to then n else i;
        assert EndsLast(s, |s|, last) && s[last] == Reduce(s).latest.value;
      }
    }
  }

  lemma LatestBounds(s: seq<Hold>, i: nat)
    requires i < |s|
    ensures Reduce(s).latest.Some? && s[i].to <= Reduce(s).latest.value.to
  {
    hide Reduce;
    LatestEndsLast(s);
    var last :| EndsLast(s, |s|, last) && s[last] == Reduce(s).latest.value;
  }

  /** An interval starts while an earlier one in the sorted order is still open. */
  ghost predicate StartsInside(s: seq<Hold>, j: nat)
    requires j < |s|
  {
    exists i :: 0 <= i < j && s[j].from < s[i].to
  }

  /** Of the first `n` intervals, the `i`-th ends last, and is the first to end then. */
  ghost predicate EndsLast(s: seq<Hold>, n: int, i: int) {
    && 0 <= i < n <= |s|
    && (forall k :: 0 <= k < n ==> s[k].to <= s[i].to)
    && (forall k :: 0 <= k < i ==> s[k].to < s[i].to)
  }

  /** `v` reports the `j`-th interval with the one of the earlier that ends last, which was still open. */
  ghost predicate Reports(s: seq<Hold>, v: Violation, i: int, j: int) {
    0 <= i < j < |s| && v == Violation(s[i], s[j]) && s[j].from < s[i].to && EndsLast(s, j, i)
  }

  /** Every report is of an interval that starts inside an earlier one, with such an earlier one. */
  lemma {:induction false} ReportsAreTrue(s: seq<Hold>, v: Violation)
    requires v in Reduce(s).violations
    ensures exists i, j :: Reports(s, v, i, j)
  {
    var n := |s| - 1;
    var before := s[..n];
    if v in Reduce(before).violations {
      ReportsAreTrue(before, v);
      var i, j :| Reports(before, v, i, j);
      assert forall k :: 0 <= k < n ==> before[k] == s[k];
      assert EndsLast(s, j, i);
      assert Reports(s, v, i, j);
    } else {
      LatestEndsLast(before);
      var i :| EndsLast(before, n, i) && before[i] == Reduce(before).latest.value;
      assert forall k :: 0 <= k < n ==> before[k] == s[k];
      assert EndsLast(s, n, i);
      assert Reports(s, v, i, n);
    }
  }

  /** Every interval that starts inside an earlier one is reported. */
  lemma {:induction false} AllAreReported(s: seq<Hold>, j: nat)
    requires j < |s| && StartsInside(s, j)
    ensures exists v :: v in Reduce(s).violations && v.current == s[j]
  {
    var n := |s| - 1;
    var before := s[..n];
    var i :| 0 <= i < j && s[j].from < s[i].to;
    if j < n {
      assert before[j].from < before[i].to;
      AllAreReported(before, j);
      var v :| v in Reduce(before).violations && v.current == before[j];
      assert v in Reduce(s).violations;
    } else {
      LatestBounds(before, i);
      var v := Violation(Reduce(before).latest.value, s[n]);
      assert v in Reduce(s).violations;
    }
  }

  /** The places, in order, whose interval starts inside an earlier one. */
  ghost function Inside(s: seq<Hold>): (js: seq<nat>)
    ensures forall n :: 0 <= n < |js| ==> js[n] < |s|
  {
    if s == [] then [] else
    var earlier := Inside(s[..|s| - 1]);
    if StartsInside(s, |s| - 1) then earlier + [|s| - 1] else earlier
  }

  lemma StillInside(s: seq<Hold>, j: nat)
    requires j < |s| - 1
    ensures StartsInside(s[..|s| - 1], j) <==> StartsInside(s, j)
  {
    if i :| 0 <= i < j && s[j].from < s[i].to {
      assert s[..|s| - 1][j].from < s[..|s| - 1][i].to;
    }
  }

  /** The list of those places is what its name says. */
  lemma {:induction false} InsideIs(s: seq<Hold>)
    ensures forall j :: 0 <= j < |s| ==> (j in Inside(s) <==> StartsInside(s, j))
    ensures forall m, n :: 0 <= m < n < |Inside(s)| ==> Inside(s)[m] < Inside(s)[n]
  {
    if s != [] {
      var n := |s| - 1;
      InsideIs(s[..n]);
      forall j | 0 <= j < n ensures j in Inside(s) <==> StartsInside(s, j) {
        StillInside(s, j);
      }
    }
  }

  /** The sweep reports each of those places once, in order. */
  lemma {:induction false} OneReportEach(s: seq<Hold>)
    ensures |Reduce(s).violations| == |Inside(s)|
    ensures forall n :: 0 <= n < |Inside(s)| ==> Reduce(s).violations[n].current == s[Inside(s)[n]]
  {
    if s != [] {
      var n := |s| - 1;
      var before := s[..n];
      OneReportEach(before);
      assert Reduce(s) == Visit(Reduce(before), s[n]);
      LatestEndsLast(before);
      if StartsInside(s, n) {
        var i :| 0 <= i < n && s[n].from < s[i].to;
        LatestBounds(before, i);
      } else if before != [] {
        var i :| EndsLast(before, n, i) && before[i] == Reduce(before).latest.value;
        assert s[i].to <= s[n].from;
      }
      assert forall m :: 0 <= m < |Inside(before)| ==> before[Inside(before)[m]] == s[Inside(before)[m]];
    }
  }

  ghost predicate At(s: seq<Hold>, i: int, h: Hold) {
    0 <= i < |s| && s[i] == h
  }

  /** `a` and `b` stand at two different places. */
  ghost predicate TwoOf(s: seq<Hold>, a: Hold, b: Hold) {
    exists i, j :: At(s, i, a) && At(s, j, b) && i != j
  }

  ghost predicate Positive(s: seq<Hold>) {
    forall i :: 0 <= i < |s| ==> s[i].from < s[i].to
  }

  ghost predicate PairOverlaps(s: seq<Hold>, i: int, j: int) {
    0 <= i < j < |s| && Overlap(s[i], s[j])
  }

  ghost predicate SomePair(s: seq<Hold>) {
    exists i, j :: PairOverlaps(s, i, j)
  }

  /**
   On any sorted list the sweep misses no overlapping pair, every report is of two
   different places, and a reported pair overlaps exactly when the second interval
   ends after the first one starts.
   */
  lemma SortedSweep(s: seq<Hold>)
    requires SortedByStart(s)
    ensures SomePair(s) ==> Reduce(s).violations != []
    ensures Positive(s) && Reduce(s).violations != [] ==> SomePair(s)
    ensures forall v :: v in Reduce(s).violations ==>
              && TwoOf(s, v.previous, v.current)
              && (Overlap(v.previous, v.current) <==> v.previous.from < v.current.to)
  {
    hide Reduce;
    forall v | v in Reduce(s).violations
      ensures TwoOf(s, v.previous, v.current)
      ensures Overlap(v.previous, v.current) <==> v.previous.from < v.current.to
      ensures Positive(s) ==> SomePair(s)
    {
      ReportsAreTrue(s, v);
      var i, j :| Reports(s, v, i, j);
      assert At(s, i, v.previous) && At(s, j, v.current);
      if Positive(s) {
        assert PairOverlaps(s, i, j);
      }
    }
    if SomePair(s) {
      var i, j :| PairOverlaps(s, i, j);
      assert StartsInside(s, j);
      AllAreReported(s, j);
    }
    assert Reduce(s).violations != [] ==> Reduce(s).violations[0] in Reduce(s).violations;
  }

  // ---------------------------------------------------- a pair survives sorting

  ghost predicate TwoIn(m: multiset<Hold>, a: Hold, b: Hold) {
    a in m && b in m - multiset{a}
  }

  ghost predicate MultiPair(m: multiset<Hold>) {
    exists a, b :: TwoIn(m, a, b) && Overlap(a, b)
  }

  lemma SplitAt(s: seq<Hold>, i: nat)
    requires i < |s|
    ensures multiset(s) == multiset(s[..i]) + multiset{s[i]} + multiset(s[i + 1..])
  {
    assert s == s[..i] + [s[i]] + s[i + 1..];
  }

  lemma TwoGoIn(s: seq<Hold>, a: Hold, b: Hold, i: int, j: int)
    requires At(s, i, a) && At(s, j, b) && i != j
    ensures TwoIn(multiset(s), a, b)
  {
    SplitAt(s, i);
    if i < j {
      assert s[i + 1..][j - i - 1] == b;
      assert b in multiset(s[i + 1..]);
    } else {
      assert s[..i][j] == b;
      assert b in multiset(s[..i]);
    }
  }

  lemma TwoComeOut(s: seq<Hold>, a: Hold, b: Hold)
    requires TwoIn(multiset(s), a, b)
    ensures TwoOf(s, a, b)
  {
    var i :| 0 <= i < |s| && s[i] == a;
    SplitAt(s, i);
    assert At(s, i, a);
    assert b in multiset(s[..i]) || b in multiset(s[i + 1..]);
    if b in s[..i] {
      var j :| 0 <= j < i && s[..i][j] == b;
      assert At(s, j, b);
    } else {
      var j :| 0 <= j < |s[i + 1..]| && s[i + 1..][j] == b;
      assert At(s, i + 1 + j, b);
    }
  }

  /** Two different places hold `a` and `b` exactly when the bag holds both. */
  lemma TwoInMultiset(s: seq<Hold>, a: Hold, b: Hold)
    ensures TwoOf(s, a, b) <==> TwoIn(multiset(s), a, b)
  {
    hide At, TwoIn;
    if i, j :| At(s, i, a) && At(s, j, b) && i != j {
      TwoGoIn(s, a, b, i, j);
    }
    if TwoIn(multiset(s), a, b) {
      TwoComeOut(s, a, b);
    }
  }

  lemma PairInMultiset(s: seq<Hold>)
    ensures SomePair(s) <==> MultiPair(multiset(s))
  {
    hide TwoIn;
    if i, j :| PairOverlaps(s, i, j) {
      assert At(s, i, s[i]) && At(s, j, s[j]);
      TwoInMultiset(s, s[i], s[j]);
    }
    if a, b :| TwoIn(multiset(s), a, b) && Overlap(a, b) {
      TwoInMultiset(s, a, b);
      var i, j :| At(s, i, a) && At(s, j, b) && i != j;
      assert PairOverlaps(s, i, j) || PairOverlaps(s, j, i);
    }
  }

  // ------------------------------------------------------------------- grouping

  /** Positions of the operations that held `resource`, in order. */
  function Positions(ops: seq<Op>, resource: string): (ps: seq<nat>)
    ensures forall k :: 0 <= k < |ps| ==> ps[k] < |ops| && ops[ps[k]].resource == resource && ops[ps[k]].held.Some?
    ensures forall k, l :: 0 <= k < l < |ps| ==> ps[k] < ps[l]
    ensures forall i :: 0 <= i < |ops| && ops[i].resource == resource && ops[i].held.Some? ==> i in ps
  {
    if ops == [] then [] else
    var n := |ops| - 1;
    var earlier := Positions(ops[..n], resource);
    if ops[n].resource == resource && ops[n].held.Some? then earlier + [n] else earlier
  }

  function Group(ops: seq<Op>, resource: string): (g: seq<Hold>)
    ensures |g| == |Positions(ops, resource)|
    ensures forall k :: 0 <= k < |g| ==> g[k] == ops[Positions(ops, resource)[k]].held.value
  {
    var ps := Positions(ops, resource);
    seq(|ps|, k requires 0 <= k < |ps| => ops[ps[k]].held.value)
  }

  function GroupViolations(ops: seq<Op>, resource: string): seq<Violation> {
    Reduce(Sort(Group(ops, resource))).violations
  }

  /** All violations, the groups taken in the order `resources` lists them. */
  function Violations(ops: seq<Op>, resources: seq<string>): seq<Violation> {
    if resources == [] then [] else
    Violations(ops, resources[..|resources| - 1]) + GroupViolations(ops, resources[|resources| - 1])
  }

  /** Operations `i` and `j` held one resource at overlapping times. */
  ghost predicate HeldTogether(ops: seq<Op>, i: int, j: int) {
    && 0 <= i < j < |ops| && ops[i].resource == ops[j].resource
    && ops[i].held.Some? && ops[j].held.Some? && Overlap(ops[i].held.value, ops[j].held.value)
  }

  lemma GroupPairs(ops: seq<Op>, resource: string)
    ensures SomePair(Group(ops, resource)) <==>
              exists i, j :: HeldTogether(ops, i, j) && ops[i].resource == resource
  {
    var ps, g := Positions(ops, resource), Group(ops, resource);
    if SomePair(g) {
      var k, l :| PairOverlaps(g, k, l);
      assert HeldTogether(ops, ps[k], ps[l]);
    }
    if i, j :| HeldTogether(ops, i, j) && ops[i].resource == resource {
      var k :| 0 <= k < |ps| && ps[k] == i;
      var l :| 0 <= l < |ps| && ps[l] == j;
      assert PairOverlaps(g, k, l);
    }
  }

  ghost predicate AllPositive(ops: seq<Op>) {
    forall i :: 0 <= i < |ops| && ops[i].held.Some? ==> ops[i].held.value.from < ops[i].held.value.to
  }

  /** The report is of two different operations on `resource`, in either order. */
  ghost predicate ReportOf(ops: seq<Op>, v: Violation, i: int, j: int) {
    && 0 <= i < |ops| && 0 <= j < |ops| && i != j && ops[i].resource == ops[j].resource
    && ops[i].held == Some(v.previous) && ops[j].held == Some(v.current)
  }

  ghost predicate OfTwoOps(ops: seq<Op>, resource: string, v: Violation) {
    exists i, j :: ReportOf(ops, v, i, j) && ops[i].resource == resource
  }

  /** A report is true: if the later interval is not empty, the two overlap. */
  ghost predicate TrueReport(v: Violation) {
    v.current.from < v.current.to ==> Overlap(v.previous, v.current)
  }

  lemma SortedGroup(ops: seq<Op>, resource: string)
    ensures var g, s := Group(ops, resource), Sort(Group(ops, resource));
            && SortedByStart(s)
            && (SomePair(s) <==> SomePair(g))
            && (forall h :: h in s <==> h in g)
            && (forall a, b :: TwoOf(s, a, b) <==> TwoOf(g, a, b))
  {
    hide SomePair, MultiPair, TwoIn, TwoOf, Group, Sort;
    var g := Group(ops, resource);
    SortCorrect(g);
    PairInMultiset(g);
    PairInMultiset(Sort(g));
    forall h ensures h in Sort(g) <==> h in g {
      assert h in multiset(Sort(g)) <==> h in multiset(g);
    }
    forall a, b ensures TwoOf(Sort(g), a, b) <==> TwoOf(g, a, b) {
      TwoInMultiset(g, a, b);
      TwoInMultiset(Sort(g), a, b);
    }
  }

  lemma GroupReport(ops: seq<Op>, resource: string, v: Violation)
    requires TwoOf(Group(ops, resource), v.previous, v.current)
    ensures OfTwoOps(ops, resource, v)
  {
    var ps, g := Positions(ops, resource), Group(ops, resource);
    var k, l :| At(g, k, v.previous) && At(g, l, v.current) && k != l;
    assert ps[k] != ps[l];
    assert ReportOf(ops, v, ps[k], ps[l]);
  }

  lemma GroupSweep(ops: seq<Op>, resource: string)
    ensures (exists i, j :: HeldTogether(ops, i, j) && ops[i].resource == resource) ==>
              GroupViolations(ops, resource) != []
    ensures AllPositive(ops) && GroupViolations(ops, resource) != [] ==>
              exists i, j :: HeldTogether(ops, i, j) && ops[i].resource == resource
    ensures forall v :: v in GroupViolations(ops, resource) ==> OfTwoOps(ops, resource, v) && TrueReport(v)
  {
    var g := Group(ops, resource);
    var s := Sort(g);
    SortedGroup(ops, resource);
    if AllPositive(ops) {
      forall k | 0 <= k < |s| ensures s[k].from < s[k].to {
        assert s[k] in g;
      }
    }
    hide Reduce, Sort, SomePair, HeldTogether, Group, TwoOf, OfTwoOps;
    SortedSweep(s);
    GroupPairs(ops, resource);
    forall v | v in GroupViolations(ops, resource) ensures OfTwoOps(ops, resource, v) && TrueReport(v) {
      ReportStartsFirst(s, v);
      GroupReport(ops, resource, v);
    }
  }

  lemma ReportStartsFirst(s: seq<Hold>, v: Violation)
    requires SortedByStart(s) && v in Reduce(s).violations
    ensures v.previous.from <= v.current.from < v.previous.to
  {
    hide Reduce;
    ReportsAreTrue(s, v);
    var i, j :| Reports(s, v, i, j);
  }

  /**
   The checker misses no two operations that held one resource at overlapping
   times, whatever order the groups come in. Each report is of two different operations on
   one resource, and a report whose later interval is not empty does overlap; so
   over intervals of positive length it reports exactly when such a pair exists.
   */
  lemma {:induction false} SweepEqualsPairwise(ops: seq<Op>, resources: seq<string>)
    ensures (exists i, j :: HeldTogether(ops, i, j) && ops[i].resource in resources) ==>
              Violations(ops, resources) != []
    ensures AllPositive(ops) && Violations(ops, resources) != [] ==>
              exists i, j :: HeldTogether(ops, i, j) && ops[i].resource in resources
    ensures forall v :: v in Violations(ops, resources) ==>
              TrueReport(v) && exists r :: r in resources && OfTwoOps(ops, r, v)
  {
    hide HeldTogether, GroupViolations, TrueReport, OfTwoOps, AllPositive;
    if resources != [] {
      var n := |resources| - 1;
      SweepEqualsPairwise(ops, resources[..n]);
      GroupSweep(ops, resources[n]);
      assert forall r :: r in resources <==> r in resources[..n] || r == resources[n];
    }
  }

  /** The groups are those of every resource that occurs. */
  ghost predicate ListsAll(ops: seq<Op>, resources: seq<string>) {
    forall i :: 0 <= i < |ops| ==> ops[i].resource in resources
  }

  /**
   As the checker groups, by every resource present: it misses no overlapping pair
   of operations on one resource, and over intervals of positive length it reports
   exactly when there is one.
   */
  lemma CheckerEqualsPairwise(ops: seq<Op>, resources: seq<string>)
    requires ListsAll(ops, resources)
    ensures (exists i, j :: HeldTogether(ops, i, j)) ==> Violations(ops, resources) != []
    ensures AllPositive(ops) && Violations(ops, resources) != [] ==> exists i, j :: HeldTogether(ops, i, j)
    ensures forall v :: v in Violations(ops, resources) ==> TrueReport(v) && exists i, j :: ReportOf(ops, v, i, j)
  {
    hide Violations, AllPositive, TrueReport, ReportOf;
    SweepEqualsPairwise(ops, resources);
  }

  /**
   With an empty interval the sweep's answer depends on the order of equal
   starts, and it can report a pair that does not overlap.
   */
  lemma EmptyIntervalMisreported()
    ensures var a, b := Hold(1, 5, 9), Hold(2, 5, 5);
            && !Overlap(a, b) && SortedByStart([a, b]) && SortedByStart([b, a])
            && Reduce([a, b]).violations == [Violation(a, b)]
            && Reduce([b, a]).violations == []
  {
    var a, b := Hold(1, 5, 9), Hold(2, 5, 5);
    assert [a, b][..1] == [a] && [a][..0] == [];
    assert [b, a][..1] == [b] && [b][..0] == [];
    assert Reduce([a]) == Acc(Some(a), []) && Reduce([b]) == Acc(Some(b), []);
    assert Reduce([a, b]) == Visit(Reduce([a]), b) && Reduce([b, a]) == Visit(Reduce([b]), a);
  }
}
