/** One scan of the airspace picture: the spatial grid, the pairs it proposes, and the list of
    conflicts reported soonest first (separation.py). */
module Scan {
  import opened Prelude
  import opened Separation
  import opened Geometry

  // ----- Pair identity -----

  /** Lexicographic order on identifiers. */
  predicate Leq(a: string, b: string) {
    a == "" || (b != "" && (a[0] < b[0] || (a[0] == b[0] && Leq(a[1..], b[1..]))))
  }

  lemma {:induction false} LeqIsTotal(a: string, b: string)
    ensures Leq(a, b) || Leq(b, a)
  {
    if a != "" && b != "" { LeqIsTotal(a[1..], b[1..]); }
  }

  lemma {:induction false} LeqIsAntisymmetric(a: string, b: string)
    requires Leq(a, b) && Leq(b, a)
    ensures a == b
  {
    if a != "" && b != "" {
      LeqIsAntisymmetric(a[1..], b[1..]);
      assert a == [a[0]] + a[1..] && b == [b[0]] + b[1..];
    }
  }

  type Key = (string, string)

  function PairKey(a: string, b: string): Key {
    if Leq(a, b) then (a, b) else (b, a)
  }

  /** The key names the unordered pair, no more and no less. */
  lemma PairKeyIsUnordered(a: string, b: string, c: string, d: string)
    ensures PairKey(a, b) == PairKey(c, d) <==> (a == c && b == d) || (a == d && b == c)
  {
    LeqIsTotal(a, b);
    LeqIsTotal(c, d);
    if Leq(a, b) && Leq(b, a) { LeqIsAntisymmetric(a, b); }
    if Leq(c, d) && Leq(d, c) { LeqIsAntisymmetric(c, d); }
  }

  /** At index `i`, and not before, the two differ, and `a` has the smaller character or none. */
  predicate SmallerAt(a: string, b: string, i: nat) {
    i <= |a| && i < |b| && a[..i] == b[..i] && (i == |a| || a[i] < b[i])
  }

  /** The order is that of a dictionary. */
  lemma {:induction false} LeqIsDictionaryOrder(a: string, b: string)
    ensures Leq(a, b) <==> a == b || exists i: nat :: SmallerAt(a, b, i)
  {
    if a == "" {
      if b != "" { assert SmallerAt(a, b, 0); }
    } else if b != "" {
      LeqIsDictionaryOrder(a[1..], b[1..]);
      assert a == [a[0]] + a[1..] && b == [b[0]] + b[1..];
      if a[0] < b[0] {
        assert SmallerAt(a, b, 0);
      } else if a[0] == b[0] {
        forall i: nat ensures SmallerAt(a[1..], b[1..], i) <==> SmallerAt(a, b, i + 1) { SmallerFurtherOn(a, b, i); }
        if i: nat :| SmallerAt(a[1..], b[1..], i) { assert SmallerAt(a, b, i + 1); }
        if i: nat :| SmallerAt(a, b, i) { assert i > 0 && SmallerAt(a[1..], b[1..], i - 1); }
      } else {
        forall i: nat ensures !SmallerAt(a, b, i) {
          if 0 < i <= |a| && i < |b| { assert a[..i][0] == a[0] && b[..i][0] == b[0]; }
        }
      }
    }
  }

  lemma SmallerFurtherOn(a: string, b: string, i: nat)
    requires a != "" && b != "" && a[0] == b[0]
    ensures SmallerAt(a[1..], b[1..], i) <==> SmallerAt(a, b, i + 1)
  {
    if i < |a| && i < |b| {
      assert a[..i + 1] == [a[0]] + a[1..][..i] && b[..i + 1] == [b[0]] + b[1..][..i];
      assert a[1..][..i] == a[..i + 1][1..] && b[1..][..i] == b[..i + 1][1..];
    }
  }

  /** A pair's key lists its two identifiers in dictionary order. */
  lemma PairKeyIsSorted(a: string, b: string)
    ensures var (x, y) := PairKey(a, b);
      && ((x == a && y == b) || (x == b && y == a)) && (x == y || exists i: nat :: SmallerAt(x, y, i))
  {
    LeqIsTotal(a, b);
    LeqIsDictionaryOrder(a, b);
    LeqIsDictionaryOrder(b, a);
  }

  function KeyOf(pair: (Track, Track)): Key {
    PairKey(pair.0.id, pair.1.id)
  }

  // ----- The grid -----

  type Cell = (int, int)

  function CellOf(size: real, t: Track): Cell
    requires size > 0.0
  {
    ((t.eastNm / size).Floor, (t.northNm / size).Floor)
  }

  predicate Adjacent(a: Cell, b: Cell) {
    -1 <= b.0 - a.0 <= 1 && -1 <= b.1 - a.1 <= 1
  }

  type Buckets = map<Cell, seq<Track>>

  function Occupants(buckets: Buckets, c: Cell): seq<Track> {
    if c in buckets then buckets[c] else []
  }

  /** The occupants of a cell and of its eight neighbours, column by column. */
  function Neighbourhood(buckets: Buckets, c: Cell): seq<Track> {
    Column(buckets, c, -1) + Column(buckets, c, 0) + Column(buckets, c, 1)
  }

  function Column(buckets: Buckets, c: Cell, dx: int): seq<Track> {
    Occupants(buckets, (c.0 + dx, c.1 - 1)) + Occupants(buckets, (c.0 + dx, c.1))
      + Occupants(buckets, (c.0 + dx, c.1 + 1))
  }

  lemma NeighbourhoodReachesAdjacent(buckets: Buckets, c: Cell, other: Cell, t: Track)
    requires Adjacent(c, other) && t in Occupants(buckets, other)
    ensures t in Neighbourhood(buckets, c)
  {
    var dx := other.0 - c.0;
    assert other == (c.0 + dx, c.1 - 1) || other == (c.0 + dx, c.1) || other == (c.0 + dx, c.1 + 1);
    assert t in Column(buckets, c, dx);
  }

  /** Cells are more than one apart only if the positions are more than a cell size apart. */
  lemma DistantCells(size: real, x: real, y: real)
    requires size > 0.0 && (y / size).Floor - (x / size).Floor > 1
    ensures y - x > size
  {
    var (u, w) := (x / size, y / size);
    assert w - u > 1.0;
    ProductValue(w - u - 1.0, size, (w - u - 1.0) * size);
    assert u * size == x && w * size == y;
    assert (w - u - 1.0) * size == w * size - u * size - size;
  }

  lemma NonAdjacentIsFar(cfg: Config, first: Track, second: Track)
    requires cfg.Valid()
    requires !Adjacent(CellOf(Radius(cfg), first), CellOf(Radius(cfg), second))
    ensures FurtherThan(RelativeMotion(first, second), InteractionRadius(cfg))
  {
    var size := Radius(cfg);
    var (a, b) := (CellOf(size, first), CellOf(size, second));
    if b.0 - a.0 > 1 { DistantCells(size, first.eastNm, second.eastNm); }
    if a.0 - b.0 > 1 { DistantCells(size, second.eastNm, first.eastNm); }
    if b.1 - a.1 > 1 { DistantCells(size, first.northNm, second.northNm); }
    if a.1 - b.1 > 1 { DistantCells(size, second.northNm, first.northNm); }
  }

  function Radius(cfg: Config): (r: real)
    requires cfg.Valid()
    ensures r > 0.0
  {
    InteractionRadius(cfg)
  }

  /** Every state sits in its own cell's bucket, and buckets hold nothing else. */
  ghost predicate Filed(size: real, states: seq<Track>, order: seq<Cell>, buckets: Buckets)
    requires size > 0.0
  {
    && (forall t :: t in states ==> t in Occupants(buckets, CellOf(size, t)))
    && (forall c, t :: c in buckets && t in buckets[c] ==> t in states && CellOf(size, t) == c)
    && (forall c :: c in buckets <==> c in order)
  }

  /** Files states by cell; `order` is the order in which cells were first met. */
  method FillBuckets(size: real, states: seq<Track>) returns (order: seq<Cell>, buckets: Buckets)
    requires size > 0.0
    ensures Filed(size, states, order, buckets)
  {
    order, buckets := [], map[];
    for i := 0 to |states|
      invariant Filed(size, states[..i], order, buckets)
    {
      var c := CellOf(size, states[i]);
      if c !in buckets { order := order + [c]; }
      buckets := buckets[c := Occupants(buckets, c) + [states[i]]];
      assert states[..i + 1] == states[..i] + [states[i]];
    }
    assert states[..|states|] == states;
  }

  ghost predicate Covered(seen: set<Key>, firsts: seq<Track>, seconds: seq<Track>) {
    forall a, b :: a in firsts && b in seconds && a.id != b.id ==> PairKey(a.id, b.id) in seen
  }

  /** The two tracks are in one cell or in adjacent ones. */
  predicate Touching(size: real, s: Track, t: Track)
    requires size > 0.0
  {
    Adjacent(CellOf(size, s), CellOf(size, t))
  }

  /** The pairs are drawn from the states, name two different tracks in touching cells, and repeat no key. */
  ghost predicate Proposed(size: real, states: seq<Track>, pairs: seq<(Track, Track)>, seen: set<Key>)
    requires size > 0.0
  {
    && (forall p :: p in pairs ==> p.0 in states && p.1 in states && p.0.id != p.1.id && Touching(size, p.0, p.1))
    && (forall i, j :: 0 <= i < j < |pairs| ==> KeyOf(pairs[i]) != KeyOf(pairs[j]))
    && (forall i :: 0 <= i < |pairs| ==> KeyOf(pairs[i]) in seen)
    && (forall k :: k in seen ==> exists i :: 0 <= i < |pairs| && KeyOf(pairs[i]) == k)
  }

  lemma ProposedOneMore(size: real, states: seq<Track>, pairs: seq<(Track, Track)>, seen: set<Key>, first: Track,
                        second: Track)
    requires size > 0.0 && Touching(size, first, second)
    requires Proposed(size, states, pairs, seen) && first in states && second in states && first.id != second.id
    requires PairKey(first.id, second.id) !in seen
    ensures Proposed(size, states, pairs + [(first, second)], seen + {PairKey(first.id, second.id)})
  {
    hide PairKey, Touching;
    var (longer, key) := (pairs + [(first, second)], PairKey(first.id, second.id));
    assert KeyOf(longer[|pairs|]) == key;
    forall k | k in seen + {key} ensures exists i :: 0 <= i < |longer| && KeyOf(longer[i]) == k {
      if k in seen {
        var i :| 0 <= i < |pairs| && KeyOf(pairs[i]) == k;
        assert longer[i] == pairs[i];
      }
    }
  }

  /** Pairs one state with everything in its neighbourhood, skipping keys already met. */
  method PairWith(ghost size: real, states: seq<Track>, first: Track, neighbours: seq<Track>,
                  pairsIn: seq<(Track, Track)>, seenIn: set<Key>)
    returns (pairs: seq<(Track, Track)>, seen: set<Key>)
    requires size > 0.0 && Proposed(size, states, pairsIn, seenIn) && first in states
    requires forall t :: t in neighbours ==> t in states && Touching(size, first, t)
    ensures Proposed(size, states, pairs, seen) && seenIn <= seen && Covered(seen, [first], neighbours)
  {
    hide Proposed, PairKey, Touching;
    pairs, seen := pairsIn, seenIn;
    for j := 0 to |neighbours|
      invariant Proposed(size, states, pairs, seen) && seenIn <= seen && Covered(seen, [first], neighbours[..j])
    {
      var second := neighbours[j];
      assert neighbours[..j + 1] == neighbours[..j] + [second];
      if first.id == second.id { continue; }
      var key := PairKey(first.id, second.id);
      if key in seen { continue; }
      ProposedOneMore(size, states, pairs, seen, first, second);
      seen := seen + {key};
      pairs := pairs + [(first, second)];
    }
    assert neighbours[..|neighbours|] == neighbours;
  }

  lemma FiledNeighbourhood(size: real, states: seq<Track>, order: seq<Cell>, buckets: Buckets, c: Cell)
    requires size > 0.0 && Filed(size, states, order, buckets)
    ensures forall t :: t in Occupants(buckets, c) ==> t in states
    ensures forall t :: t in Neighbourhood(buckets, c) ==> t in states
    ensures forall s, t :: s in Occupants(buckets, c) && t in Neighbourhood(buckets, c) ==> Touching(size, s, t)
  {
    hide CellOf, Neighbourhood;
    forall d: Cell, t | t in Occupants(buckets, d) ensures t in states && CellOf(size, t) == d {}
    forall t | t in Neighbourhood(buckets, c) ensures t in states && Adjacent(c, CellOf(size, t)) {
      var d := HomeOfNeighbour(buckets, c, t);
    }
  }

  /** Whatever is in a neighbourhood is in some cell of it. */
  lemma HomeOfNeighbour(buckets: Buckets, c: Cell, t: Track) returns (d: Cell)
    requires t in Neighbourhood(buckets, c)
    ensures Adjacent(c, d) && t in Occupants(buckets, d)
  {
    hide Occupants;
    var dx := if t in Column(buckets, c, -1) then -1 else if t in Column(buckets, c, 0) then 0 else 1;
    assert t in Column(buckets, c, dx);
    d := if t in Occupants(buckets, (c.0 + dx, c.1 - 1)) then (c.0 + dx, c.1 - 1)
         else if t in Occupants(buckets, (c.0 + dx, c.1)) then (c.0 + dx, c.1) else (c.0 + dx, c.1 + 1);
  }

  /** Pairs every occupant of one cell with the neighbourhood. */
  method PairCell(ghost size: real, states: seq<Track>, occupants: seq<Track>, neighbours: seq<Track>,
                  pairsIn: seq<(Track, Track)>, seenIn: set<Key>)
    returns (pairs: seq<(Track, Track)>, seen: set<Key>)
    requires size > 0.0 && Proposed(size, states, pairsIn, seenIn)
    requires forall t :: t in occupants || t in neighbours ==> t in states
    requires forall s, t :: s in occupants && t in neighbours ==> Touching(size, s, t)
    ensures Proposed(size, states, pairs, seen) && seenIn <= seen && Covered(seen, occupants, neighbours)
  {
    hide Proposed, Touching;
    pairs, seen := pairsIn, seenIn;
    for j := 0 to |occupants|
      invariant Proposed(size, states, pairs, seen) && seenIn <= seen && Covered(seen, occupants[..j], neighbours)
    {
      pairs, seen := PairWith(size, states, occupants[j], neighbours, pairs, seen);
      assert occupants[..j + 1] == occupants[..j] + [occupants[j]];
    }
    assert occupants[..|occupants|] == occupants;
  }

  ghost predicate DrawnFrom(states: seq<Track>, pairs: seq<(Track, Track)>) {
    forall p :: p in pairs ==> p.0 in states && p.1 in states && p.0.id != p.1.id
  }

  ghost predicate NoKeyTwice(pairs: seq<(Track, Track)>) {
    forall i, j :: 0 <= i < j < |pairs| ==> KeyOf(pairs[i]) != KeyOf(pairs[j])
  }

  ghost predicate Near(cfg: Config, s: Track, t: Track)
    requires cfg.Valid()
  {
    Touching(Radius(cfg), s, t)
  }

  ghost predicate HasKey(pairs: seq<(Track, Track)>, key: Key) {
    exists i :: 0 <= i < |pairs| && KeyOf(pairs[i]) == key
  }

  /** Only pairs in touching cells are proposed. */
  ghost predicate OnlyNear(cfg: Config, pairs: seq<(Track, Track)>)
    requires cfg.Valid()
  {
    forall p :: p in pairs ==> Near(cfg, p.0, p.1)
  }

  ghost predicate CoversNear(cfg: Config, states: seq<Track>, pairs: seq<(Track, Track)>)
    requires cfg.Valid()
  {
    forall s, t :: s in states && t in states && s.id != t.id && Near(cfg, s, t)
      ==> HasKey(pairs, PairKey(s.id, t.id))
  }

  lemma AllCellsMeansAllNear(cfg: Config, states: seq<Track>, order: seq<Cell>, buckets: Buckets,
                             pairs: seq<(Track, Track)>, seen: set<Key>)
    requires cfg.Valid() && Filed(Radius(cfg), states, order, buckets) && Proposed(Radius(cfg), states, pairs, seen)
    requires forall c :: c in order ==> Covered(seen, Occupants(buckets, c), Neighbourhood(buckets, c))
    ensures CoversNear(cfg, states, pairs) && OnlyNear(cfg, pairs) && DrawnFrom(states, pairs) && NoKeyTwice(pairs)
  {
    hide CellOf, Adjacent, Neighbourhood, Radius;
    forall s, t | s in states && t in states && s.id != t.id && Near(cfg, s, t)
      ensures HasKey(pairs, PairKey(s.id, t.id))
    {
      var c := CellOf(Radius(cfg), s);
      NeighbourhoodReachesAdjacent(buckets, c, CellOf(Radius(cfg), t), t);
      assert c in buckets;
      assert Covered(seen, Occupants(buckets, c), Neighbourhood(buckets, c));
      assert PairKey(s.id, t.id) in seen;
    }
  }

  /** The candidate pairs: each unordered pair in the same or adjacent cells exactly once, and no other. */
  method CandidatePairs(cfg: Config, states: seq<Track>) returns (pairs: seq<(Track, Track)>)
    requires cfg.Valid()
    ensures DrawnFrom(states, pairs) && NoKeyTwice(pairs) && CoversNear(cfg, states, pairs) && OnlyNear(cfg, pairs)
  {
    hide Filed, Neighbourhood, Occupants, Covered, CoversNear, OnlyNear, DrawnFrom, NoKeyTwice, Touching;
    var order, buckets := FillBuckets(Radius(cfg), states);
    var seen: set<Key> := {};
    pairs := [];
    for i := 0 to |order|
      invariant Proposed(Radius(cfg), states, pairs, seen)
      invariant forall c :: c in order[..i] ==> Covered(seen, Occupants(buckets, c), Neighbourhood(buckets, c))
    {
      hide Proposed;
      var c := order[i];
      ghost var before := seen;
      FiledNeighbourhood(Radius(cfg), states, order, buckets, c);
      pairs, seen := PairCell(Radius(cfg), states, Occupants(buckets, c), Neighbourhood(buckets, c), pairs, seen);
      assert order[..i + 1] == order[..i] + [c];
      forall d | d in order[..i] ensures Covered(seen, Occupants(buckets, d), Neighbourhood(buckets, d)) {
        CoveredGrows(before, seen, Occupants(buckets, d), Neighbourhood(buckets, d));
      }
    }
    hide Proposed;
    assert order[..|order|] == order;
    AllCellsMeansAllNear(cfg, states, order, buckets, pairs, seen);
  }

  lemma CoveredGrows(before: set<Key>, after: set<Key>, firsts: seq<Track>, seconds: seq<Track>)
    requires Covered(before, firsts, seconds) && before <= after
    ensures Covered(after, firsts, seconds)
  {
  }

  // ----- Soonest first -----

  function Insert(c: Conflict, sorted: seq<Conflict>): seq<Conflict> {
    if sorted == [] || c.timeToCpaS <= sorted[0].timeToCpaS then [c] + sorted
    else [sorted[0]] + Insert(c, sorted[1..])
  }

  /** A stable sort by time to closest approach. */
  function SortByTime(cs: seq<Conflict>): seq<Conflict> {
    if cs == [] then [] else Insert(cs[0], SortByTime(cs[1..]))
  }

  predicate SoonestFirst(cs: seq<Conflict>) {
    forall i, j :: 0 <= i < j < |cs| ==> cs[i].timeToCpaS <= cs[j].timeToCpaS
  }

  /** The conflicts at one time, in list order. */
  function AtTime(cs: seq<Conflict>, time: real): seq<Conflict> {
    if cs == [] then []
    else (if cs[0].timeToCpaS == time then [cs[0]] else []) + AtTime(cs[1..], time)
  }

  lemma {:induction false} InsertKeepsAll(c: Conflict, sorted: seq<Conflict>)
    ensures multiset(Insert(c, sorted)) == multiset{c} + multiset(sorted)
    ensures forall x :: x in Insert(c, sorted) <==> x == c || x in sorted
  {
    if sorted != [] {
      InsertKeepsAll(c, sorted[1..]);
      assert sorted == [sorted[0]] + sorted[1..];
    }
  }

  lemma {:induction false} InsertKeepsOrder(c: Conflict, sorted: seq<Conflict>)
    requires SoonestFirst(sorted)
    ensures SoonestFirst(Insert(c, sorted))
  {
    if sorted != [] && c.timeToCpaS > sorted[0].timeToCpaS {
      InsertKeepsOrder(c, sorted[1..]);
      InsertKeepsAll(c, sorted[1..]);
      forall x | x in sorted[1..] ensures sorted[0].timeToCpaS <= x.timeToCpaS {}
    }
  }

  lemma {:induction false} InsertIsStable(c: Conflict, sorted: seq<Conflict>, time: real)
    ensures AtTime(Insert(c, sorted), time) == AtTime([c], time) + AtTime(sorted, time)
  {
    assert ([c] + sorted)[1..] == sorted;
    assert AtTime([c], time) == if c.timeToCpaS == time then [c] else [];
    if sorted != [] && c.timeToCpaS > sorted[0].timeToCpaS {
      InsertIsStable(c, sorted[1..], time);
      assert ([sorted[0]] + Insert(c, sorted[1..]))[1..] == Insert(c, sorted[1..]);
    }
  }

  lemma {:induction false} SortKeepsAll(cs: seq<Conflict>)
    ensures multiset(SortByTime(cs)) == multiset(cs)
    ensures forall x :: x in SortByTime(cs) <==> x in cs
  {
    if cs != [] {
      SortKeepsAll(cs[1..]);
      InsertKeepsAll(cs[0], SortByTime(cs[1..]));
      assert cs == [cs[0]] + cs[1..];
    }
  }

  lemma {:induction false} SortOrders(cs: seq<Conflict>)
    ensures SoonestFirst(SortByTime(cs))
  {
    if cs != [] {
      SortOrders(cs[1..]);
      InsertKeepsOrder(cs[0], SortByTime(cs[1..]));
    }
  }

  /** Conflicts at equal times stay in the order in which they were found. */
  lemma {:induction false} SortIsStable(cs: seq<Conflict>, time: real)
    ensures AtTime(SortByTime(cs), time) == AtTime(cs, time)
  {
    if cs != [] {
      SortIsStable(cs[1..], time);
      InsertIsStable(cs[0], SortByTime(cs[1..]), time);
    }
  }

  predicate DistinctKeys(cs: seq<Conflict>) {
    forall i, j :: 0 <= i < j < |cs| ==> ReportOf(cs[i]).key != ReportOf(cs[j]).key
  }

  lemma {:induction false} InsertKeepsDistinct(c: Conflict, sorted: seq<Conflict>)
    requires DistinctKeys(sorted) && forall x :: x in sorted ==> ReportOf(x).key != ReportOf(c).key
    ensures DistinctKeys(Insert(c, sorted))
  {
    hide ReportOf;
    if sorted != [] && c.timeToCpaS > sorted[0].timeToCpaS {
      InsertKeepsDistinct(c, sorted[1..]);
      InsertKeepsAll(c, sorted[1..]);
      forall x | x in sorted[1..] ensures ReportOf(sorted[0]).key != ReportOf(x).key {}
    }
  }

  lemma {:induction false} SortKeepsDistinct(cs: seq<Conflict>)
    requires DistinctKeys(cs)
    ensures DistinctKeys(SortByTime(cs))
  {
    hide ReportOf;
    if cs != [] {
      SortKeepsDistinct(cs[1..]);
      SortKeepsAll(cs[1..]);
      InsertKeepsDistinct(cs[0], SortByTime(cs[1..]));
    }
  }

  // ----- The scan -----

  function Eligible(cfg: Config, tracks: seq<Track>): seq<Track> {
    if tracks == [] then []
    else (if tracks[0].updateCount >= cfg.minUpdates then [tracks[0]] else []) + Eligible(cfg, tracks[1..])
  }

  lemma {:induction false} EligibleAreThoseSeenEnough(cfg: Config, tracks: seq<Track>, t: Track)
    ensures t in Eligible(cfg, tracks) <==> t in tracks && SeenEnough(cfg, t)
  {
    if tracks != [] { EligibleAreThoseSeenEnough(cfg, tracks[1..], t); }
  }

  /** What a conflict says irrespective of which track was listed first. */
  datatype Report = Report(key: Key, timeToCpaS: real, minHorizontalNm: real, minVerticalFt: real,
                           currentHorizontalNm: real, currentVerticalFt: real)

  function ReportOf(c: Conflict): Report {
    Report(PairKey(c.firstId, c.secondId), c.timeToCpaS, c.minHorizontalNm, c.minVerticalFt,
           c.currentHorizontalNm, c.currentVerticalFt)
  }

  /** The all-pairs search: every two different tracks seen often enough that test as a conflict. */
  ghost function AllPairs(cfg: Config, m: Maths, tracks: set<Track>): set<Report>
    requires IsSqrt(m.sqrt)
  {
    set s, t | s in tracks && t in tracks && Conflicts(cfg, m, s, t) :: ReportOf(TestPair(cfg, m, s, t).value)
  }

  /** What the grid lets the search see of them: the pairs in touching cells. */
  ghost function NearPairs(cfg: Config, m: Maths, tracks: set<Track>): set<Report>
    requires cfg.Valid() && IsSqrt(m.sqrt)
  {
    set s, t | s in tracks && t in tracks && Conflicts(cfg, m, s, t) && Near(cfg, s, t) ::
      ReportOf(TestPair(cfg, m, s, t).value)
  }

  predicate SeenEnough(cfg: Config, t: Track) {
    t.updateCount >= cfg.minUpdates
  }

  predicate Conflicts(cfg: Config, m: Maths, s: Track, t: Track)
    requires IsSqrt(m.sqrt)
    ensures Conflicts(cfg, m, s, t) ==> TestPair(cfg, m, s, t).Some?
  {
    && SeenEnough(cfg, s) && SeenEnough(cfg, t)
    && s.id != t.id && TestPair(cfg, m, s, t).Some?
  }

  /** No two tracks seen often enough share an identifier: the picture is a dictionary of tracks by it. */
  ghost predicate DistinctIds(cfg: Config, tracks: seq<Track>) {
    forall s, t :: s in tracks && t in tracks && SeenEnough(cfg, s) && SeenEnough(cfg, t) && s.id == t.id ==> s == t
  }

  /** Every pair the search would test is judged deterministically and closes slowly enough. */
  ghost predicate Scannable(cfg: Config, m: Maths, tracks: seq<Track>)
    requires IsSqrt(m.sqrt)
  {
    forall s, t :: s in tracks && t in tracks && SeenEnough(cfg, s) && SeenEnough(cfg, t) && s.id != t.id ==>
      !Weighed(cfg, m, s, t) && WithinClosingLimit(s, t)
  }

  lemma NearOrClear(cfg: Config, m: Maths, s: Track, t: Track)
    requires cfg.Valid() && IsSqrt(m.sqrt) && !Weighed(cfg, m, s, t) && WithinClosingLimit(s, t)
    requires TestPair(cfg, m, s, t).Some?
    ensures Near(cfg, s, t)
  {
    hide TestPair, Adjacent, CellOf, WithinClosingLimit;
    if !Near(cfg, s, t) {
      NonAdjacentIsFar(cfg, s, t);
      BeyondRadiusIsNeverReported(cfg, m, s, t);
    }
  }

  lemma TestNamesItsTracks(cfg: Config, m: Maths, s: Track, t: Track)
    requires IsSqrt(m.sqrt) && TestPair(cfg, m, s, t).Some?
    ensures TestPair(cfg, m, s, t).value.firstId == s.id && TestPair(cfg, m, s, t).value.secondId == t.id
  {
  }

  /** Either listing order of a pair gives the same report. */
  lemma ReportIsUnordered(cfg: Config, m: Maths, s: Track, t: Track)
    requires cfg.Valid() && IsSqrt(m.sqrt) && TestPair(cfg, m, s, t).Some?
    ensures TestPair(cfg, m, t, s).Some?
    ensures ReportOf(TestPair(cfg, m, t, s).value) == ReportOf(TestPair(cfg, m, s, t).value)
  {
    hide TestPair, PairKey;
    PairOrderIsIrrelevant(cfg, m, s, t);
    TestNamesItsTracks(cfg, m, s, t);
    PairKeyIsUnordered(s.id, t.id, t.id, s.id);
  }

  /** The conflicts found are the tests of candidate pairs that succeeded, each pair once. */
  ghost predicate FoundFrom(cfg: Config, m: Maths, pairs: seq<(Track, Track)>, found: seq<Conflict>, source: seq<int>)
    requires IsSqrt(m.sqrt)
  {
    && |source| == |found|
    && (forall k :: 0 <= k < |found| ==> 0 <= source[k] < |pairs| && TestOf(cfg, m, pairs[source[k]]) == Some(found[k]))
    && (forall k, l :: 0 <= k < l < |found| ==> source[k] < source[l])
    && (forall i :: 0 <= i < |pairs| && TestOf(cfg, m, pairs[i]).Some? ==> TestOf(cfg, m, pairs[i]).value in found)
  }

  function TestOf(cfg: Config, m: Maths, pair: (Track, Track)): Option<Conflict>
    requires IsSqrt(m.sqrt)
  {
    TestPair(cfg, m, pair.0, pair.1)
  }

  lemma FoundHaveDistinctKeys(cfg: Config, m: Maths, pairs: seq<(Track, Track)>, found: seq<Conflict>, source: seq<int>)
    requires IsSqrt(m.sqrt) && FoundFrom(cfg, m, pairs, found, source) && NoKeyTwice(pairs)
    ensures DistinctKeys(found)
  {
    hide TestPair, PairKey;
    forall k | 0 <= k < |found| ensures ReportOf(found[k]).key == KeyOf(pairs[source[k]]) {
      var pair := pairs[source[k]];
      assert TestOf(cfg, m, pair) == Some(found[k]);
      TestNamesItsTracks(cfg, m, pair.0, pair.1);
    }
  }

  ghost function ReportsOf(cs: seq<Conflict>): set<Report> {
    set c | c in cs :: ReportOf(c)
  }

  /** Whatever the order of the list, the candidates give the conflicts between touching cells. */
  lemma GridFindsNearPairs(cfg: Config, m: Maths, tracks: seq<Track>, states: seq<Track>,
                           pairs: seq<(Track, Track)>, found: seq<Conflict>, source: seq<int>)
    requires cfg.Valid() && IsSqrt(m.sqrt) && DistinctIds(cfg, tracks)
    requires forall t :: t in states <==> t in tracks && SeenEnough(cfg, t)
    requires DrawnFrom(states, pairs) && CoversNear(cfg, states, pairs) && OnlyNear(cfg, pairs)
    requires FoundFrom(cfg, m, pairs, found, source)
    ensures ReportsOf(found) == NearPairs(cfg, m, set t | t in tracks)
  {
    hide TestPair, Near, PairKey, ReportOf, DistinctIds, CoversNear, OnlyNear, Conflicts;
    var all := set t | t in tracks;
    forall r | r in ReportsOf(found) ensures r in NearPairs(cfg, m, all) {
      var c :| c in found && ReportOf(c) == r;
      var k :| 0 <= k < |found| && found[k] == c;
      FoundIsConflict(cfg, m, tracks, states, pairs, found, source, k);
      var pair := pairs[source[k]];
      assert pair.0 in all && pair.1 in all;
    }
    forall r | r in NearPairs(cfg, m, all) ensures r in ReportsOf(found) {
      var s, t :| s in all && t in all && Conflicts(cfg, m, s, t) && Near(cfg, s, t)
                  && ReportOf(TestPair(cfg, m, s, t).value) == r;
      ConflictIsFound(cfg, m, tracks, states, pairs, found, source, s, t);
    }
  }

  /** On a scannable picture the grid loses nothing: only pairs in touching cells conflict. */
  lemma GridIsExact(cfg: Config, m: Maths, tracks: seq<Track>)
    requires cfg.Valid() && IsSqrt(m.sqrt) && Scannable(cfg, m, tracks)
    ensures NearPairs(cfg, m, set t | t in tracks) == AllPairs(cfg, m, set t | t in tracks)
  {
    hide TestPair, Near, WithinClosingLimit, Weighed, ReportOf;
    forall s, t | s in tracks && t in tracks && Conflicts(cfg, m, s, t) ensures Near(cfg, s, t) {
      NearOrClear(cfg, m, s, t);
    }
  }

  /** What the grid search found is a conflict of the picture. */
  lemma FoundIsConflict(cfg: Config, m: Maths, tracks: seq<Track>, states: seq<Track>,
                        pairs: seq<(Track, Track)>, found: seq<Conflict>, source: seq<int>, k: nat)
    requires cfg.Valid() && IsSqrt(m.sqrt) && k < |found|
    requires forall t :: t in states <==> t in tracks && SeenEnough(cfg, t)
    requires DrawnFrom(states, pairs) && OnlyNear(cfg, pairs) && FoundFrom(cfg, m, pairs, found, source)
    ensures 0 <= source[k] < |pairs|
    ensures var pair := pairs[source[k]];
      && pair.0 in tracks && pair.1 in tracks && Conflicts(cfg, m, pair.0, pair.1) && Near(cfg, pair.0, pair.1)
      && TestPair(cfg, m, pair.0, pair.1) == Some(found[k])
  {
    hide TestPair, PairKey, Near;
    var pair := pairs[source[k]];
    assert TestOf(cfg, m, pair) == Some(found[k]);
    assert pair in pairs;
  }

  /** Every conflict between touching cells is found by the grid search. */
  lemma ConflictIsFound(cfg: Config, m: Maths, tracks: seq<Track>, states: seq<Track>,
                        pairs: seq<(Track, Track)>, found: seq<Conflict>, source: seq<int>, s: Track, t: Track)
    requires cfg.Valid() && IsSqrt(m.sqrt) && DistinctIds(cfg, tracks)
    requires forall t :: t in states <==> t in tracks && SeenEnough(cfg, t)
    requires DrawnFrom(states, pairs) && CoversNear(cfg, states, pairs) && FoundFrom(cfg, m, pairs, found, source)
    requires s in tracks && t in tracks && Conflicts(cfg, m, s, t) && Near(cfg, s, t)
    ensures exists c :: c in found && ReportOf(c) == ReportOf(TestPair(cfg, m, s, t).value)
  {
    hide TestPair, Near, PairKey, ReportOf;
    var i :| 0 <= i < |pairs| && KeyOf(pairs[i]) == PairKey(s.id, t.id);
    var pair := pairs[i];
    PairKeyIsUnordered(pair.0.id, pair.1.id, s.id, t.id);
    assert pair == (s, t) || pair == (t, s);
    ReportIsUnordered(cfg, m, s, t);
    assert TestOf(cfg, m, pair).Some?;
    assert TestOf(cfg, m, pair).value in found;
  }

  /** The result of one scan: real conflicts, soonest first, no pair twice, and if identifiers are
      distinct all those between touching cells. */
  ghost predicate IsScanOf(cfg: Config, m: Maths, tracks: seq<Track>, conflicts: seq<Conflict>)
    requires cfg.Valid() && IsSqrt(m.sqrt)
  {
    && SoonestFirst(conflicts) && DistinctKeys(conflicts)
    && (forall c :: c in conflicts ==> exists s, t ::
          s in tracks && t in tracks && Conflicts(cfg, m, s, t) && TestPair(cfg, m, s, t) == Some(c))
    && (DistinctIds(cfg, tracks) ==> ReportsOf(conflicts) == NearPairs(cfg, m, set t | t in tracks))
  }

  /** One scan of the picture.  The last clause is the reason for the grid: on a scannable picture each
      conflicting pair is reported once, with what the all-pairs search reports. */
  method ScanPicture(cfg: Config, m: Maths, tracks: seq<Track>) returns (conflicts: seq<Conflict>)
    requires cfg.Valid() && IsSqrt(m.sqrt)
    ensures IsScanOf(cfg, m, tracks, conflicts)
    ensures DistinctIds(cfg, tracks) && Scannable(cfg, m, tracks)
      ==> ReportsOf(conflicts) == AllPairs(cfg, m, set t | t in tracks)
  {
    hide TestPair, Scannable, WithinClosingLimit, Weighed, CoversNear, OnlyNear, DistinctIds, ReportOf, DistinctKeys,
      SoonestFirst, NearPairs, AllPairs;
    var states := Eligible(cfg, tracks);
    forall t ensures t in states <==> t in tracks && SeenEnough(cfg, t) {
      EligibleAreThoseSeenEnough(cfg, tracks, t);
    }
    conflicts := [];
    if Scannable(cfg, m, tracks) { GridIsExact(cfg, m, tracks); }
    if |states| < 2 {
      FewTracksNoConflicts(cfg, m, tracks, states);
      return;
    }
    var pairs := CandidatePairs(cfg, states);
    ghost var source := [];
    for i := 0 to |pairs|
      invariant FoundFrom(cfg, m, pairs[..i], conflicts, source)
    {
      var test := TestPair(cfg, m, pairs[i].0, pairs[i].1);
      assert test == TestOf(cfg, m, pairs[i]);
      assert pairs[..i + 1] == pairs[..i] + [pairs[i]];
      if test.Some? {
        conflicts := conflicts + [test.value];
        source := source + [i];
      }
    }
    assert pairs[..|pairs|] == pairs;
    if DistinctIds(cfg, tracks) { GridFindsNearPairs(cfg, m, tracks, states, pairs, conflicts, source); }
    FoundHaveDistinctKeys(cfg, m, pairs, conflicts, source);
    FoundAreConflicts(cfg, m, tracks, states, pairs, conflicts, source);
    SortKeepsAll(conflicts);
    SortOrders(conflicts);
    SortKeepsDistinct(conflicts);
    assert ReportsOf(SortByTime(conflicts)) == ReportsOf(conflicts);
    conflicts := SortByTime(conflicts);
  }

  lemma FoundAreConflicts(cfg: Config, m: Maths, tracks: seq<Track>, states: seq<Track>,
                          pairs: seq<(Track, Track)>, found: seq<Conflict>, source: seq<int>)
    requires IsSqrt(m.sqrt) && FoundFrom(cfg, m, pairs, found, source) && DrawnFrom(states, pairs)
    requires forall t :: t in states <==> t in tracks && SeenEnough(cfg, t)
    ensures forall c :: c in found ==> exists s, t ::
      s in tracks && t in tracks && Conflicts(cfg, m, s, t) && TestPair(cfg, m, s, t) == Some(c)
  {
    hide TestPair;
    forall c | c in found
      ensures exists s, t :: s in tracks && t in tracks && Conflicts(cfg, m, s, t) && TestPair(cfg, m, s, t) == Some(c)
    {
      var k :| 0 <= k < |found| && found[k] == c;
      var pair := pairs[source[k]];
      assert TestOf(cfg, m, pair) == Some(c);
      assert pair in pairs && Conflicts(cfg, m, pair.0, pair.1);
    }
  }

  lemma FewTracksNoConflicts(cfg: Config, m: Maths, tracks: seq<Track>, states: seq<Track>)
    requires cfg.Valid() && IsSqrt(m.sqrt) && |states| < 2
    requires forall t :: t in states <==> t in tracks && SeenEnough(cfg, t)
    ensures ReportsOf([]) == NearPairs(cfg, m, set t | t in tracks)
    ensures SoonestFirst([]) && DistinctKeys([])
  {
    hide TestPair, ReportOf, Near;
    forall s, t | s in tracks && t in tracks ensures !Conflicts(cfg, m, s, t) {
      assert s in states <==> SeenEnough(cfg, s);
      assert t in states <==> SeenEnough(cfg, t);
    }
  }

  // ----- Two scans of one picture -----

  function ReportList(cs: seq<Conflict>): (rs: seq<Report>)
    ensures |rs| == |cs| && forall i :: 0 <= i < |cs| ==> rs[i] == ReportOf(cs[i])
  {
    seq(|cs|, i requires 0 <= i < |cs| => ReportOf(cs[i]))
  }

  /** Soonest first, and none twice. */
  predicate Ranked(rs: seq<Report>) {
    forall i, j :: 0 <= i < j < |rs| ==> rs[i].timeToCpaS <= rs[j].timeToCpaS && rs[i] != rs[j]
  }

  function Except(rs: seq<Report>, j: nat): (rest: seq<Report>)
    requires j < |rs|
    ensures |rest| == |rs| - 1 && forall i :: 0 <= i < |rest| ==> rest[i] == rs[if i < j then i else i + 1]
  {
    rs[..j] + rs[j + 1..]
  }

  lemma ExceptKeepsRank(rs: seq<Report>, j: nat)
    requires Ranked(rs) && j < |rs|
    ensures Ranked(Except(rs, j))
    ensures forall r :: r in Except(rs, j) <==> r in rs && r != rs[j]
  {
    var rest := Except(rs, j);
    forall r | r in rs && r != rs[j] ensures r in rest {
      var i :| 0 <= i < |rs| && rs[i] == r;
      assert rest[if i < j then i else i - 1] == r;
    }
  }

  /** The soonest report of one ranking is, in the other, among those of the soonest time. */
  lemma SoonestAgree(a: seq<Report>, b: seq<Report>) returns (j: nat)
    requires Ranked(a) && Ranked(b) && a != [] && forall r :: r in a <==> r in b
    ensures j < |b| && b[j] == a[0] && forall i :: 0 <= i <= j ==> b[i].timeToCpaS == a[0].timeToCpaS
  {
    assert a[0] in b;
    j :| 0 <= j < |b| && b[j] == a[0];
    assert b[0] in a;
    var k :| 0 <= k < |a| && a[k] == b[0];
    assert a[0].timeToCpaS <= a[k].timeToCpaS;
  }

  /** Two rankings of the same reports have the same times, place by place. */
  lemma {:induction false} SameTimes(a: seq<Report>, b: seq<Report>)
    requires Ranked(a) && Ranked(b) && forall r :: r in a <==> r in b
    ensures |a| == |b| && forall i :: 0 <= i < |a| ==> a[i].timeToCpaS == b[i].timeToCpaS
    decreases |a|
  {
    hide Ranked, Except;
    NothingOrSomething(a, b);
    if a != [] {
      var j := SoonestAgree(a, b);
      var (restA, restB) := (Except(a, 0), Except(b, j));
      ExceptKeepsRank(a, 0);
      ExceptKeepsRank(b, j);
      SameTimes(restA, restB);
      forall i | 0 <= i < |a| ensures a[i].timeToCpaS == b[i].timeToCpaS {
        if i > 0 { assert restA[i - 1] == a[i] && restB[i - 1] == b[if i <= j then i - 1 else i]; }
      }
    }
  }

  lemma NothingOrSomething(a: seq<Report>, b: seq<Report>)
    requires forall r :: r in a <==> r in b
    ensures a == [] <==> b == []
  {
    if a != [] { assert a[0] in b; }
    if b != [] { assert b[0] in a; }
  }

  lemma ScanIsRanked(cs: seq<Conflict>)
    requires SoonestFirst(cs) && DistinctKeys(cs)
    ensures Ranked(ReportList(cs)) && forall r :: r in ReportList(cs) <==> r in ReportsOf(cs)
  {
    hide ReportOf;
    var rs := ReportList(cs);
    forall i, j | 0 <= i < j < |rs| ensures rs[i].timeToCpaS <= rs[j].timeToCpaS && rs[i] != rs[j] {
      ReportKeepsTime(cs[i]);
      ReportKeepsTime(cs[j]);
    }
    forall r | r in ReportsOf(cs) ensures r in rs {
      var c :| c in cs && ReportOf(c) == r;
      var i :| 0 <= i < |cs| && cs[i] == c;
      assert rs[i] == r;
    }
  }

  lemma ReportKeepsTime(c: Conflict)
    ensures ReportOf(c).timeToCpaS == c.timeToCpaS
  {
  }

  /** Scanning the same tracks listed in another order reports the same pairs with the same times and
      minima, and the same time in every place of the list, pairs judged by probability and fast pairs
      included. */
  lemma OrderOfPictureIsIrrelevant(cfg: Config, m: Maths, tracks: seq<Track>, reordered: seq<Track>,
                                   found: seq<Conflict>, again: seq<Conflict>)
    requires cfg.Valid() && IsSqrt(m.sqrt) && multiset(tracks) == multiset(reordered) && DistinctIds(cfg, tracks)
    requires IsScanOf(cfg, m, tracks, found) && IsScanOf(cfg, m, reordered, again)
    ensures ReportsOf(found) == ReportsOf(again) && |found| == |again|
    ensures forall i :: 0 <= i < |found| ==> found[i].timeToCpaS == again[i].timeToCpaS
  {
    hide ReportOf, NearPairs, Ranked, Conflicts, SoonestFirst, DistinctKeys;
    forall t ensures t in tracks <==> t in reordered {
      assert t in multiset(tracks) <==> t in multiset(reordered);
    }
    assert (set t | t in tracks) == (set t | t in reordered);
    assert DistinctIds(cfg, reordered);
    ScanIsRanked(found);
    ScanIsRanked(again);
    SameTimes(ReportList(found), ReportList(again));
    forall i | 0 <= i < |found| ensures found[i].timeToCpaS == again[i].timeToCpaS {
      ReportKeepsTime(found[i]);
      ReportKeepsTime(again[i]);
    }
  }

  lemma TracksOfId(cfg: Config, tracks: seq<Track>, a: Track, b: Track, s: Track, t: Track)
    requires DistinctIds(cfg, tracks) && a in tracks && b in tracks && s in tracks && t in tracks
    requires SeenEnough(cfg, a) && SeenEnough(cfg, b) && SeenEnough(cfg, s) && SeenEnough(cfg, t)
    requires PairKey(a.id, b.id) == PairKey(s.id, t.id)
    ensures (a == s && b == t) || (a == t && b == s)
  {
    PairKeyIsUnordered(a.id, b.id, s.id, t.id);
  }

  /** A pair of tracks seen often enough is on the list a scan returns exactly when it will be inside both
      standards at one moment of the lookahead. */
  lemma ScanReportsExactlyTheBreaches(cfg: Config, m: Maths, tracks: seq<Track>, conflicts: seq<Conflict>, s: Track,
                                      t: Track)
    requires cfg.Valid() && IsSqrt(m.sqrt) && DistinctIds(cfg, tracks) && Scannable(cfg, m, tracks)
    requires IsScanOf(cfg, m, tracks, conflicts)
    requires s in tracks && t in tracks && s.id != t.id && Resolved(RelativeMotion(s, t))
    requires SeenEnough(cfg, s) && SeenEnough(cfg, t)
    ensures (exists c :: c in conflicts && PairKey(c.firstId, c.secondId) == PairKey(s.id, t.id))
       <==> exists time :: 0.0 <= time <= cfg.lookaheadS && Breach(cfg, RelativeMotion(s, t), time)
  {
    hide TestPair, RelativeMotion, Resolved, WithinClosingLimit, Weighed, Breach, PairKey, Near, DistinctIds,
      SoonestFirst,
      DistinctKeys;
    DetectsExactlySimultaneousBreach(cfg, m, s, t);
    var all := set u | u in tracks;
    if TestPair(cfg, m, s, t).Some? {
      TestNamesItsTracks(cfg, m, s, t);
      NearOrClear(cfg, m, s, t);
      assert s in all && t in all && Conflicts(cfg, m, s, t);
      assert ReportOf(TestPair(cfg, m, s, t).value) in ReportsOf(conflicts);
    }
    if c :| c in conflicts && PairKey(c.firstId, c.secondId) == PairKey(s.id, t.id) {
      var a, b :| a in tracks && b in tracks && Conflicts(cfg, m, a, b) && TestPair(cfg, m, a, b) == Some(c);
      TestNamesItsTracks(cfg, m, a, b);
      TracksOfId(cfg, tracks, a, b, s, t);
      PairOrderIsIrrelevant(cfg, m, a, b);
    }
  }
}
