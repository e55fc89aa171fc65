/**
 * `DiTTopology`: ranks as mixed-radix numbers, the process groups of its axes, and
 * the resolver of parallel degrees.
 */
module Topology {
  import opened Wrappers
  import opened SortedLists
  import opened Arithmetic

  // ---- Coordinates --------------------------------------------------------------------

  /** The lowest axis comes first. */
  function Coords(sizes: seq<nat>, rank: nat): (coords: seq<nat>)
    requires Positive(sizes)
    ensures |coords| == |sizes|
  {
    if sizes == [] then [] else [rank % sizes[0]] + Coords(sizes[1..], rank / sizes[0])
  }

  function RankAt(sizes: seq<nat>, coords: seq<nat>): nat
    requires |coords| == |sizes|
  {
    if sizes == [] then 0 else coords[0] + sizes[0] * RankAt(sizes[1..], coords[1..])
  }

  lemma {:induction false} RankOfCoords(sizes: seq<nat>, rank: nat)
    requires Positive(sizes) && rank < Product(sizes)
    ensures InRange(sizes, Coords(sizes, rank)) && RankAt(sizes, Coords(sizes, rank)) == rank
  {
    if sizes != [] {
      QuotientBelow(rank, sizes[0], Product(sizes[1..]));
      RankOfCoords(sizes[1..], rank / sizes[0]);
      var coords := Coords(sizes, rank);
      assert coords[1..] == Coords(sizes[1..], rank / sizes[0]);
      assert rank == sizes[0] * (rank / sizes[0]) + rank % sizes[0];
    }
  }

  lemma {:induction false} CoordsOfRank(sizes: seq<nat>, coords: seq<nat>)
    requires Positive(sizes) && InRange(sizes, coords)
    ensures RankAt(sizes, coords) < Product(sizes) && Coords(sizes, RankAt(sizes, coords)) == coords
  {
    if sizes != [] {
      CoordsOfRank(sizes[1..], coords[1..]);
      var rest := RankAt(sizes[1..], coords[1..]);
      DivMod(sizes[0], rest, coords[0]);
      Larger(sizes[0], rest, Product(sizes[1..]));
      assert [coords[0]] + coords[1..] == coords;
    }
  }

  // ---- The methods of a topology ----------------------------------------------------

  datatype Topology = Topology(tp: nat, ulysses: nat, ring: nat, cfg: nat, replicas: nat) {
    function Sizes(): seq<nat> {
      [tp, ulysses, ring, cfg, replicas]
    }

    predicate Valid() {
      tp > 0 && ulysses > 0 && ring > 0 && replicas > 0 && (cfg == 1 || cfg == 2)
    }

    function WorldSize(): nat {
      Product(Sizes())
    }
  }

  method CoordinatesOf(t: Topology, rank: int) returns (coords: Result<seq<nat>>)
    requires t.Valid()
    ensures coords.Ok? <==> 0 <= rank < t.WorldSize()
    ensures coords.Ok? ==> coords.value == Coords(t.Sizes(), rank)
  {
    var sizes := t.Sizes();
    if !(0 <= rank < t.WorldSize()) { return Err; }
    var values: seq<nat>, left: nat := [], rank;
    for k := 0 to |sizes|
      invariant values + Coords(sizes[k..], left) == Coords(sizes, rank)
    {
      var size := sizes[k];
      assert sizes[k..][1..] == sizes[k + 1..] && sizes[k..][0] == size;
      assert values + ([left % size] + Coords(sizes[k + 1..], left / size))
          == (values + [left % size]) + Coords(sizes[k + 1..], left / size);
      values, left := values + [left % size], left / size;
    }
    assert sizes[|sizes|..] == [];
    return Ok(values);
  }

  method RankOf(t: Topology, coordinates: seq<int>) returns (rank: Result<nat>)
    requires t.Valid() && |coordinates| == 5
    ensures rank.Ok? <==> forall i | 0 <= i < 5 :: 0 <= coordinates[i] < t.Sizes()[i]
    ensures rank.Ok? ==>
              var coords := seq(5, i requires 0 <= i < 5 => if coordinates[i] >= 0 then coordinates[i] else 0);
              rank.value == RankAt(t.Sizes(), coords)
  {
    var sizes := t.Sizes();
    ghost var coords: seq<nat> := seq(5, i requires 0 <= i < 5 => if coordinates[i] >= 0 then coordinates[i] else 0);
    var value, stride := 0, 1;
    for k := 0 to |sizes|
      invariant value + stride * RankAt(sizes[k..], coords[k..]) == RankAt(sizes, coords)
      invariant forall i | 0 <= i < k :: 0 <= coordinates[i] < sizes[i]
      invariant value >= 0 && stride >= 0
    {
      if !(0 <= coordinates[k] < sizes[k]) { return Err; }
      assert sizes[k..][1..] == sizes[k + 1..] && coords[k..][1..] == coords[k + 1..];
      Strided(stride, coords[k], sizes[k], RankAt(sizes[k + 1..], coords[k + 1..]));
      value, stride := value + coordinates[k] * stride, stride * sizes[k];
    }
    assert sizes[|sizes|..] == [] && coords[|sizes|..] == [];
    return Ok(value);
  }

  lemma {:induction false} Strided(stride: nat, c: nat, size: nat, rest: nat)
    ensures stride * (c + size * rest) == c * stride + (stride * size) * rest
    ensures c * stride >= 0 && stride * size >= 0
  {
    assert stride * (size * rest) == (stride * size) * rest;
  }

  /** `rank` and `coordinates` undo each other. */
  lemma {:induction false} RankAndCoordinatesAreInverse(t: Topology)
    requires t.Valid()
    ensures forall rank: nat | rank < t.WorldSize() ::
              InRange(t.Sizes(), Coords(t.Sizes(), rank)) && RankAt(t.Sizes(), Coords(t.Sizes(), rank)) == rank
    ensures forall coords | InRange(t.Sizes(), coords) ::
              RankAt(t.Sizes(), coords) < t.WorldSize() && Coords(t.Sizes(), RankAt(t.Sizes(), coords)) == coords
  {
    forall rank: nat | rank < t.WorldSize()
      ensures InRange(t.Sizes(), Coords(t.Sizes(), rank)) && RankAt(t.Sizes(), Coords(t.Sizes(), rank)) == rank
    {
      RankOfCoords(t.Sizes(), rank);
    }
    forall coords | InRange(t.Sizes(), coords)
      ensures RankAt(t.Sizes(), coords) < t.WorldSize() && Coords(t.Sizes(), RankAt(t.Sizes(), coords)) == coords
    {
      CoordsOfRank(t.Sizes(), coords);
    }
  }

  // ---- Groups -----------------------------------------------------------------------

  /** The axes of a group are neighbours: `lo..hi` of the sizes. */
  datatype Axis = TP | ULYSSES | RING | SP | CFG

  function Lo(axis: Axis): nat {
    match axis
    case TP => 0
    case ULYSSES => 1
    case RING => 2
    case SP => 1
    case CFG => 3
  }

  function Hi(axis: Axis): nat {
    match axis
    case TP => 1
    case ULYSSES => 2
    case RING => 3
    case SP => 3
    case CFG => 4
  }

  /** A rank's coordinates outside the axes `lo..hi`. */
  function Key(sizes: seq<nat>, lo: nat, hi: nat, rank: nat): seq<nat>
    requires Positive(sizes) && lo <= hi <= |sizes|
  {
    var coords := Coords(sizes, rank);
    coords[..lo] + coords[hi..]
  }

  function KeysOf(sizes: seq<nat>, lo: nat, hi: nat): (keys: seq<seq<nat>>)
    requires Positive(sizes) && lo <= hi <= |sizes|
    ensures |keys| == Product(sizes)
  {
    seq(Product(sizes), r requires 0 <= r < Product(sizes) => Key(sizes, lo, hi, r))
  }

  /** The ranks below `n` with a given key, in order. */
  function WithKey(keyOf: seq<seq<nat>>, n: nat, key: seq<nat>): seq<nat>
    requires n <= |keyOf|
  {
    if n == 0 then [] else WithKey(keyOf, n - 1, key) + if keyOf[n - 1] == key then [n - 1] else []
  }

  lemma {:induction false} RanksWithKey(keyOf: seq<seq<nat>>, n: nat, key: seq<nat>)
    requires n <= |keyOf|
    ensures Increasing(WithKey(keyOf, n, key))
    ensures forall r: nat :: r in WithKey(keyOf, n, key) <==> r < n && keyOf[r] == key
  {
    if n > 0 {
      RanksWithKey(keyOf, n - 1, key);
      var before := WithKey(keyOf, n - 1, key);
      assert forall i | 0 <= i < |before| :: before[i] in before;
    }
  }

  predicate Distinct(keys: seq<seq<nat>>) {
    forall i, j | 0 <= i < j < |keys| :: keys[i] != keys[j]
  }

  /** The dictionary after the ranks below `n`. */
  ghost predicate Filled(keyOf: seq<seq<nat>>, n: nat, names: seq<seq<nat>>, groups: seq<seq<nat>>)
    requires n <= |keyOf|
  {
    && |groups| == |names| && Distinct(names)
    && (forall i | 0 <= i < |groups| :: groups[i] == WithKey(keyOf, n, names[i]) && groups[i] != [])
    && (forall r: nat | r < n :: keyOf[r] in names)
  }

  method GroupByKey(keyOf: seq<seq<nat>>) returns (groups: seq<seq<nat>>)
    ensures exists names :: Filled(keyOf, |keyOf|, names, groups)
  {
    var names: seq<seq<nat>> := [];
    groups := [];
    for rank := 0 to |keyOf|
      invariant Filled(keyOf, rank, names, groups)
    {
      var key := keyOf[rank];
      var at := Find(names, key);
      if at == |names| {
        NoneBefore(keyOf, rank, key, names);
        names, groups := names + [key], groups + [[rank]];
      } else {
        groups := groups[at := groups[at] + [rank]];
      }
    }
  }

  method Find(keys: seq<seq<nat>>, key: seq<nat>) returns (at: nat)
    ensures at <= |keys| && (at < |keys| ==> keys[at] == key)
    ensures at == |keys| ==> key !in keys
  {
    for i := 0 to |keys|
      invariant key !in keys[..i]
    {
      if keys[i] == key { return i; }
    }
    return |keys|;
  }

  lemma {:induction false} NoneBefore(keyOf: seq<seq<nat>>, n: nat, key: seq<nat>, names: seq<seq<nat>>)
    requires n <= |keyOf| && key !in names && forall r: nat | r < n :: keyOf[r] in names
    ensures WithKey(keyOf, n, key) == []
  {
    if n > 0 { NoneBefore(keyOf, n - 1, key, names); }
  }

  // ---- What a group looks like --------------------------------------------------------

  lemma {:induction false} LowestAxis(n: nat, p: nat, m: nat, x: nat, y: nat) returns (w: nat, v: nat)
    requires n > 0 && m == n * p && x < m
    ensures w == x + m * y && v == x / n + p * y
    ensures x / n < p && w / n == v && w % n == x % n
  {
    QuotientBelow(x, n, p);
    Division(x, n);
    Associate(n, p, y);
    Distribute(n, x / n, p * y);
    DivMod(n, x / n + p * y, x % n);
    v := x / n + p * y;
    w := n * v + x % n;
  }

  lemma {:induction false} CoordsFirst(s: seq<nat>, n: nat, rest: seq<nat>, rank: nat)
    requires s == [n] + rest && n > 0 && Positive(rest)
    ensures Positive(s) && Coords(s, rank) == [rank % n] + Coords(rest, rank / n)
  {
    assert s[1..] == rest;
  }

  lemma {:induction false} FirstAndRest(s: seq<nat>) returns (n: nat, rest: seq<nat>)
    requires s != [] && Positive(s)
    ensures s == [n] + rest && rest == s[1..] && n > 0 && Positive(rest) && Product(s) == n * Product(rest)
  {
    n, rest := s[0], s[1..];
  }

  /** One more axis in front of `rest`. */
  lemma {:induction false} CoordsStep(n: nat, rest: seq<nat>, high: seq<nat>, x: nat, y: nat, w: nat)
    requires n > 0 && Positive(rest) && Positive(high) && Positive(rest + high)
    requires Coords(rest + high, w / n) == Coords(rest, x / n) + Coords(high, y) && w % n == x % n
    ensures Positive([n] + rest) && Positive([n] + rest + high)
    ensures Coords([n] + rest + high, w) == Coords([n] + rest, x) + Coords(high, y)
  {
    assert [n] + rest + high == [n] + (rest + high);
    CoordsFirst([n] + rest + high, n, rest + high, w);
    CoordsFirst([n] + rest, n, rest, x);
  }

  /** Coordinates of a list of axes and the axes after it. */
  lemma {:induction false} CoordsSplit(low: seq<nat>, high: seq<nat>, x: nat, y: nat)
    requires Positive(low) && Positive(high) && x < Product(low)
    ensures Positive(low + high)
    ensures Coords(low + high, x + Product(low) * y) == Coords(low, x) + Coords(high, y)
  {
    if low == [] {
      assert low + high == high;
    } else {
      var n, rest := FirstAndRest(low);
      var w, v := LowestAxis(n, Product(rest), Product(low), x, y);
      CoordsSplit(rest, high, x / n, y);
      CoordsStep(n, rest, high, x, y, w);
    }
  }

  /** A rank is x + lo * (y + m * z), with y its place along the group's axes. */
  datatype Place = Place(x: nat, y: nat, z: nat)

  function PlaceOf(lowSize: nat, groupSize: nat, rank: nat): Place
    requires lowSize > 0 && groupSize > 0
  {
    Place(rank % lowSize, (rank / lowSize) % groupSize, rank / lowSize / groupSize)
  }

  function RankOfPlace(lowSize: nat, groupSize: nat, at: Place): nat {
    at.x + lowSize * (at.y + groupSize * at.z)
  }

  lemma {:induction false} PlaceAndRank(lowSize: nat, groupSize: nat, rank: nat)
    requires lowSize > 0 && groupSize > 0
    ensures var at := PlaceOf(lowSize, groupSize, rank);
            at.x < lowSize && at.y < groupSize && RankOfPlace(lowSize, groupSize, at) == rank
  {
    assert rank == lowSize * (rank / lowSize) + rank % lowSize;
    var q := rank / lowSize;
    assert q == groupSize * (q / groupSize) + q % groupSize;
  }

  lemma {:induction false} RankAndPlace(lowSize: nat, groupSize: nat, at: Place)
    requires at.x < lowSize && at.y < groupSize
    ensures PlaceOf(lowSize, groupSize, RankOfPlace(lowSize, groupSize, at)) == at
  {
    DivMod(lowSize, at.y + groupSize * at.z, at.x);
    DivMod(groupSize, at.z, at.y);
  }

  /** The group of a rank: its place, with every index along the group's axes. */
  function GroupOf(lowSize: nat, groupSize: nat, rank: nat): (ranks: seq<nat>)
    requires lowSize > 0 && groupSize > 0
    ensures |ranks| == groupSize
  {
    seq(groupSize, y requires 0 <= y < groupSize => RankOfPlace(lowSize, groupSize, PlaceOf(lowSize, groupSize, rank).(y := y)))
  }

  lemma {:induction false} GroupAscends(lowSize: nat, groupSize: nat, rank: nat)
    requires lowSize > 0 && groupSize > 0
    ensures Increasing(GroupOf(lowSize, groupSize, rank))
  {
    var (ranks, at) := (GroupOf(lowSize, groupSize, rank), PlaceOf(lowSize, groupSize, rank));
    forall i, j | 0 <= i < j < groupSize ensures ranks[i] < ranks[j] {
      Larger(lowSize, i + groupSize * at.z, j + groupSize * at.z);
    }
  }

  lemma {:induction false} GroupMembers(lowSize: nat, groupSize: nat, rank: nat, q: nat)
    requires lowSize > 0 && groupSize > 0
    ensures var (a, b) := (PlaceOf(lowSize, groupSize, rank), PlaceOf(lowSize, groupSize, q));
            q in GroupOf(lowSize, groupSize, rank) <==> a.x == b.x && a.z == b.z
  {
    var (ranks, a, b) := (GroupOf(lowSize, groupSize, rank), PlaceOf(lowSize, groupSize, rank), PlaceOf(lowSize, groupSize, q));
    PlaceAndRank(lowSize, groupSize, rank);
    PlaceAndRank(lowSize, groupSize, q);
    if q in ranks {
      var y :| 0 <= y < groupSize && ranks[y] == q;
      RankAndPlace(lowSize, groupSize, a.(y := y));
    }
    if a.x == b.x && a.z == b.z { assert ranks[b.y] == q; }
  }

  /** Keys are equal exactly when the places differ along the group's axes only. */
  lemma {:induction false} SameKey(low: seq<nat>, mid: seq<nat>, high: seq<nat>, r: nat, q: nat)
    requires Positive(low) && Positive(mid) && Positive(high)
    requires r < Product(low + mid + high) && q < Product(low + mid + high)
    ensures Positive(low + mid + high)
    ensures var (sizes, lo, hi) := (low + mid + high, |low|, |low| + |mid|);
            var (a, b) := (PlaceOf(Product(low), Product(mid), r), PlaceOf(Product(low), Product(mid), q));
            Key(sizes, lo, hi, r) == Key(sizes, lo, hi, q) <==> a.x == b.x && a.z == b.z
  {
    var (sizes, lo, hi) := (low + mid + high, |low|, |low| + |mid|);
    var (a, b) := (PlaceOf(Product(low), Product(mid), r), PlaceOf(Product(low), Product(mid), q));
    KeyOfPlace(low, mid, high, r);
    KeyOfPlace(low, mid, high, q);
    if Key(sizes, lo, hi, r) == Key(sizes, lo, hi, q) {
      var (ka, kb) := (Coords(low, a.x) + Coords(high, a.z), Coords(low, b.x) + Coords(high, b.z));
      assert ka[..lo] == Coords(low, a.x) && kb[..lo] == Coords(low, b.x);
      assert ka[lo..] == Coords(high, a.z) && kb[lo..] == Coords(high, b.z);
      RankOfCoords(low, a.x);
      RankOfCoords(low, b.x);
      RankOfCoords(high, a.z);
      RankOfCoords(high, b.z);
    }
  }

  lemma {:induction false} PlaceBounds(lowSize: nat, groupSize: nat, highSize: nat, r: nat)
    requires lowSize > 0 && groupSize > 0 && r < lowSize * (groupSize * highSize)
    ensures PlaceOf(lowSize, groupSize, r).z < highSize
  {
    QuotientBelow(r, lowSize, groupSize * highSize);
    QuotientBelow(r / lowSize, groupSize, highSize);
  }

  lemma {:induction false} ThreeParts(low: seq<nat>, mid: seq<nat>, high: seq<nat>)
    requires Positive(low) && Positive(mid) && Positive(high)
    ensures low + mid + high == low + (mid + high) && Positive(low + mid + high) && Positive(mid + high)
    ensures Product(low + mid + high) == Product(low) * (Product(mid) * Product(high))
  {
    assert low + mid + high == low + (mid + high);
    ProductSplit(low, mid + high);
    ProductSplit(mid, high);
  }

  lemma {:induction false} CoordsOfPlace(low: seq<nat>, mid: seq<nat>, high: seq<nat>, at: Place)
    requires Positive(low) && Positive(mid) && Positive(high)
    requires at.x < Product(low) && at.y < Product(mid)
    ensures Positive(low + (mid + high))
    ensures Coords(low + (mid + high), RankOfPlace(Product(low), Product(mid), at))
         == Coords(low, at.x) + (Coords(mid, at.y) + Coords(high, at.z))
  {
    CoordsSplit(mid, high, at.y, at.z);
    CoordsSplit(low, mid + high, at.x, at.y + Product(mid) * at.z);
  }

  lemma {:induction false} Outside(a: seq<nat>, b: seq<nat>, c: seq<nat>)
    ensures (a + (b + c))[..|a|] + (a + (b + c))[|a| + |b|..] == a + c
  {}

  lemma {:induction false} KeyOfPlace(low: seq<nat>, mid: seq<nat>, high: seq<nat>, r: nat)
    requires Positive(low) && Positive(mid) && Positive(high) && r < Product(low + mid + high)
    ensures Positive(low + mid + high)
    ensures var at := PlaceOf(Product(low), Product(mid), r);
            && at.x < Product(low) && at.y < Product(mid) && at.z < Product(high)
            && Key(low + mid + high, |low|, |low| + |mid|, r) == Coords(low, at.x) + Coords(high, at.z)
            && Coords(low + mid + high, r) == Coords(low, at.x) + (Coords(mid, at.y) + Coords(high, at.z))
  {
    var at := PlaceOf(Product(low), Product(mid), r);
    ThreeParts(low, mid, high);
    PlaceAndRank(Product(low), Product(mid), r);
    PlaceBounds(Product(low), Product(mid), Product(high), r);
    CoordsOfPlace(low, mid, high, at);
    Outside(Coords(low, at.x), Coords(mid, at.y), Coords(high, at.z));
  }

  // ---- Theorems -------------------------------------------------------------------

  function Low(t: Topology, axis: Axis): seq<nat> {
    t.Sizes()[..Lo(axis)]
  }

  function Mid(t: Topology, axis: Axis): seq<nat> {
    t.Sizes()[Lo(axis)..Hi(axis)]
  }

  /** The degree of an axis. */
  function Degree(t: Topology, axis: Axis): nat {
    match axis
    case TP => t.tp
    case ULYSSES => t.ulysses
    case RING => t.ring
    case SP => t.ulysses * t.ring
    case CFG => t.cfg
  }

  lemma {:induction false} MidIsDegree(t: Topology, axis: Axis)
    ensures Product(Mid(t, axis)) == Degree(t, axis)
  {
    match axis {
      case SP =>
        assert Mid(t, axis) == [t.ulysses, t.ring];
        ProductOfTwo(t.ulysses, t.ring);
      case _ =>
        assert Mid(t, axis) == [Degree(t, axis)];
        ProductOfOne(Degree(t, axis));
    }
  }

  lemma {:induction false} PartsOfSizes(t: Topology, axis: Axis)
    requires t.Valid()
    ensures var high := t.Sizes()[Hi(axis)..];
            && Low(t, axis) + Mid(t, axis) + high == t.Sizes()
            && Positive(Low(t, axis)) && Positive(Mid(t, axis)) && Positive(high) && Positive(t.Sizes())
  {
    SizesArePositive(t);
    PositiveParts(t.Sizes(), Lo(axis), Hi(axis));
  }

  lemma {:induction false} SizesArePositive(t: Topology)
    requires t.Valid()
    ensures Positive(t.Sizes())
  {}

  lemma {:induction false} PositiveParts(s: seq<nat>, a: nat, b: nat)
    requires Positive(s) && a <= b <= |s|
    ensures s[..a] + s[a..b] + s[b..] == s
    ensures Positive(s[..a]) && Positive(s[a..b]) && Positive(s[b..])
  {}

  /** A rank's group, along the axis, by its arithmetic. */
  function RankGroup(t: Topology, axis: Axis, rank: nat): seq<nat>
    requires t.Valid()
  {
    PartsOfSizes(t, axis);
    GroupOf(Product(Low(t, axis)), Product(Mid(t, axis)), rank)
  }

  lemma {:induction false} KeyGroup(t: Topology, axis: Axis, rank: nat)
    requires t.Valid() && rank < t.WorldSize()
    ensures WithKey(KeysOf(t.Sizes(), Lo(axis), Hi(axis)), t.WorldSize(), Key(t.Sizes(), Lo(axis), Hi(axis), rank))
         == RankGroup(t, axis, rank)
  {
    var (sizes, lo, hi) := (t.Sizes(), Lo(axis), Hi(axis));
    var (low, mid, high) := (Low(t, axis), Mid(t, axis), sizes[hi..]);
    PartsOfSizes(t, axis);
    var keyOf := KeysOf(sizes, lo, hi);
    RanksWithKey(keyOf, |keyOf|, keyOf[rank]);
    GroupAscends(Product(low), Product(mid), rank);
    forall q: nat ensures q in WithKey(keyOf, |keyOf|, keyOf[rank]) <==> q in RankGroup(t, axis, rank) {
      GroupMembers(Product(low), Product(mid), rank, q);
      if q < t.WorldSize() {
        SameKey(low, mid, high, rank, q);
      } else if q in RankGroup(t, axis, rank) {
        GroupInWorld(low, mid, high, rank, q);
      }
    }
    SameElements(WithKey(keyOf, |keyOf|, keyOf[rank]), RankGroup(t, axis, rank));
  }

  lemma {:induction false} PlaceInWorld(l: nat, m: nat, h: nat, at: Place)
    requires at.x < l && at.y < m && at.z < h
    ensures RankOfPlace(l, m, at) < l * (m * h)
  {
    Larger(m, at.z, h);
    Larger(l, at.y + m * at.z, m * h);
  }

  lemma {:induction false} GroupInWorld(low: seq<nat>, mid: seq<nat>, high: seq<nat>, rank: nat, q: nat)
    requires Positive(low) && Positive(mid) && Positive(high) && rank < Product(low + mid + high)
    requires var (a, b) := (PlaceOf(Product(low), Product(mid), rank), PlaceOf(Product(low), Product(mid), q));
             a.x == b.x && a.z == b.z
    ensures q < Product(low + mid + high)
  {
    var (l, m, h) := (Product(low), Product(mid), Product(high));
    ThreeParts(low, mid, high);
    PlaceAndRank(l, m, q);
    PlaceBounds(l, m, h, rank);
    PlaceInWorld(l, m, h, PlaceOf(l, m, q));
  }

  /** Ascending groups of the axis's degree, each rank in exactly one of them. */
  ghost predicate Partition(t: Topology, axis: Axis, groups: seq<seq<nat>>)
    requires t.Valid()
  {
    && (forall i | 0 <= i < |groups| :: |groups[i]| == Degree(t, axis) && Increasing(groups[i]))
    && (forall r: nat | r < t.WorldSize() :: exists i :: 0 <= i < |groups| && groups[i] == RankGroup(t, axis, r) && r in groups[i])
    && (forall i, j, r: nat | 0 <= i < |groups| && 0 <= j < |groups| && r in groups[i] && r in groups[j] :: i == j)
  }

  /**
   * For every axis the groups partition the ranks into ascending lists of the
   * axis's degree, and the group of a rank is where its index varies along the axis.
   */
  lemma {:induction false} GroupsPartition(t: Topology, axis: Axis, names: seq<seq<nat>>, groups: seq<seq<nat>>)
    requires t.Valid() && Filled(KeysOf(t.Sizes(), Lo(axis), Hi(axis)), t.WorldSize(), names, groups)
    ensures Partition(t, axis, groups)
  {
    var keyOf := KeysOf(t.Sizes(), Lo(axis), Hi(axis));
    forall i | 0 <= i < |groups| ensures |groups[i]| == Degree(t, axis) && Increasing(groups[i]) {
      RanksWithKey(keyOf, |keyOf|, names[i]);
      assert groups[i][0] in groups[i];
      KeyGroup(t, axis, groups[i][0]);
      MidIsDegree(t, axis);
    }
    forall r: nat | r < t.WorldSize()
      ensures exists i :: 0 <= i < |groups| && groups[i] == RankGroup(t, axis, r) && r in groups[i]
    {
      var i :| 0 <= i < |names| && names[i] == keyOf[r];
      RanksWithKey(keyOf, |keyOf|, names[i]);
      KeyGroup(t, axis, r);
      assert groups[i] == RankGroup(t, axis, r) && r in groups[i];
    }
    forall i, j, r: nat | 0 <= i < |groups| && 0 <= j < |groups| && r in groups[i] && r in groups[j] ensures i == j {
      RanksWithKey(keyOf, |keyOf|, names[i]);
      RanksWithKey(keyOf, |keyOf|, names[j]);
    }
  }

  /** `groups`: a dictionary keyed by the other coordinates, filled rank by rank. */
  method Groups(t: Topology, axis: Axis) returns (groups: seq<seq<nat>>)
    requires t.Valid()
    ensures exists names :: Filled(KeysOf(t.Sizes(), Lo(axis), Hi(axis)), t.WorldSize(), names, groups)
    ensures Partition(t, axis, groups)
  {
    var keyOf := KeysOf(t.Sizes(), Lo(axis), Hi(axis));
    groups := GroupByKey(keyOf);
    ghost var names :| Filled(keyOf, |keyOf|, names, groups);
    GroupsPartition(t, axis, names, groups);
  }

  lemma {:induction false} MergedParts(u: nat, ring: nat, q: nat, rest: nat, a: nat, b: nat, c: nat)
    requires q == u * rest + a && rest == ring * c + b && a < u && b < ring
    ensures u * ring > 0 && q % (u * ring) == a + u * b
  {
    Distribute(u, ring * c, b);
    Associate(u, ring, c);
    Larger(u, b, ring);
    DivMod(u * ring, c, a + u * b);
  }

  /** The index along two merged axes. */
  lemma {:induction false} MergedIndex(u: nat, ring: nat, q: nat)
    requires u > 0 && ring > 0
    ensures u * ring > 0 && q % (u * ring) == q % u + u * ((q / u) % ring)
  {
    Division(q, u);
    Division(q / u, ring);
    MergedParts(u, ring, q, q / u, q % u, (q / u) % ring, q / u / ring);
  }

  lemma {:induction false} SpCoords(t: Topology, rank: nat)
    requires t.Valid()
    ensures var coords := Coords(t.Sizes(), rank);
            coords[1] == (rank / t.tp) % t.ulysses && coords[2] == (rank / t.tp / t.ulysses) % t.ring
  {
    var (rest, last) := ([t.ulysses, t.ring, t.cfg, t.replicas], [t.ring, t.cfg, t.replicas]);
    assert t.Sizes()[1..] == rest && rest[1..] == last;
    assert Coords(t.Sizes(), rank) == [rank % t.tp] + Coords(rest, rank / t.tp);
    assert Coords(rest, rank / t.tp) == [(rank / t.tp) % t.ulysses] + Coords(last, rank / t.tp / t.ulysses);
    assert Coords(last, rank / t.tp / t.ulysses)[0] == (rank / t.tp / t.ulysses) % t.ring;
  }

  lemma {:induction false} LowOfSp(t: Topology)
    ensures Product(Low(t, SP)) == t.tp
  {
    assert Low(t, SP) == [t.tp] && Low(t, SP)[1..] == [];
  }

  /** A rank's index in its SP group is its Ulysses index plus Ulysses size times ring index. */
  lemma {:induction false} SpIndex(t: Topology, rank: nat)
    requires t.Valid() && rank < t.WorldSize()
    ensures var (coords, group) := (Coords(t.Sizes(), rank), RankGroup(t, SP, rank));
            var index := coords[1] + t.ulysses * coords[2];
            |group| == t.ulysses * t.ring && index < |group| && group[index] == rank
  {
    PartsOfSizes(t, SP);
    MidIsDegree(t, SP);
    LowOfSp(t);
    SpCoords(t, rank);
    MergedIndex(t.ulysses, t.ring, rank / t.tp);
    IndexInGroup(t.tp, t.ulysses * t.ring, rank);
  }

  lemma {:induction false} IndexInGroup(lowSize: nat, groupSize: nat, rank: nat)
    requires lowSize > 0 && groupSize > 0
    ensures var y := (rank / lowSize) % groupSize;
            y < |GroupOf(lowSize, groupSize, rank)| && GroupOf(lowSize, groupSize, rank)[y] == rank
  {
    PlaceAndRank(lowSize, groupSize, rank);
  }

  // ---- The resolver -----------------------------------------------------------------

  datatype Degrees = Degrees(sp: int, ring: int, ulysses: Option<int>, ringMode: bool, tp: int, cfg: int, shard: int, replicate: int)

  function Resolve(d: Degrees): Result<Topology> {
    if d.sp < 1 then Err
    else
      var ring := if d.ulysses.None? && d.ringMode && d.ring == 1 then d.sp else d.ring;
      if d.ulysses.None? && (ring < 1 || d.sp % ring != 0) then Err
      else
        var ulysses := if d.ulysses.None? then d.sp / ring else d.ulysses.value;
        if d.sp != ulysses * ring then Err
        else if d.tp < 1 || ulysses < 1 || ring < 1 || !(d.cfg == 1 || d.cfg == 2) then Err
        else if d.shard < 1 || d.replicate < 1 then Err
        else
          var base := Topology(d.tp, ulysses, ring, d.cfg, 1);
          var fsdp := d.shard * d.replicate;
          if fsdp > 1 && (d.tp != 1 || fsdp % base.WorldSize() != 0) then Err
          else
            var replicas := if fsdp / base.WorldSize() > 1 then fsdp / base.WorldSize() else 1;
            Ok(Topology(d.tp, ulysses, ring, d.cfg, replicas))
  }

  lemma {:induction false} WorldOf(t: Topology)
    ensures t.WorldSize() == t.(replicas := 1).WorldSize() * t.replicas
  {
    var front := [t.tp, t.ulysses, t.ring, t.cfg];
    assert t.Sizes() == front + [t.replicas] && t.(replicas := 1).Sizes() == front + [1];
    ProductOfOne(t.replicas);
    ProductOfOne(1);
    ProductSplit(front, [t.replicas]);
    ProductSplit(front, [1]);
  }

  lemma {:induction false} ExactReplicas(fsdp: nat, base: nat)
    requires base > 0 && fsdp > 1 && fsdp % base == 0
    ensures fsdp / base >= 1 && base * (fsdp / base) == fsdp
  {
    assert fsdp == base * (fsdp / base) + fsdp % base;
  }

  /** An accepted FSDP mesh fills the world exactly; every accepted topology keeps the SP degree. */
  lemma {:induction false} ResolvedWorld(d: Degrees)
    requires Resolve(d).Ok?
    ensures var t := Resolve(d).value;
            && t.Valid() && t.ulysses * t.ring == d.sp
            && (d.shard * d.replicate > 1 ==> t.WorldSize() == d.shard * d.replicate && t.tp == 1)
            && (d.shard * d.replicate <= 1 ==> t.replicas == 1)
  {
    var t := Resolve(d).value;
    var (base, fsdp) := (t.(replicas := 1), d.shard * d.replicate);
    WorldOf(t);
    PartsOfSizes(base, TP);
    if fsdp > 1 { ExactReplicas(fsdp, base.WorldSize()); }
  }

  /** The ring degree: in ring mode the whole SP degree, unless a degree has been set. */
  function RingOf(d: Degrees): int {
    if d.ulysses.None? && d.ringMode && d.ring == 1 then d.sp else d.ring
  }

  /** The degrees that can be laid out; an FSDP mesh must hold whole SP x CFG worlds, and no tensor parallelism. */
  predicate Legal(d: Degrees) {
    && d.sp >= 1 && RingOf(d) >= 1 && d.tp >= 1 && (d.cfg == 1 || d.cfg == 2) && d.shard >= 1 && d.replicate >= 1
    && (if d.ulysses.Some? then d.ulysses.value * RingOf(d) == d.sp else d.sp % RingOf(d) == 0)
    && (d.shard * d.replicate > 1 ==> d.tp == 1 && (d.shard * d.replicate) % (d.sp * d.cfg) == 0)
  }

  lemma {:induction false} UlyssesOf(d: Degrees)
    requires d.sp >= 1 && RingOf(d) >= 1
    ensures d.ulysses.None? ==> (d.sp % RingOf(d) == 0 <==> (d.sp / RingOf(d)) * RingOf(d) == d.sp)
    ensures d.ulysses.None? && d.sp % RingOf(d) == 0 ==> d.sp / RingOf(d) >= 1
    ensures d.ulysses.Some? && d.ulysses.value * RingOf(d) == d.sp ==> d.ulysses.value >= 1
  {
    var ring := RingOf(d);
    assert d.sp == (d.sp / ring) * ring + d.sp % ring;
    if d.ulysses.Some? && d.ulysses.value <= 0 { assert d.ulysses.value * ring <= 0; }
  }

  lemma {:induction false} PlainWorld(ulysses: nat, ring: nat, cfg: nat)
    ensures Topology(1, ulysses, ring, cfg, 1).WorldSize() == (ulysses * ring) * cfg
  {
    assert Topology(1, ulysses, ring, cfg, 1).Sizes() == [1] + ([ulysses, ring] + [cfg, 1]);
    ProductSplit([1], [ulysses, ring] + [cfg, 1]);
    ProductSplit([ulysses, ring], [cfg, 1]);
    ProductOfOne(1);
    ProductOfTwo(ulysses, ring);
    ProductOfTwo(cfg, 1);
  }

  /** Legal degrees are resolved and others refused. */
  lemma {:induction false} ResolvesLegalDegrees(d: Degrees)
    ensures Resolve(d).Ok? <==> Legal(d)
    ensures Legal(d) ==>
              var t := Resolve(d).value;
              && t.tp == d.tp && t.cfg == d.cfg && t.ring == RingOf(d) && t.ulysses * t.ring == d.sp
              && (d.ulysses.Some? ==> t.ulysses == d.ulysses.value)
              && (if d.shard * d.replicate > 1 then t.replicas * (d.sp * d.cfg) == d.shard * d.replicate else t.replicas == 1)
  {
    if d.sp >= 1 && RingOf(d) >= 1 && d.tp >= 1 && (d.cfg == 1 || d.cfg == 2) {
      UlyssesOf(d);
      var ulysses := if d.ulysses.None? then d.sp / RingOf(d) else d.ulysses.value;
      if ulysses * RingOf(d) == d.sp && ulysses >= 1 && d.tp == 1 {
        PlainWorld(ulysses, RingOf(d), d.cfg);
        if d.shard * d.replicate > 1 && (d.shard * d.replicate) % (d.sp * d.cfg) == 0 {
          ExactReplicas(d.shard * d.replicate, d.sp * d.cfg);
        }
      }
    }
  }
}
