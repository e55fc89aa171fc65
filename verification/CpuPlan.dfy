/**
 * `plan_auto_cpu_resource_environment`: which physical cores each rank gets, and
 * the maps that tell the workers so.
 */
module CpuPlan {
  import opened Wrappers
  import opened PlainText
  import opened CpuSets
  import opened SortedLists
  import opened CpuMaps

  // ---- Physical cores ---------------------------------------------------------------

  datatype Row = Row(cpu: nat, core: nat, socket: nat, node: nat)

  function StripAll(fields: seq<string>): (stripped: seq<string>)
    ensures |stripped| == |fields|
  {
    seq(|fields|, i requires 0 <= i < |fields| => Strip(fields[i]))
  }

  /** A line of `lscpu -p`; comments and lines without four numbers are skipped. */
  function ReadRow(line: string): Option<Row> {
    if line == [] || line[0] == '#' then None
    else
      var fields := StripAll(Split(line, ','));
      if |fields| < 4 || exists i | 0 <= i < 4 :: !IsDecimal(fields[i]) then None
      else Some(Row(ParseNat(fields[0]), ParseNat(fields[1]), ParseNat(fields[2]), ParseNat(fields[3])))
  }

  predicate SameCore(a: Row, b: Row) {
    a.core == b.core && a.socket == b.socket && a.node == b.node
  }

  /** The first row of every physical core, in order. */
  function FirstRows(lines: seq<string>): seq<Row> {
    if lines == [] then []
    else
      var (before, row) := (FirstRows(lines[..|lines| - 1]), ReadRow(lines[|lines| - 1]));
      if row.None? || exists i :: 0 <= i < |before| && SameCore(before[i], row.value) then before
      else before + [row.value]
  }

  /** Line `k` is the first to name its core. */
  predicate NamesNewCore(lines: seq<string>, k: nat)
    requires k < |lines|
  {
    && ReadRow(lines[k]).Some?
    && forall j | 0 <= j < k && ReadRow(lines[j]).Some? ::
         var (a, b) := (ReadRow(lines[j]).value, ReadRow(lines[k]).value);
         a.core != b.core || a.socket != b.socket || a.node != b.node
  }

  /** The rows are read from these lines, which are those that name a new core, in order. */
  ghost predicate ReadFrom(lines: seq<string>, rows: seq<Row>, places: seq<nat>) {
    && |places| == |rows|
    && (forall i | 0 <= i < |places| :: places[i] < |lines| && ReadRow(lines[places[i]]) == Some(rows[i]))
    && (forall i, j | 0 <= i < j < |places| :: places[i] < places[j])
    && (forall k: nat | k < |lines| :: k in places <==> NamesNewCore(lines, k))
  }

  lemma {:induction false} NextRow(lines: seq<string>, n: nat, rows: seq<Row>, places: seq<nat>)
    requires n < |lines| && ReadFrom(lines[..n], rows, places) && ReadRow(lines[n]).Some?
    ensures NamesNewCore(lines, n) <==> !exists i :: 0 <= i < |rows| && SameCore(rows[i], ReadRow(lines[n]).value)
  {
    var row := ReadRow(lines[n]).value;
    if i :| 0 <= i < |rows| && SameCore(rows[i], row) { assert lines[..n][places[i]] == lines[places[i]]; }
    if j :| 0 <= j < n && ReadRow(lines[j]).Some? && SameCore(ReadRow(lines[j]).value, row) {
      var i := FirstOf(lines, n, rows, places, j);
      assert SameCore(rows[i], row);
    }
  }

  lemma {:induction false} EarlierLine(lines: seq<string>, k: nat) returns (j: nat)
    requires k < |lines| && ReadRow(lines[k]).Some? && !NamesNewCore(lines, k)
    ensures j < k && ReadRow(lines[j]).Some? && SameCore(ReadRow(lines[j]).value, ReadRow(lines[k]).value)
  {
    if !exists j :: 0 <= j < k && ReadRow(lines[j]).Some? && SameCore(ReadRow(lines[j]).value, ReadRow(lines[k]).value) {
      assert NamesNewCore(lines, k);
      assert false;
    }
    j :| 0 <= j < k && ReadRow(lines[j]).Some? && SameCore(ReadRow(lines[j]).value, ReadRow(lines[k]).value);
  }

  /** The row that stands for the core of line `j`. */
  lemma {:induction false} FirstOf(lines: seq<string>, n: nat, rows: seq<Row>, places: seq<nat>, j: nat) returns (i: nat)
    requires n <= |lines| && ReadFrom(lines[..n], rows, places) && j < n && ReadRow(lines[j]).Some?
    ensures i < |rows| && SameCore(rows[i], ReadRow(lines[j]).value)
  {
    assert lines[..n][j] == lines[j];
    if NamesNewCore(lines[..n], j) {
      i :| 0 <= i < |places| && places[i] == j;
    } else {
      var h := EarlierLine(lines[..n], j);
      assert lines[..n][h] == lines[h];
      i := FirstOf(lines, n, rows, places, h);
    }
  }

  lemma {:induction false} NewLine(lines: seq<string>, n: nat, rows: seq<Row>, places: seq<nat>)
    requires n < |lines| && ReadFrom(lines[..n], rows, places) && NamesNewCore(lines, n)
    ensures ReadFrom(lines[..n + 1], rows + [ReadRow(lines[n]).value], places + [n])
  {
    SameNames(lines, n);
    SameNames(lines, n + 1);
    assert forall i | 0 <= i < |places| :: lines[..n][places[i]] == lines[..n + 1][places[i]];
  }

  lemma {:induction false} OldLine(lines: seq<string>, n: nat, rows: seq<Row>, places: seq<nat>)
    requires n < |lines| && ReadFrom(lines[..n], rows, places) && !NamesNewCore(lines, n)
    ensures ReadFrom(lines[..n + 1], rows, places)
  {
    SameNames(lines, n);
    SameNames(lines, n + 1);
    assert forall i | 0 <= i < |places| :: lines[..n][places[i]] == lines[..n + 1][places[i]];
  }

  /** One row is kept for every physical core: that of the first line which names it, in the order of the lines. */
  lemma {:induction false} FirstRowsAreFirst(lines: seq<string>) returns (places: seq<nat>)
    ensures ReadFrom(lines, FirstRows(lines), places)
  {
    places := [];
    if lines != [] {
      var n := |lines| - 1;
      var rows := FirstRows(lines[..n]);
      places := FirstRowsAreFirst(lines[..n]);
      assert lines[..n + 1] == lines;
      if ReadRow(lines[n]).Some? { NextRow(lines, n, rows, places); }
      if NamesNewCore(lines, n) {
        NewLine(lines, n, rows, places);
        places := places + [n];
      } else {
        OldLine(lines, n, rows, places);
      }
    }
  }

  lemma {:induction false} SameNames(lines: seq<string>, n: nat)
    requires n <= |lines|
    ensures forall k: nat | k < n :: NamesNewCore(lines[..n], k) <==> NamesNewCore(lines, k)
  {
    assert forall k: nat | k < n :: lines[..n][k] == lines[k];
  }

  /** A line of four printed numbers, with anything after a further comma, is read as those numbers. */
  lemma {:induction false} RowIsReadBack(row: Row, rest: seq<string>)
    requires forall i | 0 <= i < |rest| :: ',' !in rest[i]
    ensures ReadRow(Join([PrintNat(row.cpu), PrintNat(row.core), PrintNat(row.socket), PrintNat(row.node)] + rest, ',')) == Some(row)
  {
    var numbers := [row.cpu, row.core, row.socket, row.node];
    var texts := [PrintNat(row.cpu), PrintNat(row.core), PrintNat(row.socket), PrintNat(row.node)];
    forall i | 0 <= i < 4 ensures IsDecimal(texts[i]) && ParseNat(texts[i]) == numbers[i] && Strip(texts[i]) == texts[i] && ',' !in texts[i] {
      ParseOfPrint(numbers[i]);
      DecimalIsTight(texts[i]);
      StripTight(texts[i]);
    }
    SplitOfJoin(texts + rest, ',');
    var line := Join(texts + rest, ',');
    assert line[0] == texts[0][0] && IsDigit(texts[0][0]);
  }

  function InsertCpu(cpu: nat, cpus: seq<nat>): seq<nat> {
    if cpus == [] || cpu <= cpus[0] then [cpu] + cpus else [cpus[0]] + InsertCpu(cpu, cpus[1..])
  }

  /** The CPUs of one node among the rows, in ascending order. */
  function NodeCpus(rows: seq<Row>, node: nat): seq<nat> {
    if rows == [] then []
    else
      var (before, row) := (NodeCpus(rows[..|rows| - 1], node), rows[|rows| - 1]);
      if row.node == node then InsertCpu(row.cpu, before) else before
  }

  predicate DistinctCpus(rows: seq<Row>) {
    forall i, j | 0 <= i < j < |rows| :: rows[i].cpu != rows[j].cpu
  }

  lemma {:induction false} InsertKeeps(cpu: nat, cpus: seq<nat>)
    requires Increasing(cpus) && cpu !in cpus
    ensures Increasing(InsertCpu(cpu, cpus))
    ensures forall c :: c in InsertCpu(cpu, cpus) <==> c == cpu || c in cpus
  {
    if cpus != [] && cpu > cpus[0] {
      InsertKeeps(cpu, cpus[1..]);
      var rest := InsertCpu(cpu, cpus[1..]);
      forall c | c in rest ensures cpus[0] < c {
        if c != cpu {
          var i :| 0 <= i < |cpus[1..]| && cpus[1..][i] == c;
          assert cpus[i + 1] == c;
        }
      }
      forall i | 0 <= i < |rest| ensures cpus[0] < rest[i] { assert rest[i] in rest; }
      assert cpus == [cpus[0]] + cpus[1..];
    }
  }

  /** With distinct CPUs, a node's list is increasing and holds exactly its rows' CPUs. */
  lemma {:induction false} NodeCpusAreSorted(rows: seq<Row>, node: nat)
    requires DistinctCpus(rows)
    ensures Increasing(NodeCpus(rows, node))
    ensures forall c :: c in NodeCpus(rows, node) <==> exists i :: 0 <= i < |rows| && rows[i].node == node && rows[i].cpu == c
  {
    if rows != [] {
      var (front, row) := (rows[..|rows| - 1], rows[|rows| - 1]);
      assert forall i | 0 <= i < |front| :: front[i] == rows[i];
      NodeCpusAreSorted(front, node);
      if row.node == node {
        assert row.cpu !in NodeCpus(front, node);
        InsertKeeps(row.cpu, NodeCpus(front, node));
      }
      forall c ensures c in NodeCpus(rows, node) <==> exists i :: 0 <= i < |rows| && rows[i].node == node && rows[i].cpu == c {
        if i :| 0 <= i < |rows| && rows[i].node == node && rows[i].cpu == c {
          assert i < |front| ==> front[i].node == node && front[i].cpu == c;
        }
        if c in NodeCpus(front, node) {
          var i :| 0 <= i < |front| && front[i].node == node && front[i].cpu == c;
          assert rows[i].node == node && rows[i].cpu == c;
        }
      }
    }
  }

  lemma {:induction false} NodesAreDisjoint(rows: seq<Row>, a: nat, b: nat)
    requires DistinctCpus(rows) && a != b
    ensures forall c | c in NodeCpus(rows, a) :: c !in NodeCpus(rows, b)
  {
    NodeCpusAreSorted(rows, a);
    NodeCpusAreSorted(rows, b);
  }

  // ---- Who gets what ----------------------------------------------------------------

  /** The ranks below `n` whose GPU sits on the node, ascending. */
  function NodeRanks(nodes: seq<nat>, n: nat, node: nat): (ranks: seq<nat>)
    requires n <= |nodes|
    ensures |ranks| <= n && forall i | 0 <= i < |ranks| :: ranks[i] < n && nodes[ranks[i]] == node
    ensures forall i, j | 0 <= i < j < |ranks| :: ranks[i] < ranks[j]
    ensures forall r: nat | r < n && nodes[r] == node :: r in ranks
  {
    if n == 0 then []
    else NodeRanks(nodes, n - 1, node) + if nodes[n - 1] == node then [n - 1] else []
  }

  /** The threads of a node's ranks, or an error for the node. */
  function Budgets(cores: nat, ranks: seq<nat>, explicit: Option<nat>): (budgets: Option<seq<nat>>)
    requires ranks != []
    ensures budgets.Some? ==> |budgets.value| == |ranks|
  {
    if cores == 0 then None
    else if explicit.Some? then
      if explicit.value * |ranks| > cores then None else Some(seq(|ranks|, _ => explicit.value))
    else if 0 in ranks && |ranks| > 1 then
      var writer := cores - 4 * (|ranks| - 1);
      if writer < 4 then None
      else Some(seq(|ranks|, i requires 0 <= i < |ranks| => if ranks[i] == 0 then writer else 4))
    else
      var threads := cores / |ranks|;
      if threads < 1 then None else Some(seq(|ranks|, _ => threads))
  }

  /** Threads of the node's first `i` ranks together. */
  function Position(budgets: seq<nat>, i: nat): nat
    requires i <= |budgets|
  {
    if i == 0 then 0 else Position(budgets, i - 1) + budgets[i - 1]
  }

  lemma {:induction false} PositionsAscend(budgets: seq<nat>, i: nat, j: nat)
    requires i <= j <= |budgets|
    ensures Position(budgets, i) <= Position(budgets, j)
  {
    if i < j { PositionsAscend(budgets, i, j - 1); }
  }

  lemma {:induction false} UniformPosition(budgets: seq<nat>, i: nat, threads: nat)
    requires i <= |budgets| && forall k | 0 <= k < i :: budgets[k] == threads
    ensures Position(budgets, i) == threads * i
  {
    if i > 0 {
      UniformPosition(budgets, i - 1, threads);
      assert threads * i == threads * (i - 1) + threads;
    }
  }

  /** Rank 0, the writer, comes first and takes what the peers leave. */
  lemma {:induction false} WriterPosition(budgets: seq<nat>, writer: nat, i: nat)
    requires i <= |budgets| && budgets != [] && budgets[0] == writer
    requires forall k | 0 < k < |budgets| :: budgets[k] == 4
    ensures Position(budgets, i) == if i == 0 then 0 else writer + 4 * (i - 1)
  {
    if i > 0 { WriterPosition(budgets, writer, i - 1); }
  }

  predicate Ascending(ranks: seq<nat>) {
    forall i, j | 0 <= i < j < |ranks| :: ranks[i] < ranks[j]
  }

  lemma {:induction false} SharesOut(cores: nat, n: nat)
    requires 0 < n
    ensures (cores / n) * n <= cores
  {}

  /** The budgets of a node never exceed its cores, so no slice is cut short. */
  lemma {:induction false} BudgetsFit(cores: nat, ranks: seq<nat>, explicit: Option<nat>)
    requires ranks != [] && Ascending(ranks) && Budgets(cores, ranks, explicit).Some?
    ensures Position(Budgets(cores, ranks, explicit).value, |ranks|) <= cores
    ensures explicit.None? || explicit.value >= 1 ==>
              forall i | 0 <= i < |ranks| :: Budgets(cores, ranks, explicit).value[i] >= 1
  {
    var (budgets, n) := (Budgets(cores, ranks, explicit).value, |ranks|);
    if explicit.Some? {
      UniformPosition(budgets, n, explicit.value);
    } else if 0 in ranks && n > 1 {
      assert ranks[0] == 0;
      WriterPosition(budgets, cores - 4 * (n - 1), n);
    } else {
      UniformPosition(budgets, n, cores / n);
      SharesOut(cores, n);
    }
  }

  // ---- Shares -------------------------------------------------------------------------

  function IndexIn(ranks: seq<nat>, rank: nat): (i: nat)
    requires rank in ranks
    ensures i < |ranks| && ranks[i] == rank
  {
    if ranks[0] == rank then 0 else IndexIn(ranks[1..], rank) + 1
  }

  function Peers(nodes: seq<nat>, rank: nat): (ranks: seq<nat>)
    requires rank < |nodes|
    ensures rank in ranks && Ascending(ranks)
  {
    NodeRanks(nodes, |nodes|, nodes[rank])
  }

  function PeerBudgets(nodes: seq<nat>, rows: seq<Row>, explicit: Option<nat>, rank: nat): (budgets: Option<seq<nat>>)
    requires rank < |nodes|
    ensures budgets.Some? ==> |budgets.value| == |Peers(nodes, rank)|
  {
    Budgets(|NodeCpus(rows, nodes[rank])|, Peers(nodes, rank), explicit)
  }

  /** Does every node have cores enough for its ranks? */
  predicate Plannable(nodes: seq<nat>, rows: seq<Row>, explicit: Option<nat>) {
    forall r: nat | r < |nodes| :: PeerBudgets(nodes, rows, explicit, r).Some?
  }

  predicate Fit(cores: seq<nat>, budgets: seq<nat>) {
    Position(budgets, |budgets|) <= |cores|
  }

  /** The cores of slot `i` of a node. */
  function Slice(cores: seq<nat>, budgets: seq<nat>, i: nat): (slice: seq<nat>)
    requires i < |budgets| && Fit(cores, budgets)
    ensures |slice| == budgets[i]
  {
    PositionsAscend(budgets, i + 1, |budgets|);
    cores[Position(budgets, i)..Position(budgets, i + 1)]
  }

  /** The physical cores a rank is given. */
  function Share(nodes: seq<nat>, rows: seq<Row>, explicit: Option<nat>, rank: nat): seq<nat>
    requires rank < |nodes| && Plannable(nodes, rows, explicit)
  {
    assert PeerBudgets(nodes, rows, explicit, rank).Some?;
    BudgetsFit(|NodeCpus(rows, nodes[rank])|, Peers(nodes, rank), explicit);
    Slice(NodeCpus(rows, nodes[rank]), PeerBudgets(nodes, rows, explicit, rank).value, IndexIn(Peers(nodes, rank), rank))
  }

  function Shares(nodes: seq<nat>, rows: seq<Row>, explicit: Option<nat>): (shares: seq<seq<nat>>)
    requires Plannable(nodes, rows, explicit)
    ensures |shares| == |nodes|
  {
    seq(|nodes|, r requires 0 <= r < |nodes| => Share(nodes, rows, explicit, r))
  }

  lemma {:induction false} IncreasingSlice(cores: seq<nat>, lo: nat, hi: nat)
    requires Increasing(cores) && lo <= hi <= |cores|
    ensures Increasing(cores[lo..hi])
  {}

  /** Slices of one increasing list that do not overlap share no CPU. */
  lemma {:induction false} SlicesAreDisjoint(cores: seq<nat>, a: nat, b: nat, c: nat, d: nat)
    requires Increasing(cores) && a <= b <= c <= d <= |cores|
    ensures forall x | x in cores[a..b] :: x !in cores[c..d]
  {
    forall i, j | 0 <= i < b - a && 0 <= j < d - c ensures cores[a..b][i] < cores[c..d][j] {}
  }

  /** A share is increasing, has as many cores as threads, and lies on the rank's node. */
  lemma {:induction false} ShareIsItsBudget(nodes: seq<nat>, rows: seq<Row>, explicit: Option<nat>, rank: nat)
    requires rank < |nodes| && Plannable(nodes, rows, explicit) && DistinctCpus(rows)
    ensures var share := Share(nodes, rows, explicit, rank);
            && Increasing(share)
            && |share| == PeerBudgets(nodes, rows, explicit, rank).value[IndexIn(Peers(nodes, rank), rank)]
            && (explicit.None? || explicit.value >= 1 ==> share != [])
            && forall c | c in share :: c in NodeCpus(rows, nodes[rank])
  {
    var (cores, ranks) := (NodeCpus(rows, nodes[rank]), Peers(nodes, rank));
    var (budgets, i) := (PeerBudgets(nodes, rows, explicit, rank).value, IndexIn(ranks, rank));
    NodeCpusAreSorted(rows, nodes[rank]);
    BudgetsFit(|cores|, ranks, explicit);
    PositionsAscend(budgets, i + 1, |budgets|);
    IncreasingSlice(cores, Position(budgets, i), Position(budgets, i + 1));
  }

  /** No two ranks share a core. */
  lemma {:induction false} SharesAreDisjoint(nodes: seq<nat>, rows: seq<Row>, explicit: Option<nat>, r: nat, q: nat)
    requires r < |nodes| && q < |nodes| && r != q && Plannable(nodes, rows, explicit) && DistinctCpus(rows)
    ensures forall c | c in Share(nodes, rows, explicit, r) :: c !in Share(nodes, rows, explicit, q)
  {
    ShareIsItsBudget(nodes, rows, explicit, r);
    ShareIsItsBudget(nodes, rows, explicit, q);
    if nodes[r] != nodes[q] {
      NodesAreDisjoint(rows, nodes[r], nodes[q]);
    } else {
      NodeCpusAreSorted(rows, nodes[r]);
      BudgetsFit(|NodeCpus(rows, nodes[r])|, Peers(nodes, r), explicit);
      SlotsAreDisjoint(NodeCpus(rows, nodes[r]), PeerBudgets(nodes, rows, explicit, r).value,
                       IndexIn(Peers(nodes, r), r), IndexIn(Peers(nodes, q), q));
    }
  }

  lemma {:induction false} SlotsAreDisjoint(cores: seq<nat>, budgets: seq<nat>, i: nat, j: nat)
    requires Increasing(cores) && Fit(cores, budgets) && i < |budgets| && j < |budgets| && i != j
    ensures forall c | c in Slice(cores, budgets, i) :: c !in Slice(cores, budgets, j)
  {
    PositionsAscend(budgets, i + 1, |budgets|);
    PositionsAscend(budgets, j + 1, |budgets|);
    if i < j {
      PositionsAscend(budgets, i + 1, j);
      SlicesAreDisjoint(cores, Position(budgets, i), Position(budgets, i + 1), Position(budgets, j), Position(budgets, j + 1));
    } else {
      PositionsAscend(budgets, j + 1, i);
      SlicesAreDisjoint(cores, Position(budgets, j), Position(budgets, j + 1), Position(budgets, i), Position(budgets, i + 1));
    }
  }

  // ---- The shares in numbers ------------------------------------------------------------

  /** How many of the first `n` ranks have their GPU on the node. */
  function RanksOn(nodes: seq<nat>, node: nat, n: nat): nat
    requires n <= |nodes|
  {
    if n == 0 then 0 else RanksOn(nodes, node, n - 1) + if nodes[n - 1] == node then 1 else 0
  }

  /** How many of the rows belong to the node. */
  function RowsOn(rows: seq<Row>, node: nat): nat {
    if rows == [] then 0 else RowsOn(rows[..|rows| - 1], node) + if rows[|rows| - 1].node == node then 1 else 0
  }

  lemma {:induction false} RanksAreCounted(nodes: seq<nat>, n: nat, node: nat)
    requires n <= |nodes|
    ensures |NodeRanks(nodes, n, node)| == RanksOn(nodes, node, n)
  {
    if n > 0 { RanksAreCounted(nodes, n - 1, node); }
  }

  lemma {:induction false} InsertAddsOne(cpu: nat, cpus: seq<nat>)
    ensures |InsertCpu(cpu, cpus)| == |cpus| + 1
  {
    if cpus != [] && cpu > cpus[0] { InsertAddsOne(cpu, cpus[1..]); }
  }

  lemma {:induction false} RowsAreCounted(rows: seq<Row>, node: nat)
    ensures |NodeCpus(rows, node)| == RowsOn(rows, node)
  {
    if rows != [] {
      RowsAreCounted(rows[..|rows| - 1], node);
      InsertAddsOne(rows[|rows| - 1].cpu, NodeCpus(rows[..|rows| - 1], node));
    }
  }

  /** Can `n` ranks share `k` cores, rank 0 being among them or not? */
  predicate Enough(n: nat, k: nat, writer: bool, explicit: Option<nat>) {
    && k > 0
    && match explicit
       case Some(threads) => threads * n <= k
       case None => if writer && n > 1 then k >= 4 * (n - 1) + 4 else k >= n
  }

  /** How many of `k` cores one of `n` ranks gets. */
  predicate FairSize(size: nat, n: nat, k: nat, first: bool, writer: bool, explicit: Option<nat>) {
    match explicit
    case Some(threads) => size == threads
    case None =>
      if writer && n > 1 then size == if first then k - 4 * (n - 1) else 4
      else n * size <= k < n * (size + 1)
  }

  lemma {:induction false} Quotient(k: nat, n: nat)
    requires n > 0
    ensures n * (k / n) <= k < n * (k / n + 1) && (k / n < 1 <==> k < n)
  {
    assert k == n * (k / n) + k % n;
  }

  lemma {:induction false} BudgetsInNumbers(cores: nat, ranks: seq<nat>, explicit: Option<nat>)
    requires ranks != []
    ensures Budgets(cores, ranks, explicit).Some? <==> Enough(|ranks|, cores, 0 in ranks, explicit)
    ensures Budgets(cores, ranks, explicit).Some? ==>
              forall i | 0 <= i < |ranks| ::
                FairSize(Budgets(cores, ranks, explicit).value[i], |ranks|, cores, ranks[i] == 0, 0 in ranks, explicit)
  {
    Quotient(cores, |ranks|);
  }

  /** The numbers of a rank's node. */
  predicate EnoughFor(nodes: seq<nat>, rows: seq<Row>, explicit: Option<nat>, rank: nat)
    requires rank < |nodes|
  {
    Enough(RanksOn(nodes, nodes[rank], |nodes|), RowsOn(rows, nodes[rank]), nodes[rank] == nodes[0], explicit)
  }

  lemma {:induction false} PeersInNumbers(nodes: seq<nat>, rows: seq<Row>, explicit: Option<nat>, rank: nat)
    requires rank < |nodes|
    ensures PeerBudgets(nodes, rows, explicit, rank).Some? <==> EnoughFor(nodes, rows, explicit, rank)
    ensures PeerBudgets(nodes, rows, explicit, rank).Some? ==>
              FairSize(PeerBudgets(nodes, rows, explicit, rank).value[IndexIn(Peers(nodes, rank), rank)],
                       RanksOn(nodes, nodes[rank], |nodes|), RowsOn(rows, nodes[rank]), rank == 0, nodes[rank] == nodes[0], explicit)
  {
    BudgetsInNumbers(|NodeCpus(rows, nodes[rank])|, Peers(nodes, rank), explicit);
    RanksAreCounted(nodes, |nodes|, nodes[rank]);
    RowsAreCounted(rows, nodes[rank]);
  }

  /**
   * Planning succeeds if and only if every node that carries ranks has cores, and enough of
   * them: the requested threads of each rank, four for each where rank 0 is among several,
   * or one for each.
   */
  lemma {:induction false} PlannableInNumbers(nodes: seq<nat>, rows: seq<Row>, explicit: Option<nat>)
    ensures Plannable(nodes, rows, explicit) <==> forall r: nat | r < |nodes| :: EnoughFor(nodes, rows, explicit, r)
  {
    forall r: nat | r < |nodes|
      ensures PeerBudgets(nodes, rows, explicit, r).Some? <==> EnoughFor(nodes, rows, explicit, r)
    {
      PeersInNumbers(nodes, rows, explicit, r);
    }
  }

  /**
   * Of `n` ranks on a node with `k` cores each has the requested number; without a request
   * rank 0 leaves four cores to each other rank of its node and has the rest, and elsewhere
   * all shares are as large as an equal division allows.
   */
  lemma {:induction false} SharesInNumbers(nodes: seq<nat>, rows: seq<Row>, explicit: Option<nat>, rank: nat)
    requires rank < |nodes| && Plannable(nodes, rows, explicit)
    ensures FairSize(|Shares(nodes, rows, explicit)[rank]|, RanksOn(nodes, nodes[rank], |nodes|), RowsOn(rows, nodes[rank]),
                     rank == 0, nodes[rank] == nodes[0], explicit)
  {
    PeersInNumbers(nodes, rows, explicit, rank);
  }

  // ---- Which cores they are -------------------------------------------------------------

  /** Positions in an ascending list follow its elements. */
  lemma {:induction false} AscendingPositions(ranks: seq<nat>, i: nat, j: nat)
    requires Ascending(ranks) && i < |ranks| && j < |ranks|
    ensures (i < j <==> ranks[i] < ranks[j]) && (i == j <==> ranks[i] == ranks[j])
  {}

  /** Where the cores of a rank lie in its node's list. */
  function Slot(nodes: seq<nat>, rows: seq<Row>, explicit: Option<nat>, rank: nat): (slot: (nat, nat))
    requires rank < |nodes| && PeerBudgets(nodes, rows, explicit, rank).Some?
  {
    var (budgets, i) := (PeerBudgets(nodes, rows, explicit, rank).value, IndexIn(Peers(nodes, rank), rank));
    (Position(budgets, i), Position(budgets, i + 1))
  }

  lemma {:induction false} ShareIsSlot(nodes: seq<nat>, rows: seq<Row>, explicit: Option<nat>, rank: nat)
    requires rank < |nodes| && Plannable(nodes, rows, explicit)
    ensures var (cores, (lo, hi)) := (NodeCpus(rows, nodes[rank]), Slot(nodes, rows, explicit, rank));
            lo <= hi <= |cores| && Share(nodes, rows, explicit, rank) == cores[lo..hi]
  {
    var budgets := PeerBudgets(nodes, rows, explicit, rank).value;
    BudgetsFit(|NodeCpus(rows, nodes[rank])|, Peers(nodes, rank), explicit);
    PositionsAscend(budgets, IndexIn(Peers(nodes, rank), rank) + 1, |budgets|);
  }

  lemma {:induction false} SlotsAscend(nodes: seq<nat>, rows: seq<Row>, explicit: Option<nat>, r: nat, q: nat)
    requires r < q < |nodes| && nodes[r] == nodes[q] && Plannable(nodes, rows, explicit)
    ensures Slot(nodes, rows, explicit, r).1 <= Slot(nodes, rows, explicit, q).0
  {
    var (i, j) := (IndexIn(Peers(nodes, r), r), IndexIn(Peers(nodes, q), q));
    AscendingPositions(Peers(nodes, r), i, j);
    PositionsAscend(PeerBudgets(nodes, rows, explicit, r).value, i + 1, j);
  }

  /** Lower ranks of a node have its lower cores. */
  lemma {:induction false} SharesAscend(nodes: seq<nat>, rows: seq<Row>, explicit: Option<nat>, r: nat, q: nat)
    requires r < q < |nodes| && nodes[r] == nodes[q] && Plannable(nodes, rows, explicit) && DistinctCpus(rows)
    ensures forall c, d | c in Share(nodes, rows, explicit, r) && d in Share(nodes, rows, explicit, q) :: c < d
  {
    var ((a, b), (c, d)) := (Slot(nodes, rows, explicit, r), Slot(nodes, rows, explicit, q));
    NodeCpusAreSorted(rows, nodes[r]);
    ShareIsSlot(nodes, rows, explicit, r);
    ShareIsSlot(nodes, rows, explicit, q);
    SlotsAscend(nodes, rows, explicit, r, q);
    SliceIsBelow(NodeCpus(rows, nodes[r]), a, b, c, d);
  }

  lemma {:induction false} SliceIsBelow(cores: seq<nat>, a: nat, b: nat, c: nat, d: nat)
    requires Increasing(cores) && a <= b <= c <= d <= |cores|
    ensures forall x, y | x in cores[a..b] && y in cores[c..d] :: x < y
  {
    forall i, j | 0 <= i < b - a && 0 <= j < d - c ensures cores[a..b][i] < cores[c..d][j] {}
  }

  lemma {:induction false} SlotOf(budgets: seq<nat>, x: nat, n: nat) returns (slot: nat)
    requires n <= |budgets| && x < Position(budgets, n)
    ensures slot < n && Position(budgets, slot) <= x < Position(budgets, slot + 1)
  {
    if x >= Position(budgets, n - 1) { slot := n - 1; } else { slot := SlotOf(budgets, x, n - 1); }
  }

  /** Some rank of the node has the slot that a place below a given slot's end lies in. */
  lemma {:induction false} OwnerOf(nodes: seq<nat>, rows: seq<Row>, explicit: Option<nat>, rank: nat, x: nat) returns (owner: nat)
    requires rank < |nodes| && Plannable(nodes, rows, explicit) && x < Slot(nodes, rows, explicit, rank).1
    ensures owner < |nodes| && nodes[owner] == nodes[rank]
    ensures Slot(nodes, rows, explicit, owner).0 <= x < Slot(nodes, rows, explicit, owner).1
  {
    var ranks := Peers(nodes, rank);
    var slot := SlotOf(PeerBudgets(nodes, rows, explicit, rank).value, x, IndexIn(ranks, rank) + 1);
    owner := ranks[slot];
    AscendingPositions(ranks, slot, IndexIn(ranks, owner));
  }

  lemma {:induction false} PlaceInSlice(cores: seq<nat>, lo: nat, hi: nat, core: nat) returns (x: nat)
    requires lo <= hi <= |cores| && core in cores[lo..hi]
    ensures lo <= x < hi && cores[x] == core
  {
    var k: nat :| k < |cores[lo..hi]| && cores[lo..hi][k] == core;
    x := lo + k;
  }

  lemma {:induction false} SliceHas(cores: seq<nat>, lo: nat, hi: nat, x: nat)
    requires lo <= x < hi <= |cores|
    ensures cores[x] in cores[lo..hi]
  {
    assert cores[lo..hi][x - lo] == cores[x];
  }

  /** No core is passed over: one of the node's cores below a given one is given to a rank of the node. */
  lemma {:induction false} NoCoreIsPassedOver(nodes: seq<nat>, rows: seq<Row>, explicit: Option<nat>, rank: nat, core: nat, given: nat)
    returns (owner: nat)
    requires rank < |nodes| && Plannable(nodes, rows, explicit) && DistinctCpus(rows)
    requires core in NodeCpus(rows, nodes[rank]) && given in Share(nodes, rows, explicit, rank) && core <= given
    ensures owner < |nodes| && nodes[owner] == nodes[rank] && core in Share(nodes, rows, explicit, owner)
  {
    var (cores, (lo, hi)) := (NodeCpus(rows, nodes[rank]), Slot(nodes, rows, explicit, rank));
    NodeCpusAreSorted(rows, nodes[rank]);
    ShareIsSlot(nodes, rows, explicit, rank);
    var g := PlaceInSlice(cores, lo, hi, given);
    var x: nat :| x < |cores| && cores[x] == core;
    assert x <= g;
    owner := OwnerOf(nodes, rows, explicit, rank, x);
    ShareIsSlot(nodes, rows, explicit, owner);
    SliceHas(cores, Slot(nodes, rows, explicit, owner).0, Slot(nodes, rows, explicit, owner).1, x);
  }

  // ---- The planner ------------------------------------------------------------------

  predicate Sliced(cores: seq<nat>, budgets: seq<nat>, affinities: seq<seq<nat>>)
    requires Fit(cores, budgets)
  {
    |affinities| <= |budgets| && forall i | 0 <= i < |affinities| :: affinities[i] == Slice(cores, budgets, i)
  }

  /** The ranks of one node take their cores one after the other. */
  method SliceCores(cores: seq<nat>, budgets: seq<nat>) returns (affinities: seq<seq<nat>>)
    requires Fit(cores, budgets)
    ensures Sliced(cores, budgets, affinities) && |affinities| == |budgets|
  {
    affinities := [];
    var position := 0;
    for k := 0 to |budgets|
      invariant position == Position(budgets, k) && |affinities| == k && Sliced(cores, budgets, affinities)
    {
      PositionsAscend(budgets, k + 1, |budgets|);
      var threads := budgets[k];
      affinities := affinities + [cores[position..position + threads]];
      position := position + threads;
    }
  }

  function NodeSet(nodes: seq<nat>): set<nat> {
    if nodes == [] then {} else NodeSet(nodes[..|nodes| - 1]) + {nodes[|nodes| - 1]}
  }

  lemma {:induction false} NodeSetHas(nodes: seq<nat>, node: nat)
    ensures node in NodeSet(nodes) <==> exists r :: 0 <= r < |nodes| && nodes[r] == node
  {
    if nodes != [] {
      var front := nodes[..|nodes| - 1];
      NodeSetHas(front, node);
      if r :| 0 <= r < |front| && front[r] == node { assert nodes[r] == node; }
      if r :| 0 <= r < |nodes| && nodes[r] == node { assert r < |front| ==> front[r] == node; }
    }
  }

  /** Has the plan given every rank of these nodes its share? */
  ghost predicate PlannedFor(nodes: seq<nat>, rows: seq<Row>, explicit: Option<nat>, affinity: map<nat, seq<nat>>, done: set<nat>) {
    forall r: nat | r < |nodes| && nodes[r] in done :: HasShare(nodes, rows, explicit, affinity, r)
  }

  ghost predicate HasShare(nodes: seq<nat>, rows: seq<Row>, explicit: Option<nat>, affinity: map<nat, seq<nat>>, r: nat)
    requires r < |nodes|
  {
    var (cores, budgets) := (NodeCpus(rows, nodes[r]), PeerBudgets(nodes, rows, explicit, r));
    && budgets.Some? && Fit(cores, budgets.value)
    && r in affinity && affinity[r] == Slice(cores, budgets.value, IndexIn(Peers(nodes, r), r))
  }

  /** Cores of all nodes' ranks, node by node. */
  method PlanShares(nodes: seq<nat>, rows: seq<Row>, explicit: Option<nat>) returns (shares: Result<seq<seq<nat>>>)
    requires |nodes| > 0
    ensures shares.Ok? <==> Plannable(nodes, rows, explicit)
    ensures shares.Ok? ==> shares.value == Shares(nodes, rows, explicit)
  {
    var order := Sorted(NodeSet(nodes));
    var affinity: map<nat, seq<nat>> := map[];
    ghost var done: set<nat> := {};
    for k := 0 to |order|
      invariant PlannedFor(nodes, rows, explicit, affinity, done)
      invariant done == Members(order[..k])
    {
      assert order[..k + 1] == order[..k] + [order[k]];
      OneMoreMember(order[..k], order[k]);
      MembersAreElements(order, order[k]);
      NodeSetHas(nodes, order[k]);
      ghost var r: nat :| r < |nodes| && nodes[r] == order[k];
      var entered := PlanNode(nodes, rows, explicit, affinity, order[k], done, r);
      if entered.None? { return Err; }
      affinity := entered.value;
      done := done + {order[k]};
    }
    assert order[..|order|] == order;
    forall r: nat | r < |nodes| ensures HasShare(nodes, rows, explicit, affinity, r) { NodeSetHas(nodes, nodes[r]); }
    var result := InRankOrder(nodes, rows, explicit, affinity);
    return Ok(result);
  }

  /** The ranks of one node; `r` is any of them. */
  method PlanNode(nodes: seq<nat>, rows: seq<Row>, explicit: Option<nat>, affinity: map<nat, seq<nat>>, node: nat,
                  ghost done: set<nat>, ghost r: nat)
    returns (entered: Option<map<nat, seq<nat>>>)
    requires PlannedFor(nodes, rows, explicit, affinity, done) && r < |nodes| && nodes[r] == node
    ensures entered.Some? <==> PeerBudgets(nodes, rows, explicit, r).Some?
    ensures entered.Some? ==> PlannedFor(nodes, rows, explicit, entered.value, done + {node})
  {
    var budgets := Budgets(|NodeCpus(rows, node)|, NodeRanks(nodes, |nodes|, node), explicit);
    assert budgets == PeerBudgets(nodes, rows, explicit, r);
    if budgets.None? { return None; }
    var result := EnterNode(nodes, rows, explicit, affinity, node, budgets.value, done);
    return Some(result);
  }

  method InRankOrder(nodes: seq<nat>, rows: seq<Row>, explicit: Option<nat>, affinity: map<nat, seq<nat>>)
    returns (shares: seq<seq<nat>>)
    requires forall r: nat | r < |nodes| :: HasShare(nodes, rows, explicit, affinity, r)
    ensures Plannable(nodes, rows, explicit) && shares == Shares(nodes, rows, explicit)
  {
    shares := seq(|nodes|, r requires 0 <= r < |nodes| => if r in affinity then affinity[r] else []);
    forall r: nat | r < |nodes| ensures PeerBudgets(nodes, rows, explicit, r).Some? {
      assert HasShare(nodes, rows, explicit, affinity, r);
    }
    forall r | 0 <= r < |nodes| ensures shares[r] == Shares(nodes, rows, explicit)[r] {
      assert HasShare(nodes, rows, explicit, affinity, r);
    }
  }

  method EnterNode(nodes: seq<nat>, rows: seq<Row>, explicit: Option<nat>, affinity: map<nat, seq<nat>>, node: nat,
                   budgets: seq<nat>, ghost done: set<nat>)
    returns (entered: map<nat, seq<nat>>)
    requires PlannedFor(nodes, rows, explicit, affinity, done) && NodeRanks(nodes, |nodes|, node) != []
    requires Budgets(|NodeCpus(rows, node)|, NodeRanks(nodes, |nodes|, node), explicit) == Some(budgets)
    ensures PlannedFor(nodes, rows, explicit, entered, done + {node})
  {
    var (cores, ranks) := (NodeCpus(rows, node), NodeRanks(nodes, |nodes|, node));
    BudgetsFit(|cores|, ranks, explicit);
    var affinities := SliceCores(cores, budgets);
    entered := EnterRanks(affinity, ranks, affinities);
    forall r: nat | r < |nodes| && nodes[r] in done + {node} ensures HasShare(nodes, rows, explicit, entered, r) {
      if nodes[r] == node {
        assert Peers(nodes, r) == ranks && affinities[IndexIn(ranks, r)] == Slice(cores, budgets, IndexIn(ranks, r));
      } else {
        assert r !in ranks && HasShare(nodes, rows, explicit, affinity, r);
      }
    }
  }

  method EnterRanks(affinity: map<nat, seq<nat>>, ranks: seq<nat>, affinities: seq<seq<nat>>) returns (entered: map<nat, seq<nat>>)
    requires Ascending(ranks) && |affinities| == |ranks|
    ensures forall r | r in affinity && r !in ranks :: r in entered && entered[r] == affinity[r]
    ensures forall j | 0 <= j < |ranks| :: ranks[j] in entered && entered[ranks[j]] == affinities[j]
  {
    entered := affinity;
    for i := 0 to |ranks|
      invariant forall r | r in affinity && r !in ranks :: r in entered && entered[r] == affinity[r]
      invariant forall j | 0 <= j < i :: ranks[j] in entered && entered[ranks[j]] == affinities[j]
    {
      entered := entered[ranks[i] := affinities[i]];
    }
  }

  // ---- The printed plan ---------------------------------------------------------------

  datatype Plan = Plan(affinityMap: string, threadsMap: string, numaMap: string, localThreads: nat)

  function Sizes(lists: seq<seq<nat>>): (sizes: seq<nat>)
    ensures |sizes| == |lists|
  {
    seq(|lists|, r requires 0 <= r < |lists| => |lists[r]|)
  }

  function PrintPlan(nodes: seq<nat>, shares: seq<seq<nat>>, localRank: nat): Plan
    requires localRank < |shares|
  {
    Plan(MapText(CpuTexts(shares)), MapText(NumberTexts(Sizes(shares))), MapText(NumberTexts(nodes)), |shares[localRank]|)
  }

  /** The plan for the ranks whose GPUs sit on `nodes`; `explicit` is a requested thread count. */
  method PlanEnvironment(nodes: seq<nat>, lines: seq<string>, explicit: Option<nat>, localRank: int) returns (plan: Result<Plan>)
    requires explicit.Some? ==> explicit.value >= 1
    ensures plan.Ok? <==>
              && |nodes| >= 2 && FirstRows(lines) != [] && 0 <= localRank < |nodes|
              && Plannable(nodes, FirstRows(lines), explicit)
    ensures plan.Ok? ==> plan.value == PrintPlan(nodes, Shares(nodes, FirstRows(lines), explicit), localRank)
  {
    if |nodes| < 2 { return Err; }
    var rows := FirstRows(lines);
    if rows == [] { return Err; }
    var shares := PlanShares(nodes, rows, explicit);
    if shares.Err? || localRank < 0 || localRank >= |nodes| { return Err; }
    return Ok(PrintPlan(nodes, shares.value, localRank));
  }

  /**
   * A printed plan is accepted by its own parsers: the affinity map means the
   * planned shares, which are non-empty and pairwise disjoint, and every rank's
   * thread count is the size of its share.
   */
  lemma {:induction false} PlanIsReadBack(nodes: seq<nat>, rows: seq<Row>, explicit: Option<nat>, localRank: nat)
    requires |nodes| >= 2 && localRank < |nodes| && DistinctCpus(rows) && Plannable(nodes, rows, explicit)
    requires explicit.Some? ==> explicit.value >= 1
    ensures var shares := Shares(nodes, rows, explicit);
            var plan := PrintPlan(nodes, shares, localRank);
            && plan.localThreads == |shares[localRank]|
            && AffinityMap(plan.affinityMap, |nodes|) == Ok(FirstSets(MemberSets(shares), |nodes|))
            && RankIntMap(plan.threadsMap, |nodes|) == Ok(FirstNumbers(Sizes(shares), |nodes|))
            && RankIntMap(plan.numaMap, |nodes|) == Ok(FirstNumbers(nodes, |nodes|))
            && (forall r | 0 <= r < |nodes| :: shares[r] != [] && Increasing(shares[r]) && |Members(shares[r])| == |shares[r]|)
            && (forall r, q | 0 <= r < q < |nodes| :: Members(shares[r]) !! Members(shares[q]))
  {
    var shares := Shares(nodes, rows, explicit);
    forall r | 0 <= r < |nodes| ensures shares[r] != [] && Increasing(shares[r]) && |Members(shares[r])| == |shares[r]| {
      ShareIsItsBudget(nodes, rows, explicit, r);
      SizeOfMembers(shares[r]);
    }
    forall r, q | 0 <= r < q < |nodes| ensures Members(shares[r]) !! Members(shares[q]) {
      SharesAreDisjoint(nodes, rows, explicit, r, q);
      DisjointMembers(shares[r], shares[q]);
    }
    AffinityMapRoundTrip(shares);
    NumberMapRoundTrip(Sizes(shares));
    NumberMapRoundTrip(nodes);
  }

  lemma {:induction false} DisjointMembers(a: seq<nat>, b: seq<nat>)
    requires forall c | c in a :: c !in b
    ensures Members(a) !! Members(b)
  {
    forall c | c in Members(a) ensures c !in Members(b) {
      MembersAreElements(a, c);
      MembersAreElements(b, c);
    }
  }

  lemma {:induction false} SizeOfMembers(cpus: seq<nat>)
    requires Increasing(cpus)
    ensures |Members(cpus)| == |cpus|
  {
    if cpus != [] {
      var (front, last) := (cpus[..|cpus| - 1], cpus[|cpus| - 1]);
      assert cpus == front + [last];
      LastIsGreatest(front, last);
      SizeOfMembers(front);
    }
  }
}
