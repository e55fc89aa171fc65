/** `rank=item;...` maps: the printed text and the two parsers that read it. */
module CpuMaps {
  import opened Wrappers
  import opened PlainText
  import opened CpuSets
  import opened SortedLists

  // ---- Reading an affinity map -----------------------------------------------------

  /** The rank and the item text of an assignment `rank=item`. */
  function Assignment(text: string): Result<(nat, string)> {
    var pieces := Split(text, '=');
    if |pieces| != 2 || !IsDecimal(Strip(pieces[0])) then Err
    else Ok((ParseNat(Strip(pieces[0])), Strip(pieces[1])))
  }

  predicate Overlaps(known: map<nat, set<nat>>, cpus: set<nat>) {
    exists r, x :: r in known && x in known[r] && x in cpus
  }

  /** One assignment of an affinity map; blank ones are skipped. */
  function AddAffinity(known: map<nat, set<nat>>, text: string, worldSize: nat): Result<map<nat, set<nat>>> {
    if Strip(text) == [] then Ok(known)
    else
      var pair := Assignment(text);
      if pair.Err? then Err
      else
        var (rank, item) := pair.value;
        if rank in known || rank >= worldSize then Err
        else
          var cpus := CpuSet(item);
          if cpus.Err? || Overlaps(known, cpus.value) then Err
          else Ok(known[rank := cpus.value])
  }

  function AddAffinities(texts: seq<string>, worldSize: nat): Result<map<nat, set<nat>>> {
    if texts == [] then Ok(map[])
    else
      var before := AddAffinities(texts[..|texts| - 1], worldSize);
      if before.Err? then Err else AddAffinity(before.value, texts[|texts| - 1], worldSize)
  }

  /** What `parse_cpu_affinity_map` reads: disjoint sets for exactly the ranks below the world size. */
  function AffinityMap(value: string, worldSize: nat): Result<map<nat, set<nat>>> {
    if worldSize < 1 then Err
    else
      var all := AddAffinities(Split(value, ';'), worldSize);
      if all.Err? || exists r: nat :: r < worldSize && r !in all.value then Err else all
  }

  ghost predicate OwnCpus(m: map<nat, set<nat>>, worldSize: nat) {
    && (forall r | r in m :: r < worldSize)
    && (forall r, q | r in m && q in m && r != q :: m[r] !! m[q])
  }

  lemma {:induction false} OneMoreOwner(known: map<nat, set<nat>>, rank: nat, cpus: set<nat>, worldSize: nat)
    requires OwnCpus(known, worldSize) && rank !in known && rank < worldSize && !Overlaps(known, cpus)
    ensures OwnCpus(known[rank := cpus], worldSize)
  {
    var m := known[rank := cpus];
    forall r, x | r in known && x in known[r] ensures x !in cpus {}
    forall r, q | r in m && q in m && r != q ensures m[r] !! m[q] {}
  }

  lemma {:induction false} AddedIsDisjoint(known: map<nat, set<nat>>, text: string, worldSize: nat)
    requires OwnCpus(known, worldSize) && AddAffinity(known, text, worldSize).Ok?
    ensures OwnCpus(AddAffinity(known, text, worldSize).value, worldSize)
  {
    if Strip(text) != [] {
      var (rank, item) := Assignment(text).value;
      OneMoreOwner(known, rank, CpuSet(item).value, worldSize);
    }
  }

  /** Accepted maps give every rank its own CPUs. */
  lemma {:induction false} AcceptedAreDisjoint(texts: seq<string>, worldSize: nat)
    requires AddAffinities(texts, worldSize).Ok?
    ensures OwnCpus(AddAffinities(texts, worldSize).value, worldSize)
  {
    if texts != [] {
      AcceptedAreDisjoint(texts[..|texts| - 1], worldSize);
      AddedIsDisjoint(AddAffinities(texts[..|texts| - 1], worldSize).value, texts[|texts| - 1], worldSize);
    }
  }

  method ParseCpuAffinityMap(value: string, worldSize: nat) returns (parsed: Result<map<nat, seq<nat>>>)
    ensures parsed.Ok? <==> AffinityMap(value, worldSize).Ok?
    ensures parsed.Ok? ==> Denotes(parsed.value, AffinityMap(value, worldSize).value)
  {
    if worldSize < 1 { return Err; }
    var texts := Split(value, ';');
    var known: map<nat, seq<nat>> := map[];
    var owners: map<nat, nat> := map[];
    ghost var meant: map<nat, set<nat>> := map[];
    for k := 0 to |texts|
      invariant AddAffinities(texts[..k], worldSize) == Ok(meant) && Denotes(known, meant)
      invariant Owned(owners, meant)
    {
      assert texts[..k + 1][..k] == texts[..k];
      FailuresStay(texts, k + 1, worldSize);
      var ok;
      ok, known, owners, meant := ReadAssignment(known, owners, texts[k], worldSize, meant);
      if !ok { return Err; }
    }
    assert texts[..|texts|] == texts;
    var complete := EveryRankListed(known, worldSize);
    return if complete then Ok(known) else Err;
  }

  method EveryRankListed(known: map<nat, seq<nat>>, worldSize: nat) returns (complete: bool)
    ensures complete <==> forall r: nat | r < worldSize :: r in known
  {
    for r := 0 to worldSize
      invariant forall q: nat | q < r :: q in known
    {
      if r !in known { return false; }
    }
    return true;
  }

  method ReadAssignment(known: map<nat, seq<nat>>, owners: map<nat, nat>, text: string, worldSize: nat, ghost meant: map<nat, set<nat>>)
    returns (ok: bool, nowKnown: map<nat, seq<nat>>, nowOwners: map<nat, nat>, ghost nowMeant: map<nat, set<nat>>)
    requires Denotes(known, meant) && Owned(owners, meant)
    ensures ok <==> AddAffinity(meant, text, worldSize).Ok?
    ensures ok ==> AddAffinity(meant, text, worldSize) == Ok(nowMeant) && Denotes(nowKnown, nowMeant) && Owned(nowOwners, nowMeant)
  {
    nowKnown, nowOwners, nowMeant := known, owners, meant;
    if Strip(text) == [] { return true, known, owners, meant; }
    var pieces := Split(text, '=');
    if |pieces| != 2 || !IsDecimal(Strip(pieces[0])) { return false, known, owners, meant; }
    var rank := ParseNat(Strip(pieces[0]));
    if rank in known || rank >= worldSize { return false, known, owners, meant; }
    var cpus := ParseCpuSet(Strip(pieces[1]));
    if cpus.Err? { return false, known, owners, meant; }
    ok, nowOwners := TakeCpus(owners, cpus.value, rank, meant);
    nowMeant := meant[rank := Members(cpus.value)];
    nowKnown := known[rank := cpus.value];
  }

  /** The ascending lists stand for the sets. */
  ghost predicate Denotes(known: map<nat, seq<nat>>, meant: map<nat, set<nat>>) {
    && known.Keys == meant.Keys
    && forall r | r in known :: Increasing(known[r]) && Members(known[r]) == meant[r]
  }

  ghost predicate Owned(owners: map<nat, nat>, meant: map<nat, set<nat>>) {
    forall c :: c in owners <==> exists r :: r in meant && c in meant[r]
  }

  /** Enter a rank's CPUs as its own, unless one is taken. */
  method TakeCpus(owners: map<nat, nat>, cpus: seq<nat>, rank: nat, ghost meant: map<nat, set<nat>>)
    returns (free: bool, taken: map<nat, nat>)
    requires Owned(owners, meant) && Increasing(cpus) && rank !in meant
    ensures free <==> !Overlaps(meant, Members(cpus))
    ensures free ==> Owned(taken, meant[rank := Members(cpus)])
  {
    taken := owners;
    for k := 0 to |cpus|
      invariant forall c :: c in taken <==> c in owners || c in cpus[..k]
      invariant forall i | 0 <= i < k :: cpus[i] !in owners
    {
      if cpus[k] in taken {
        assert cpus[k] !in cpus[..k];
        ghost var r :| r in meant && cpus[k] in meant[r];
        MembersAreElements(cpus, cpus[k]);
        assert r in meant && cpus[k] in meant[r] && cpus[k] in Members(cpus);
        return false, taken;
      }
      taken := taken[cpus[k] := rank];
    }
    assert cpus[..|cpus|] == cpus;
    forall c ensures c in Members(cpus) <==> c in cpus { MembersAreElements(cpus, c); }
    NoneTaken(owners, cpus, meant);
    OwnedByRank(owners, taken, cpus, rank, meant);
    return true, taken;
  }

  lemma {:induction false} NoneTaken(owners: map<nat, nat>, cpus: seq<nat>, meant: map<nat, set<nat>>)
    requires Owned(owners, meant)
    requires forall c :: c in Members(cpus) <==> c in cpus
    requires forall i | 0 <= i < |cpus| :: cpus[i] !in owners
    ensures !Overlaps(meant, Members(cpus))
  {
    forall r, c | r in meant && c in meant[r] ensures c !in Members(cpus) {
      assert c in owners;
    }
  }

  lemma {:induction false} OwnedByRank(owners: map<nat, nat>, taken: map<nat, nat>, cpus: seq<nat>, rank: nat, meant: map<nat, set<nat>>)
    requires Owned(owners, meant) && rank !in meant
    requires forall c :: c in Members(cpus) <==> c in cpus
    requires forall c :: c in taken <==> c in owners || c in cpus
    ensures Owned(taken, meant[rank := Members(cpus)])
  {
    var after := meant[rank := Members(cpus)];
    forall c ensures c in taken <==> exists r :: r in after && c in after[r] {
      if c in owners {
        var r :| r in meant && c in meant[r];
        assert r in after && c in after[r];
      }
      if c in cpus { assert rank in after && c in after[rank]; }
      if r :| r in after && c in after[r] {
        assert r != rank ==> r in meant && c in meant[r];
      }
    }
  }

  lemma {:induction false} FailuresStay(texts: seq<string>, k: nat, worldSize: nat)
    requires k <= |texts|
    ensures AddAffinities(texts[..k], worldSize).Err? ==> AddAffinities(texts, worldSize).Err?
    decreases |texts| - k
  {
    if k == |texts| {
      assert texts[..k] == texts;
    } else {
      assert texts[..k + 1][..k] == texts[..k];
      FailuresStay(texts, k + 1, worldSize);
    }
  }

  // ---- Reading a map of numbers -----------------------------------------------------

  function AddNumber(known: map<nat, nat>, text: string, worldSize: nat): Result<map<nat, nat>> {
    var pair := Assignment(text);
    if pair.Err? || !IsDecimal(pair.value.1) then Err
    else
      var (rank, item) := (pair.value.0, ParseNat(pair.value.1));
      if rank >= worldSize || rank in known then Err else Ok(known[rank := item])
  }

  function AddNumbers(texts: seq<string>, worldSize: nat): Result<map<nat, nat>> {
    if texts == [] then Ok(map[])
    else
      var before := AddNumbers(texts[..|texts| - 1], worldSize);
      if before.Err? then Err else AddNumber(before.value, texts[|texts| - 1], worldSize)
  }

  /** `_parse_rank_int_map`; a blank text is an empty map. */
  function RankIntMap(value: string, worldSize: nat): Result<map<nat, nat>> {
    if Strip(value) == [] then Ok(map[]) else AddNumbers(Split(value, ';'), worldSize)
  }

  // ---- What is accepted -------------------------------------------------------------

  /** `rank=item`, with spaces around both. */
  predicate IsAssignment(text: string, rank: nat, item: string, left: string, right: string) {
    && text == left + ['='] + right && '=' !in left && '=' !in right
    && IsDecimal(Strip(left)) && rank == ParseNat(Strip(left)) && item == Strip(right)
  }

  lemma {:induction false} AssignmentGrammar(text: string, rank: nat, item: string)
    ensures Assignment(text) == Ok((rank, item)) <==> exists left, right :: IsAssignment(text, rank, item, left, right)
  {
    if Assignment(text) == Ok((rank, item)) {
      var pieces := Split(text, '=');
      JoinOfSplit(text, '=');
      assert Join(pieces[1..], '=') == pieces[1];
      assert IsAssignment(text, rank, item, pieces[0], pieces[1]);
    }
    if left, right :| IsAssignment(text, rank, item, left, right) {
      SplitFirst(left, right, '=');
      SplitWithoutSeparator(right, '=');
    }
  }

  /** What one item of a map is. */
  datatype Item<T> = Blank | Bad | Good(rank: nat, value: T)

  function NumberItem(text: string): Item<nat> {
    var pair := Assignment(text);
    if pair.Err? || !IsDecimal(pair.value.1) then Bad else Good(pair.value.0, ParseNat(pair.value.1))
  }

  function CpuItem(text: string): Item<set<nat>> {
    if Strip(text) == [] then Blank
    else
      var pair := Assignment(text);
      if pair.Err? || CpuSet(pair.value.1).Err? then Bad else Good(pair.value.0, CpuSet(pair.value.1).value)
  }

  function NumberItems(texts: seq<string>): (items: seq<Item<nat>>)
    ensures |items| == |texts|
  {
    seq(|texts|, k requires 0 <= k < |texts| => NumberItem(texts[k]))
  }

  function CpuItems(texts: seq<string>): (items: seq<Item<set<nat>>>)
    ensures |items| == |texts|
  {
    seq(|texts|, k requires 0 <= k < |texts| => CpuItem(texts[k]))
  }

  /** No bad items, and the others name different ranks below the world size. */
  predicate AllGood<T>(items: seq<Item<T>>, worldSize: nat) {
    && (forall k | 0 <= k < |items| :: !items[k].Bad? && (items[k].Good? ==> items[k].rank < worldSize))
    && forall j, k | 0 <= j < k < |items| && items[j].Good? && items[k].Good? :: items[j].rank != items[k].rank
  }

  /** The map holds what the items say, and nothing else. */
  predicate Holds<T(==)>(items: seq<Item<T>>, m: map<nat, T>) {
    && (forall k | 0 <= k < |items| && items[k].Good? :: items[k].rank in m && m[items[k].rank] == items[k].value)
    && forall r | r in m :: Good(r, m[r]) in items
  }

  /** No CPU in two items. */
  predicate NoneShared(items: seq<Item<set<nat>>>) {
    forall j, k | 0 <= j < k < |items| && items[j].Good? && items[k].Good? :: items[j].value !! items[k].value
  }

  lemma {:induction false} OneMoreItem<T>(items: seq<Item<T>>, m: map<nat, T>, item: Item<T>, worldSize: nat)
    requires AllGood(items, worldSize) && Holds(items, m) && item.Good?
    ensures AllGood(items + [item], worldSize) <==> item.rank !in m && item.rank < worldSize
    ensures item.rank !in m ==> Holds(items + [item], m[item.rank := item.value])
  {
    var all := items + [item];
    assert all[|items|] == item && forall k | 0 <= k < |items| :: all[k] == items[k];
    if item.rank in m {
      var k :| 0 <= k < |items| && items[k] == Good(item.rank, m[item.rank]);
      assert all[k].rank == all[|items|].rank;
    }
  }

  lemma {:induction false} OneMoreBlank<T>(items: seq<Item<T>>, m: map<nat, T>, worldSize: nat)
    requires AllGood(items, worldSize) && Holds(items, m)
    ensures AllGood(items + [Blank], worldSize) && Holds(items + [Blank], m)
  {}

  lemma {:induction false} WorseStays<T>(items: seq<Item<T>>, item: Item<T>, worldSize: nat)
    requires !AllGood(items, worldSize) || item.Bad?
    ensures !AllGood(items + [item], worldSize)
  {
    var all := items + [item];
    assert all[|items|] == item && forall k | 0 <= k < |items| :: all[k] == items[k];
  }

  lemma {:induction false} SharedOrFree(items: seq<Item<set<nat>>>, m: map<nat, set<nat>>, item: Item<set<nat>>)
    requires Holds(items, m) && NoneShared(items)
    ensures NoneShared(items + [item]) <==> (item.Good? ==> !Overlaps(m, item.value))
  {
    var all := items + [item];
    assert all[|items|] == item && forall k | 0 <= k < |items| :: all[k] == items[k];
    if item.Good? {
      if r, x :| r in m && x in m[r] && x in item.value {
        var k :| 0 <= k < |items| && items[k] == Good(r, m[r]);
        assert all[k].Good? && all[|items|].Good? && x in all[k].value && x in all[|items|].value;
      }
      if !Overlaps(m, item.value) {
        forall k | 0 <= k < |items| && items[k].Good? ensures items[k].value !! item.value {
          forall x | x in m[items[k].rank] ensures x !in item.value {}
        }
      }
    }
  }

  lemma {:induction false} SharedStays(items: seq<Item<set<nat>>>, item: Item<set<nat>>)
    requires !NoneShared(items)
    ensures !NoneShared(items + [item])
  {
    var all := items + [item];
    assert forall k | 0 <= k < |items| :: all[k] == items[k];
  }

  /** A map of numbers is accepted if and only if its items number different ranks below the world size, and says what they say. */
  lemma {:induction false} NumbersAreAccepted(texts: seq<string>, worldSize: nat)
    ensures AddNumbers(texts, worldSize).Ok? <==> AllGood(NumberItems(texts), worldSize)
    ensures AddNumbers(texts, worldSize).Ok? ==> Holds(NumberItems(texts), AddNumbers(texts, worldSize).value)
  {
    if texts != [] {
      var (front, last) := (texts[..|texts| - 1], texts[|texts| - 1]);
      assert NumberItems(texts) == NumberItems(front) + [NumberItem(last)];
      NumbersAreAccepted(front, worldSize);
      var before := AddNumbers(front, worldSize);
      if before.Err? || NumberItem(last).Bad? {
        WorseStays(NumberItems(front), NumberItem(last), worldSize);
      } else {
        OneMoreItem(NumberItems(front), before.value, NumberItem(last), worldSize);
      }
    }
  }

  /** What an item does to the map so far. */
  lemma {:induction false} CpuItemIsAdded(known: map<nat, set<nat>>, text: string, worldSize: nat)
    ensures AddAffinity(known, text, worldSize)
         == match CpuItem(text)
            case Blank => Ok(known)
            case Bad => Err
            case Good(rank, cpus) => if rank in known || rank >= worldSize || Overlaps(known, cpus) then Err else Ok(known[rank := cpus])
  {}

  lemma {:induction false} OneMoreCpuItem(items: seq<Item<set<nat>>>, known: map<nat, set<nat>>, text: string, worldSize: nat)
    requires AllGood(items, worldSize) && NoneShared(items) && Holds(items, known)
    ensures var (all, added) := (items + [CpuItem(text)], AddAffinity(known, text, worldSize));
            && (added.Ok? <==> AllGood(all, worldSize) && NoneShared(all))
            && (added.Ok? ==> Holds(all, added.value))
  {
    var item := CpuItem(text);
    CpuItemIsAdded(known, text, worldSize);
    SharedOrFree(items, known, item);
    match item {
      case Blank => OneMoreBlank(items, known, worldSize);
      case Bad => WorseStays(items, item, worldSize);
      case Good(_, _) => OneMoreItem(items, known, item, worldSize);
    }
  }

  /** Affinities are accepted if and only if they give different ranks CPUs of their own, and mean the sets they say. */
  lemma {:induction false} AffinitiesAreAccepted(texts: seq<string>, worldSize: nat)
    ensures AddAffinities(texts, worldSize).Ok? <==> AllGood(CpuItems(texts), worldSize) && NoneShared(CpuItems(texts))
    ensures AddAffinities(texts, worldSize).Ok? ==> Holds(CpuItems(texts), AddAffinities(texts, worldSize).value)
  {
    if texts != [] {
      var (front, last) := (texts[..|texts| - 1], texts[|texts| - 1]);
      assert CpuItems(texts) == CpuItems(front) + [CpuItem(last)];
      AffinitiesAreAccepted(front, worldSize);
      if AddAffinities(front, worldSize).Ok? {
        OneMoreCpuItem(CpuItems(front), AddAffinities(front, worldSize).value, last, worldSize);
      } else if AllGood(CpuItems(front), worldSize) {
        SharedStays(CpuItems(front), CpuItem(last));
      } else {
        WorseStays(CpuItems(front), CpuItem(last), worldSize);
      }
    }
  }

  // ---- Printing -----------------------------------------------------------------------

  function Entry(rank: nat, item: string): string {
    PrintNat(rank) + ['='] + item
  }

  function Entries(items: seq<string>): (texts: seq<string>)
    ensures |texts| == |items|
  {
    seq(|items|, r requires 0 <= r < |items| => Entry(r, items[r]))
  }

  /** The text of a map from ranks to items. */
  function MapText(items: seq<string>): string {
    Join(Entries(items), ';')
  }

  /** An item that stays whole between separators. */
  predicate Plain(item: string) {
    Tight(item) && '=' !in item && ';' !in item
  }

  lemma {:induction false} ReadEntry(rank: nat, item: string)
    requires Plain(item)
    ensures Assignment(Entry(rank, item)) == Ok((rank, item))
    ensures Tight(Entry(rank, item)) && ';' !in Entry(rank, item) && Strip(Entry(rank, item)) != []
  {
    ParseOfPrint(rank);
    DecimalIsTight(PrintNat(rank));
    SplitFirst(PrintNat(rank), item, '=');
    SplitWithoutSeparator(item, '=');
    StripTight(PrintNat(rank));
    StripTight(item);
    StripTight(Entry(rank, item));
  }

  lemma {:induction false} SplitMapText(items: seq<string>)
    requires items != [] && forall r | 0 <= r < |items| :: Plain(items[r])
    ensures Split(MapText(items), ';') == Entries(items) && Tight(MapText(items))
  {
    forall r | 0 <= r < |items| ensures ';' !in Entries(items)[r] && Tight(Entries(items)[r]) { ReadEntry(r, items[r]); }
    SplitOfJoin(Entries(items), ';');
    JoinTight(Entries(items), ';');
  }

  function FirstSets(sets: seq<set<nat>>, n: nat): (m: map<nat, set<nat>>)
    requires n <= |sets|
    ensures forall r: nat :: r in m <==> r < n
    ensures forall r | r in m :: m[r] == sets[r]
  {
    if n == 0 then map[] else FirstSets(sets, n - 1)[n - 1 := sets[n - 1]]
  }

  function FirstNumbers(numbers: seq<nat>, n: nat): (m: map<nat, nat>)
    requires n <= |numbers|
    ensures forall r: nat :: r in m <==> r < n
    ensures forall r | r in m :: m[r] == numbers[r]
  {
    if n == 0 then map[] else FirstNumbers(numbers, n - 1)[n - 1 := numbers[n - 1]]
  }

  predicate PairwiseDisjoint(sets: seq<set<nat>>) {
    forall i, j | 0 <= i < j < |sets| :: sets[i] !! sets[j]
  }

  lemma {:induction false} NextIsFree(sets: seq<set<nat>>, n: nat)
    requires n < |sets| && PairwiseDisjoint(sets)
    ensures !Overlaps(FirstSets(sets, n), sets[n])
  {
    var before := FirstSets(sets, n);
    forall r, x | r in before && x in before[r] ensures x !in sets[n] { assert sets[r] !! sets[n]; }
  }

  lemma {:induction false} ReadAffinity(known: map<nat, set<nat>>, rank: nat, item: string, cpus: set<nat>, worldSize: nat)
    requires rank !in known && rank < worldSize && Plain(item) && CpuSet(item) == Ok(cpus) && !Overlaps(known, cpus)
    ensures AddAffinity(known, Entry(rank, item), worldSize) == Ok(known[rank := cpus])
  {
    ReadEntry(rank, item);
  }

  lemma {:induction false} NextAffinity(items: seq<string>, sets: seq<set<nat>>, n: nat, worldSize: nat)
    requires n < |items| == |sets| <= worldSize && PairwiseDisjoint(sets)
    requires Plain(items[n]) && CpuSet(items[n]) == Ok(sets[n])
    ensures AddAffinity(FirstSets(sets, n), Entry(n, items[n]), worldSize) == Ok(FirstSets(sets, n + 1))
  {
    NextIsFree(sets, n);
    ReadAffinity(FirstSets(sets, n), n, items[n], sets[n], worldSize);
  }

  lemma {:induction false} ReadAffinities(items: seq<string>, sets: seq<set<nat>>, n: nat, worldSize: nat)
    requires n <= |items| == |sets| <= worldSize && PairwiseDisjoint(sets)
    requires forall r | 0 <= r < |items| :: Plain(items[r]) && CpuSet(items[r]) == Ok(sets[r])
    ensures AddAffinities(Entries(items)[..n], worldSize) == Ok(FirstSets(sets, n))
  {
    if n > 0 {
      ReadAffinities(items, sets, n - 1, worldSize);
      NextAffinity(items, sets, n - 1, worldSize);
      OneMoreAffinity(Entries(items), n - 1, FirstSets(sets, n - 1), worldSize);
    }
  }

  /** A text whose assignments list every rank is an affinity map. */
  lemma {:induction false} WholeAffinityMap(value: string, texts: seq<string>, all: map<nat, set<nat>>, worldSize: nat)
    requires worldSize >= 1 && Split(value, ';') == texts && AddAffinities(texts, worldSize) == Ok(all)
    requires forall r: nat | r < worldSize :: r in all
    ensures AffinityMap(value, worldSize) == Ok(all)
  {}

  lemma {:induction false} OneMoreAffinity(texts: seq<string>, k: nat, known: map<nat, set<nat>>, worldSize: nat)
    requires k < |texts| && AddAffinities(texts[..k], worldSize) == Ok(known)
    ensures AddAffinities(texts[..k + 1], worldSize) == AddAffinity(known, texts[k], worldSize)
  {
    OneMoreText(texts, k);
  }

  lemma {:induction false} OneMoreText(texts: seq<string>, k: nat)
    requires k < |texts|
    ensures texts[..k + 1] != [] && texts[..k + 1][..|texts[..k + 1]| - 1] == texts[..k] && texts[..k + 1][|texts[..k + 1]| - 1] == texts[k]
  {}

  lemma {:induction false} ReadNumbers(items: seq<string>, numbers: seq<nat>, n: nat, worldSize: nat)
    requires n <= |items| == |numbers| <= worldSize
    requires forall r | 0 <= r < |items| :: items[r] == PrintNat(numbers[r])
    ensures AddNumbers(Entries(items)[..n], worldSize) == Ok(FirstNumbers(numbers, n))
  {
    if n > 0 {
      ReadNumbers(items, numbers, n - 1, worldSize);
      NumberIsPlain(numbers[n - 1]);
      ReadEntry(n - 1, items[n - 1]);
      assert Entries(items)[..n][..n - 1] == Entries(items)[..n - 1];
    }
  }

  lemma {:induction false} NumberIsPlain(n: nat)
    ensures Plain(PrintNat(n)) && IsDecimal(PrintNat(n)) && ParseNat(PrintNat(n)) == n
  {
    ParseOfPrint(n);
    DecimalIsTight(PrintNat(n));
  }

  function CpuTexts(lists: seq<seq<nat>>): (texts: seq<string>)
    ensures |texts| == |lists|
  {
    seq(|lists|, r requires 0 <= r < |lists| => CpuText(lists[r]))
  }

  function MemberSets(lists: seq<seq<nat>>): (sets: seq<set<nat>>)
    ensures |sets| == |lists|
  {
    seq(|lists|, r requires 0 <= r < |lists| => Members(lists[r]))
  }

  function NumberTexts(numbers: seq<nat>): (texts: seq<string>)
    ensures |texts| == |numbers|
  {
    seq(|numbers|, r requires 0 <= r < |numbers| => PrintNat(numbers[r]))
  }

  lemma {:induction false} ReadAffinityMap(items: seq<string>, sets: seq<set<nat>>)
    requires items != [] && |items| == |sets| && PairwiseDisjoint(sets)
    requires forall r | 0 <= r < |items| :: Plain(items[r]) && CpuSet(items[r]) == Ok(sets[r])
    ensures AffinityMap(MapText(items), |items|) == Ok(FirstSets(sets, |items|))
  {
    SplitMapText(items);
    ReadAffinities(items, sets, |items|, |items|);
    assert Entries(items)[..|items|] == Entries(items);
    WholeAffinityMap(MapText(items), Entries(items), FirstSets(sets, |items|), |items|);
  }

  /** A printed affinity map is accepted and means the printed lists. */
  lemma {:induction false} AffinityMapRoundTrip(lists: seq<seq<nat>>)
    requires lists != [] && PairwiseDisjoint(MemberSets(lists))
    requires forall r | 0 <= r < |lists| :: lists[r] != [] && Increasing(lists[r])
    ensures AffinityMap(MapText(CpuTexts(lists)), |lists|) == Ok(FirstSets(MemberSets(lists), |lists|))
  {
    forall r | 0 <= r < |lists| ensures Plain(CpuTexts(lists)[r]) && CpuSet(CpuTexts(lists)[r]) == Ok(MemberSets(lists)[r]) {
      PrintedText(lists[r]);
      ReadOfPrint(lists[r]);
    }
    ReadAffinityMap(CpuTexts(lists), MemberSets(lists));
  }

  /** So is a printed map of numbers. */
  lemma {:induction false} NumberMapRoundTrip(numbers: seq<nat>)
    requires numbers != []
    ensures RankIntMap(MapText(NumberTexts(numbers)), |numbers|) == Ok(FirstNumbers(numbers, |numbers|))
  {
    var items := NumberTexts(numbers);
    forall r | 0 <= r < |numbers| ensures Plain(items[r]) { NumberIsPlain(numbers[r]); }
    SplitMapText(items);
    StripTight(MapText(items));
    ReadNumbers(items, numbers, |numbers|, |numbers|);
    assert Entries(items)[..|numbers|] == Entries(items);
  }
}
