/** CPU lists as text: `_compress_cpu_set` prints them, `_parse_cpu_set` reads them. */
module CpuSets {
  import opened Wrappers
  import opened PlainText
  import opened SortedLists

  // ---- Runs -----------------------------------------------------------------------

  datatype Run = Run(first: nat, last: nat)

  /** Consecutive numbers gathered into runs, left to right. */
  function Runs(cpus: seq<nat>): (runs: seq<Run>)
    ensures cpus != [] ==> runs != [] && runs[|runs| - 1].last == cpus[|cpus| - 1]
  {
    if cpus == [] then [] else Extend(Runs(cpus[..|cpus| - 1]), cpus[|cpus| - 1])
  }

  /** `set(range(first, end))`. */
  function Range(first: nat, end: nat): (s: set<nat>)
    ensures forall x: nat :: x in s <==> first <= x < end
  {
    if end <= first then {} else Range(first, end - 1) + {end - 1}
  }

  function RunMembers(r: Run): set<nat> {
    Range(r.first, r.last + 1)
  }

  function RunsMembers(runs: seq<Run>): set<nat> {
    if runs == [] then {} else RunsMembers(runs[..|runs| - 1]) + RunMembers(runs[|runs| - 1])
  }

  lemma {:induction false} RunGrows(r: Run)
    requires r.first <= r.last
    ensures RunMembers(Run(r.first, r.last + 1)) == RunMembers(r) + {r.last + 1}
  {}

  lemma {:induction false} LastRunGrows(before: seq<Run>, last: Run, grown: Run, cpu: nat)
    requires RunMembers(grown) == RunMembers(last) + {cpu}
    ensures RunsMembers(before + [grown]) == RunsMembers(before + [last]) + {cpu}
  {
    assert (before + [grown])[..|before|] == before == (before + [last])[..|before|];
  }

  lemma {:induction false} OneMoreRun(before: seq<Run>, cpu: nat)
    ensures RunsMembers(before + [Run(cpu, cpu)]) == RunsMembers(before) + {cpu}
  {
    assert (before + [Run(cpu, cpu)])[..|before|] == before;
    assert RunMembers(Run(cpu, cpu)) == {cpu};
  }

  lemma {:induction false} RunsAscend(cpus: seq<nat>)
    ensures forall i | 0 <= i < |Runs(cpus)| :: Runs(cpus)[i].first <= Runs(cpus)[i].last
  {
    if cpus != [] { RunsAscend(cpus[..|cpus| - 1]); }
  }

  /** One more CPU extends the last run or opens a new one. */
  function Extend(before: seq<Run>, cpu: nat): (runs: seq<Run>)
    ensures runs != [] && runs[|runs| - 1].last == cpu
  {
    if before != [] && cpu == before[|before| - 1].last + 1
    then before[..|before| - 1] + [Run(before[|before| - 1].first, cpu)]
    else before + [Run(cpu, cpu)]
  }

  lemma {:induction false} ExtendCovers(before: seq<Run>, cpu: nat)
    requires forall i | 0 <= i < |before| :: before[i].first <= before[i].last
    ensures RunsMembers(Extend(before, cpu)) == RunsMembers(before) + {cpu}
  {
    if before != [] && cpu == before[|before| - 1].last + 1 {
      var (rest, last) := (before[..|before| - 1], before[|before| - 1]);
      RunGrows(last);
      LastRunGrows(rest, last, Run(last.first, cpu), cpu);
      assert before == rest + [last];
    } else {
      OneMoreRun(before, cpu);
    }
  }

  lemma {:induction false} RunsCover(cpus: seq<nat>)
    ensures RunsMembers(Runs(cpus)) == Members(cpus)
  {
    if cpus != [] {
      RunsCover(cpus[..|cpus| - 1]);
      RunsAscend(cpus[..|cpus| - 1]);
      ExtendCovers(Runs(cpus[..|cpus| - 1]), cpus[|cpus| - 1]);
    }
  }

  function PrintRun(r: Run): string {
    if r.first == r.last then PrintNat(r.first) else PrintNat(r.first) + ['-'] + PrintNat(r.last)
  }

  function PrintRuns(runs: seq<Run>): (texts: seq<string>)
    ensures |texts| == |runs|
  {
    seq(|runs|, i requires 0 <= i < |runs| => PrintRun(runs[i]))
  }

  function CpuText(cpus: seq<nat>): string {
    Join(PrintRuns(Runs(cpus)), ',')
  }

  lemma {:induction false} RunsOfPrefix(cpus: seq<nat>, k: nat)
    requires k < |cpus|
    ensures Runs(cpus[..k + 1]) == Extend(Runs(cpus[..k]), cpus[k])
  {
    assert cpus[..k + 1][..k] == cpus[..k];
  }

  lemma {:induction false} ExtendLast(closed: seq<Run>, last: Run, cpu: nat)
    ensures Extend(closed + [last], cpu)
         == if cpu == last.last + 1 then closed + [Run(last.first, cpu)] else closed + [last] + [Run(cpu, cpu)]
  {
    assert (closed + [last])[..|closed|] == closed;
  }

  lemma {:induction false} OneMorePrinted(runs: seq<Run>, last: Run)
    ensures PrintRuns(runs + [last]) == PrintRuns(runs) + [PrintRun(last)]
  {}

  method CompressCpuSet(cpus: seq<nat>) returns (text: Result<string>)
    ensures text == if cpus == [] then Err else Ok(CpuText(cpus))
  {
    if cpus == [] { return Err; }
    var segments := [];
    var start, previous := cpus[0], cpus[0];
    ghost var closed: seq<Run> := [];
    RunsOfPrefix(cpus, 0);
    for k := 1 to |cpus|
      invariant Runs(cpus[..k]) == closed + [Run(start, previous)]
      invariant segments == PrintRuns(closed)
    {
      RunsOfPrefix(cpus, k);
      ExtendLast(closed, Run(start, previous), cpus[k]);
      var current := cpus[k];
      if current == previous + 1 {
        previous := current;
      } else {
        segments := segments + [if start == previous then PrintNat(start) else PrintNat(start) + ['-'] + PrintNat(previous)];
        OneMorePrinted(closed, Run(start, previous));
        closed := closed + [Run(start, previous)];
        start, previous := current, current;
      }
    }
    assert cpus[..|cpus|] == cpus;
    segments := segments + [if start == previous then PrintNat(start) else PrintNat(start) + ['-'] + PrintNat(previous)];
    OneMorePrinted(closed, Run(start, previous));
    return Ok(Join(segments, ','));
  }

  // ---- Reading ----------------------------------------------------------------------

  function TokenSet(raw: string): Result<set<nat>> {
    var token := Strip(raw);
    if token == [] then Err
    else if '-' in token then
      var parts := Split(token, '-');
      if |parts| != 2 || !IsDecimal(parts[0]) || !IsDecimal(parts[1]) then Err
      else
        var (start, end) := (ParseNat(parts[0]), ParseNat(parts[1]));
        if end < start then Err else Ok(RunMembers(Run(start, end)))
    else if IsDecimal(token) then Ok({ParseNat(token)})
    else Err
  }

  /** A CPU number, or two of them around a dash, the second not smaller. */
  ghost predicate IsToken(token: string, cpus: set<nat>, first: string, last: string) {
    && IsDecimal(first)
    && if token == first then cpus == {ParseNat(first)}
       else
         && IsDecimal(last) && token == first + ['-'] + last && ParseNat(first) <= ParseNat(last)
         && forall c: nat :: c in cpus <==> ParseNat(first) <= c <= ParseNat(last)
  }

  lemma {:induction false} SplitInTwo(token: string)
    requires |Split(token, '-')| == 2
    ensures token == Split(token, '-')[0] + ['-'] + Split(token, '-')[1]
  {
    JoinOfSplit(token, '-');
    var parts := Split(token, '-');
    assert Join(parts[1..], '-') == parts[1];
  }

  /** What an item of a list means, and which items are refused. */
  lemma {:induction false} TokenGrammar(raw: string, cpus: set<nat>)
    ensures TokenSet(raw) == Ok(cpus) <==> exists first, last :: IsToken(Strip(raw), cpus, first, last)
  {
    var token := Strip(raw);
    if TokenSet(raw) == Ok(cpus) {
      if '-' in token {
        var parts := Split(token, '-');
        SplitInTwo(token);
        assert IsToken(token, cpus, parts[0], parts[1]);
      } else {
        assert IsToken(token, cpus, token, []);
      }
    }
    if first, last :| IsToken(token, cpus, first, last) {
      DecimalIsTight(first);
      if token != first { RangeIsRead(raw, cpus, first, last); }
    }
  }

  lemma {:induction false} RangeIsRead(raw: string, cpus: set<nat>, first: string, last: string)
    requires IsToken(Strip(raw), cpus, first, last) && Strip(raw) != first
    ensures TokenSet(raw) == Ok(cpus)
  {
    DecimalIsTight(first);
    DecimalIsTight(last);
    assert Strip(raw)[|first|] == '-';
    SplitFirst(first, last, '-');
    SplitWithoutSeparator(last, '-');
    assert cpus == RunMembers(Run(ParseNat(first), ParseNat(last)));
  }

  function TokensSet(tokens: seq<string>): Result<set<nat>> {
    if tokens == [] then Ok({})
    else
      var before := TokensSet(tokens[..|tokens| - 1]);
      var now := TokenSet(tokens[|tokens| - 1]);
      if before.Err? || now.Err? then Err else Ok(before.value + now.value)
  }

  /** Some item holds the CPU. */
  predicate Listed(tokens: seq<string>, c: nat) {
    exists k :: 0 <= k < |tokens| && TokenSet(tokens[k]).Ok? && c in TokenSet(tokens[k]).value
  }

  lemma {:induction false} ListedSnoc(front: seq<string>, last: string, c: nat)
    ensures Listed(front + [last], c) <==> Listed(front, c) || (TokenSet(last).Ok? && c in TokenSet(last).value)
  {
    var all := front + [last];
    assert all[|front|] == last;
    if Listed(front, c) {
      var k :| 0 <= k < |front| && TokenSet(front[k]).Ok? && c in TokenSet(front[k]).value;
      assert all[k] == front[k];
    }
  }

  /** A list is accepted if and only if all its items are, and holds the CPUs of each. */
  lemma {:induction false} ListIsItsItems(tokens: seq<string>)
    ensures TokensSet(tokens).Ok? <==> forall k | 0 <= k < |tokens| :: TokenSet(tokens[k]).Ok?
    ensures TokensSet(tokens).Ok? ==> forall c :: c in TokensSet(tokens).value <==> Listed(tokens, c)
  {
    if tokens != [] {
      var (front, last) := (tokens[..|tokens| - 1], tokens[|tokens| - 1]);
      assert tokens == front + [last];
      ListIsItsItems(front);
      assert forall k | 0 <= k < |front| :: front[k] == tokens[k];
      forall c ensures Listed(tokens, c) <==> Listed(front, c) || (TokenSet(last).Ok? && c in TokenSet(last).value) {
        ListedSnoc(front, last, c);
      }
    }
  }

  /** What a CPU list means. */
  function CpuSet(value: string): Result<set<nat>> {
    TokensSet(Split(value, ','))
  }

  /** `sorted` of a set. */
  method Sorted(s: set<nat>) returns (sorted: seq<nat>)
    ensures Increasing(sorted) && Members(sorted) == s
  {
    sorted := [];
    var rest := s;
    while rest != {}
      invariant Increasing(sorted) && Members(sorted) + rest == s
      invariant forall x | x in rest :: sorted == [] || sorted[|sorted| - 1] < x
      decreases |rest|
    {
      var least := Least(rest);
      OneMoreMember(sorted, least);
      sorted, rest := sorted + [least], rest - {least};
    }
  }

  method Least(s: set<nat>) returns (least: nat)
    requires s != {}
    ensures least in s && forall x | x in s :: least <= x
  {
    SomeMember(s);
    least :| least in s;
    var rest := s - {least};
    while rest != {}
      invariant least in s && rest <= s && forall x | x in s && x !in rest :: least <= x
      decreases |rest|
    {
      SomeMember(rest);
      var x :| x in rest;
      rest := rest - {x};
      if x < least { least := x; }
    }
  }

  lemma {:induction false} SomeMember(s: set<nat>)
    requires s != {}
    ensures exists x :: x in s
  {
    assert (forall x :: x !in s) ==> s == {};
  }

  /** The CPUs of a list in ascending order, or an error. */
  method ParseCpuSet(value: string) returns (cpus: Result<seq<nat>>)
    ensures cpus.Ok? <==> CpuSet(value).Ok?
    ensures cpus.Ok? ==> cpus.value != [] && Increasing(cpus.value) && Members(cpus.value) == CpuSet(value).value
  {
    var tokens := Split(value, ',');
    var found: set<nat> := {};
    for k := 0 to |tokens|
      invariant TokensSet(tokens[..k]) == Ok(found) && (k > 0 ==> found != {})
    {
      assert tokens[..k + 1][..k] == tokens[..k];
      var raw := tokens[k];
      ErrorsStay(tokens, k + 1);
      var token := Strip(raw);
      if token == [] { return Err; }
      if '-' in token {
        var parts := Split(token, '-');
        if |parts| != 2 || !IsDecimal(parts[0]) || !IsDecimal(parts[1]) { return Err; }
        var start, end := ParseNat(parts[0]), ParseNat(parts[1]);
        if end < start { return Err; }
        assert start in RunMembers(Run(start, end));
        found := found + Range(start, end + 1);
      } else if IsDecimal(token) {
        found := found + {ParseNat(token)};
      } else {
        return Err;
      }
    }
    assert tokens[..|tokens|] == tokens;
    var sorted := Sorted(found);
    return Ok(sorted);
  }

  lemma {:induction false} ErrorsStay(tokens: seq<string>, k: nat)
    requires k <= |tokens|
    ensures TokensSet(tokens[..k]).Err? ==> TokensSet(tokens).Err?
    decreases |tokens| - k
  {
    if k == |tokens| {
      assert tokens[..k] == tokens;
    } else {
      assert tokens[..k + 1][..k] == tokens[..k];
      ErrorsStay(tokens, k + 1);
    }
  }

  // ---- Round trip ---------------------------------------------------------------------

  lemma {:induction false} PrintedRun(r: Run)
    ensures Tight(PrintRun(r)) && forall c | c in PrintRun(r) :: IsDigit(c) || c == '-'
    ensures ',' !in PrintRun(r)
  {
    ParseOfPrint(r.first);
    ParseOfPrint(r.last);
    DecimalIsTight(PrintNat(r.first));
    DecimalIsTight(PrintNat(r.last));
  }

  lemma {:induction false} ReadRun(r: Run)
    requires r.first <= r.last
    ensures TokenSet(PrintRun(r)) == Ok(RunMembers(r))
  {
    var text := PrintRun(r);
    PrintedRun(r);
    StripTight(text);
    ParseOfPrint(r.first);
    ParseOfPrint(r.last);
    DecimalIsTight(PrintNat(r.first));
    DecimalIsTight(PrintNat(r.last));
    if r.first == r.last {
      assert RunMembers(r) == {r.first};
    } else {
      assert text[|PrintNat(r.first)|] == '-';
      SplitFirst(PrintNat(r.first), PrintNat(r.last), '-');
      SplitWithoutSeparator(PrintNat(r.last), '-');
    }
  }

  lemma {:induction false} ReadRuns(runs: seq<Run>)
    requires forall i | 0 <= i < |runs| :: runs[i].first <= runs[i].last
    ensures TokensSet(PrintRuns(runs)) == Ok(RunsMembers(runs))
  {
    if runs != [] {
      var last := |runs| - 1;
      ReadRuns(runs[..last]);
      ReadRun(runs[last]);
      assert PrintRuns(runs)[..last] == PrintRuns(runs[..last]);
    }
  }

  /** Parsing what was printed gives the CPUs back. */
  lemma {:induction false} ReadOfPrint(cpus: seq<nat>)
    requires cpus != [] && Increasing(cpus)
    ensures CpuSet(CpuText(cpus)) == Ok(Members(cpus))
  {
    var runs := Runs(cpus);
    RunsCover(cpus);
    RunsAscend(cpus);
    forall i | 0 <= i < |runs| ensures ',' !in PrintRuns(runs)[i] { PrintedRun(runs[i]); }
    SplitOfJoin(PrintRuns(runs), ',');
    ReadRuns(runs);
  }

  lemma {:induction false} JoinTight(parts: seq<string>, sep: char)
    requires parts != [] && !IsSpace(sep) && forall i | 0 <= i < |parts| :: Tight(parts[i])
    ensures Tight(Join(parts, sep))
  {
    if |parts| > 1 { JoinTight(parts[1..], sep); }
  }

  /** The printed text survives stripping and holds no other separator. */
  lemma {:induction false} PrintedText(cpus: seq<nat>)
    requires cpus != []
    ensures Tight(CpuText(cpus)) && '=' !in CpuText(cpus) && ';' !in CpuText(cpus)
  {
    var texts := PrintRuns(Runs(cpus));
    forall i | 0 <= i < |texts| ensures Tight(texts[i]) && '=' !in texts[i] && ';' !in texts[i] { PrintedRun(Runs(cpus)[i]); }
    JoinTight(texts, ',');
    JoinHasNo(texts, ',', '=');
    JoinHasNo(texts, ',', ';');
  }

  /** `_parse_cpu_set` undoes `_compress_cpu_set` on increasing lists. */
  method RoundTrip(cpus: seq<nat>) returns (back: seq<nat>)
    requires cpus != [] && Increasing(cpus)
    ensures back == cpus
  {
    ReadOfPrint(cpus);
    var text := CompressCpuSet(cpus);
    var parsed := ParseCpuSet(text.value);
    IncreasingIsUnique(parsed.value, cpus);
    back := parsed.value;
  }
}
