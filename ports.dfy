/**
 * The dashboard's local-server detector: a fixed list of candidate ports,
 * the recently active ones checked first, probed in batches of 15; the ports
 * that answer are shown sorted, and the last 10 distinct active ports are
 * remembered in local storage.
 *
 * The HTTP probe is an oracle (`probe`): whether `HEAD http://localhost:<port>`
 * loaded within the timeout.
 */
module Ports {
  import opened Wrappers

  const RANGE_START := 3000
  const RANGE_END := 3050
  const POPULAR_PORTS: seq<int> := [5173, 5432, 8080, 8000, 4000, 5000, 3333, 4200, 4321, 8787, 6006, 9000]
  const BATCH_SIZE := 15
  const RECENT_LIMIT := 10

  /** No value occurs twice. */
  predicate Distinct(xs: seq<int>) {
    forall i, j :: 0 <= i < j < |xs| ==> xs[i] != xs[j]
  }

  /** `lo, lo + 1, ..., hi - 1` */
  function Range(lo: int, hi: int): (r: seq<int>)
    requires lo <= hi
    ensures |r| == hi - lo
    ensures forall i :: 0 <= i < |r| ==> r[i] == lo + i
  {
    seq(hi - lo, i requires 0 <= i < hi - lo => lo + i)
  }

  /** `[...new Set(xs)]`: every value once, at its first occurrence, in order. */
  function Dedupe(xs: seq<int>): (r: seq<int>)
    ensures Distinct(r)
    ensures forall x :: x in r <==> x in xs
    ensures |r| <= |xs|
  {
    if xs == [] then []
    else
      var d := Dedupe(xs[..|xs| - 1]);
      if xs[|xs| - 1] in d then d else d + [xs[|xs| - 1]]
  }

  /** A list without repeats is its own de-duplication. */
  lemma {:induction false} DedupeOfDistinct(xs: seq<int>)
    requires Distinct(xs)
    ensures Dedupe(xs) == xs
  {
    if xs != [] {
      var init := xs[..|xs| - 1];
      DedupeOfDistinct(init);
      assert xs[|xs| - 1] !in init;
      assert init + [xs[|xs| - 1]] == xs;
    }
  }

  /** De-duplicating a longer list keeps the de-duplication of its prefix as a prefix: first occurrences stay first. */
  lemma {:induction false} DedupePrefix(a: seq<int>, b: seq<int>)
    ensures Dedupe(a) <= Dedupe(a + b)
    decreases |b|
  {
    if b == [] {
      assert a + b == a;
    } else {
      var b' := b[..|b| - 1];
      DedupePrefix(a, b');
      assert (a + b)[..|a + b| - 1] == a + b';
    }
  }

  /** Appending values already present changes nothing. */
  lemma {:induction false} DedupeAbsorbs(a: seq<int>, b: seq<int>)
    requires forall x :: x in b ==> x in a
    ensures Dedupe(a + b) == Dedupe(a)
    decreases |b|
  {
    if b == [] {
      assert a + b == a;
    } else {
      var b' := b[..|b| - 1];
      DedupeAbsorbs(a, b');
      assert (a + b)[..|a + b| - 1] == a + b';
      var y := b[|b| - 1];
      assert y in b;
      assert y in a;
      assert y in Dedupe(a + b');
    }
  }

  /** `generatePorts`: 3000 to 3050 ascending, then the popular ports in their listed order. */
  method GeneratePorts() returns (ports: seq<int>)
    ensures ports == Range(RANGE_START, RANGE_END + 1) + POPULAR_PORTS
    ensures |ports| == 63 && Distinct(ports)
  {
    var acc: seq<int> := [];
    var port := RANGE_START;
    while port <= RANGE_END
      invariant RANGE_START <= port <= RANGE_END + 1
      invariant acc == Range(RANGE_START, port)
    {
      acc := acc + [port];
      port := port + 1;
    }
    acc := acc + POPULAR_PORTS;
    CandidatesDistinct();
    DedupeOfDistinct(acc);
    ports := Dedupe(acc);
  }

  /** The range and the popular ports are 63 different values. */
  lemma CandidatesDistinct()
    ensures Distinct(Range(RANGE_START, RANGE_END + 1) + POPULAR_PORTS)
  {
    var range := Range(RANGE_START, RANGE_END + 1);
    var all := range + POPULAR_PORTS;
    assert Distinct(POPULAR_PORTS);
    forall i, j | 0 <= i < j < |all| ensures all[i] != all[j] {
      if j < |range| {
      } else if i < |range| {
        assert all[i] <= RANGE_END;
        assert all[j] == POPULAR_PORTS[j - |range|];
        assert POPULAR_PORTS[j - |range|] > RANGE_END;
      } else {
        assert all[i] == POPULAR_PORTS[i - |range|] && all[j] == POPULAR_PORTS[j - |range|];
      }
    }
  }

  /** `[...new Set([...recentPorts, ...PORTS_TO_CHECK])]` */
  function PortsToCheck(recent: seq<int>, candidates: seq<int>): (ports: seq<int>)
    ensures Distinct(ports)
    ensures forall p :: p in ports <==> p in recent || p in candidates
    ensures Dedupe(recent) <= ports
  {
    DedupePrefix(recent, candidates);
    Dedupe(recent + candidates)
  }

  function Min(a: int, b: int): int {
    if a < b then a else b
  }

  /** The batches `xs.slice(i, i + 15)` for `i = start, start + 15, ...` while `i < |xs|`. */
  function BatchesFrom(xs: seq<int>, start: nat): (batches: seq<seq<int>>)
    ensures batches == [] <==> start >= |xs|
    ensures batches != [] ==> 1 <= |batches[0]| <= BATCH_SIZE
    decreases |xs| - start
  {
    if start >= |xs| then []
    else [xs[start..Min(start + BATCH_SIZE, |xs|)]] + BatchesFrom(xs, start + BATCH_SIZE)
  }

  /** The batches glued back together. */
  function Flatten(batches: seq<seq<int>>): seq<int> {
    if batches == [] then [] else batches[0] + Flatten(batches[1..])
  }

  /**
   * The batches partition the list in order: together they are the list,
   * there are `ceil(n / 15)` of them, and all but the last hold exactly 15
   * ports, the last between 1 and 15.
   */
  lemma {:induction false} BatchesPartition(xs: seq<int>, start: nat)
    requires start <= |xs|
    ensures var batches := BatchesFrom(xs, start);
            && Flatten(batches) == xs[start..]
            && |batches| == (|xs| - start + BATCH_SIZE - 1) / BATCH_SIZE
            && (forall k :: 0 <= k < |batches| - 1 ==> |batches[k]| == BATCH_SIZE)
            && (batches != [] ==> 0 < |batches[|batches| - 1]| <= BATCH_SIZE)
    decreases |xs| - start
  {
    var batches := BatchesFrom(xs, start);
    if start < |xs| {
      var first := xs[start..Min(start + BATCH_SIZE, |xs|)];
      if start + BATCH_SIZE < |xs| {
        var rest := BatchesFrom(xs, start + BATCH_SIZE);
        BatchesPartition(xs, start + BATCH_SIZE);
        assert batches == [first] + rest;
        assert batches[1..] == rest;
        assert xs[start..] == first + xs[start + BATCH_SIZE..];
      } else {
        assert BatchesFrom(xs, start + BATCH_SIZE) == [];
        assert batches == [first];
        assert first == xs[start..];
      }
    }
  }

  /** The ports whose probe returned true, in check order. */
  function Running(ports: seq<int>, probe: int -> bool): (running: seq<int>)
    ensures |running| <= |ports|
  {
    if ports == [] then []
    else Running(ports[..|ports| - 1], probe) + (if probe(ports[|ports| - 1]) then [ports[|ports| - 1]] else [])
  }

  /** A port is reported running exactly when it was checked and answered. */
  lemma {:induction false} RunningMembers(ports: seq<int>, probe: int -> bool, p: int)
    ensures p in Running(ports, probe) <==> p in ports && probe(p)
  {
    if ports != [] {
      var init := ports[..|ports| - 1];
      RunningMembers(init, probe, p);
      assert ports == init + [ports[|ports| - 1]];
    }
  }

  /** When no probe succeeds nothing is running. */
  lemma {:induction false} NothingAnswers(ports: seq<int>, probe: int -> bool)
    requires forall p :: !probe(p)
    ensures Running(ports, probe) == []
  {
    if ports != [] {
      NothingAnswers(ports[..|ports| - 1], probe);
    }
  }

  /** Probing two lists one after the other finds the ports of the first, then those of the second. */
  lemma {:induction false} RunningAppend(xs: seq<int>, ys: seq<int>, probe: int -> bool)
    ensures Running(xs + ys, probe) == Running(xs, probe) + Running(ys, probe)
    decreases |ys|
  {
    if ys == [] {
      assert xs + ys == xs;
    } else {
      var ys' := ys[..|ys| - 1];
      RunningAppend(xs, ys', probe);
      assert (xs + ys)[..|xs + ys| - 1] == xs + ys';
    }
  }

  /** The batch taken at `i` continues the prefix already checked and is the first of the remaining batches. */
  lemma NextBatch(xs: seq<int>, i: nat)
    requires i < |xs|
    ensures var batch := xs[i..Min(i + BATCH_SIZE, |xs|)];
            && xs[..i] + batch == xs[..Min(i + BATCH_SIZE, |xs|)]
            && BatchesFrom(xs, i) == [batch] + BatchesFrom(xs, i + BATCH_SIZE)
  {
    assert xs[..i] + xs[i..Min(i + BATCH_SIZE, |xs|)] == xs[..Min(i + BATCH_SIZE, |xs|)];
  }

  /** One pass of the batch loop: the next batch's running ports extend the prefix's, and the batch is the next one taken. */
  lemma BatchStep(xs: seq<int>, i: nat, batches: seq<seq<int>>, probe: int -> bool)
    requires i < |xs|
    requires batches + BatchesFrom(xs, i) == BatchesFrom(xs, 0)
    ensures var batch := xs[i..Min(i + BATCH_SIZE, |xs|)];
            && Running(xs[..i], probe) + Running(batch, probe) == Running(xs[..Min(i + BATCH_SIZE, |xs|)], probe)
            && (batches + [batch]) + BatchesFrom(xs, i + BATCH_SIZE) == BatchesFrom(xs, 0)
  {
    var batch := xs[i..Min(i + BATCH_SIZE, |xs|)];
    NextBatch(xs, i);
    RunningAppend(xs[..i], batch, probe);
    assert (batches + [batch]) + BatchesFrom(xs, i + BATCH_SIZE) == batches + ([batch] + BatchesFrom(xs, i + BATCH_SIZE));
  }

  /**
   * `batchResults.forEach((isRunning, index) => ...)`: push, in batch order,
   * each port of the batch whose probe returned true.
   */
  method PushRunning(running: seq<int>, batch: seq<int>, batchResults: seq<bool>, ghost probe: int -> bool)
    returns (pushed: seq<int>)
    requires |batchResults| == |batch|
    requires forall k :: 0 <= k < |batch| ==> batchResults[k] == probe(batch[k])
    ensures pushed == running + Running(batch, probe)
  {
    pushed := running;
    var index := 0;
    while index < |batch|
      invariant 0 <= index <= |batch|
      invariant pushed == running + Running(batch[..index], probe)
    {
      assert batch[..index + 1][..index] == batch[..index];
      if batchResults[index] {
        pushed := pushed + [batch[index]];
      }
      index := index + 1;
    }
    assert batch[..|batch|] == batch;
  }

  /** `Promise.all(batch.map(checkPort))`, then the ports that answered pushed in batch order. */
  method ProbeBatch(running: seq<int>, batch: seq<int>, probe: int -> bool) returns (pushed: seq<int>)
    ensures pushed == running + Running(batch, probe)
  {
    var batchResults := seq(|batch|, k requires 0 <= k < |batch| => probe(batch[k]));
    pushed := PushRunning(running, batch, batchResults, probe);
  }

  /**
   * The loop of `checkPorts`: probe the ports in batches of 15 and push, in
   * order, each port whose probe returned true. `batches` records the batches
   * it took.
   */
  method CheckInBatches(portsToCheck: seq<int>, probe: int -> bool) returns (running: seq<int>, ghost batches: seq<seq<int>>)
    ensures running == Running(portsToCheck, probe)
    ensures batches == BatchesFrom(portsToCheck, 0)
  {
    running, batches := [], [];
    var n := |portsToCheck|;
    var i := 0;
    while i < n
      invariant 0 <= i
      invariant running == Running(portsToCheck[..Min(i, n)], probe)
      invariant batches + BatchesFrom(portsToCheck, i) == BatchesFrom(portsToCheck, 0)
    {
      var batch := portsToCheck[i..Min(i + BATCH_SIZE, n)];
      running := ProbeBatch(running, batch, probe);
      BatchStep(portsToCheck, i, batches, probe);
      batches := batches + [batch];
      i := i + BATCH_SIZE;
    }
    assert portsToCheck[..n] == portsToCheck;
  }

  /**
   * `xs.slice(-n)`: the last `n` entries, or all of them when there are
   * fewer; `slice(-0)` is `slice(0)`, the whole list.
   */
  function TakeLast(xs: seq<int>, n: nat): (r: seq<int>)
    ensures n > 0 ==> |r| == Min(|xs|, n)
    ensures n == 0 ==> r == xs
    ensures r == xs[|xs| - |r|..]
  {
    if n == 0 || |xs| <= n then xs else xs[|xs| - n..]
  }

  /** `[...new Set([...recentPorts, ...running])].slice(-10)`: at most 10 ports, none twice, each recent or running. */
  function NewRecentPorts(recent: seq<int>, running: seq<int>): (r: seq<int>)
    ensures Distinct(r) && |r| <= RECENT_LIMIT
    ensures forall p :: p in r ==> p in recent || p in running
  {
    var all := Dedupe(recent + running);
    var r := TakeLast(all, RECENT_LIMIT);
    assert forall i :: 0 <= i < |r| ==> r[i] == all[|all| - |r| + i];
    assert forall p :: p in r ==> p in all;
    r
  }

  /**
   * The remembered list is the last 10 of the recent-then-running ports,
   * each once; when there are no more than 10 of them, every recent and
   * every running port is remembered.
   */
  lemma RecentPortsKeepTheLastTen(recent: seq<int>, running: seq<int>)
    ensures var all := Dedupe(recent + running);
            NewRecentPorts(recent, running) == all[|all| - |NewRecentPorts(recent, running)|..]
    ensures |Dedupe(recent + running)| <= RECENT_LIMIT ==>
              forall p :: p in recent || p in running ==> p in NewRecentPorts(recent, running)
  {
    var all := Dedupe(recent + running);
    if |all| <= RECENT_LIMIT {
      assert NewRecentPorts(recent, running) == all;
      forall p | p in recent || p in running ensures p in all {
        assert p in recent + running;
      }
    }
  }

  /** Every element of `xs` is at most every element after it. */
  predicate SortedAscending(xs: seq<int>) {
    forall i, j :: 0 <= i < j < |xs| ==> xs[i] <= xs[j]
  }

  /** Puts `x` into a sorted list. */
  function Insert(x: int, xs: seq<int>): (r: seq<int>)
    requires SortedAscending(xs)
    ensures SortedAscending(r)
    ensures multiset(r) == multiset(xs) + multiset{x}
  {
    if xs == [] || x <= xs[0] then
      SortedCons(x, xs);
      [x] + xs
    else
      var tail := Insert(x, xs[1..]);
      assert xs == [xs[0]] + xs[1..];
      LowerBoundOfInsertion(xs[0], x, xs[1..], tail);
      SortedCons(xs[0], tail);
      [xs[0]] + tail
  }

  /** A sorted list stays sorted with a lower bound of its elements put in front. */
  lemma SortedCons(lo: int, xs: seq<int>)
    requires SortedAscending(xs) && forall k :: 0 <= k < |xs| ==> lo <= xs[k]
    ensures SortedAscending([lo] + xs)
  {
  }

  /** A lower bound of `x` and of `xs` bounds every element of a list holding `xs` and `x`. */
  lemma LowerBoundOfInsertion(lo: int, x: int, xs: seq<int>, r: seq<int>)
    requires lo <= x && forall k :: 0 <= k < |xs| ==> lo <= xs[k]
    requires multiset(r) == multiset(xs) + multiset{x}
    ensures forall k :: 0 <= k < |r| ==> lo <= r[k]
  {
    forall k | 0 <= k < |r| ensures lo <= r[k] {
      assert r[k] in multiset(r);
      if r[k] != x {
        assert r[k] in multiset(xs);
        assert r[k] in xs;
      }
    }
  }

  /** `running.sort((a, b) => a - b)`: the same ports, in ascending numeric order. */
  function SortAscending(xs: seq<int>): (r: seq<int>)
    ensures SortedAscending(r)
    ensures multiset(r) == multiset(xs)
  {
    if xs == [] then []
    else
      assert xs == [xs[0]] + xs[1..];
      Insert(xs[0], SortAscending(xs[1..]))
  }

  /** The dashboard's port list: its React state and the local-storage entry `recent-active-ports`. */
  class PortsList {
    var activePorts: seq<int>
    var recentPorts: seq<int>
    var storedRecent: Option<seq<int>>
    /** `PORTS_TO_CHECK`, computed once when the module loads */
    const candidates: seq<int>

    /** Mounting: empty state; `saved` is the parsed storage entry, absent when missing or unparsable. */
    constructor (saved: Option<seq<int>>)
      ensures candidates == Range(RANGE_START, RANGE_END + 1) + POPULAR_PORTS
      ensures activePorts == [] && recentPorts == saved.GetOr([]) && storedRecent == saved
    {
      var ports := GeneratePorts();
      candidates := ports;
      activePorts, recentPorts, storedRecent := [], saved.GetOr([]), saved;
    }

    /**
     * One run of `checkPorts` whose closure reads `recent` as `recentPorts`:
     * the active ports become the running ports sorted, and the recent list
     * (state and storage) becomes the last 10 distinct recent-or-running ports.
     */
    method CheckPortsReading(recent: seq<int>, probe: int -> bool)
      modifies this
      ensures var running := Running(PortsToCheck(recent, candidates), probe);
              && activePorts == SortAscending(running)
              && recentPorts == NewRecentPorts(recent, running)
              && storedRecent == Some(recentPorts)
    {
      var portsToCheck := PortsToCheck(recent, candidates);
      var running, _ := CheckInBatches(portsToCheck, probe);
      var newRecentPorts := NewRecentPorts(recent, running);
      recentPorts := newRecentPorts;
      storedRecent := Some(newRecentPorts);
      activePorts := SortAscending(running);
    }

    /**
     * `checkPorts` as the component schedules it: the effect that starts it
     * and the 1.5 s interval both hold the function of the first render,
     * whose `recentPorts` is the initial `[]`.
     */
    method CheckPortsAsWritten(probe: int -> bool)
      modifies this
      ensures var running := Running(PortsToCheck([], candidates), probe);
              && activePorts == SortAscending(running)
              && recentPorts == NewRecentPorts([], running)
              && storedRecent == Some(recentPorts)
    {
      CheckPortsReading([], probe);
    }

    /** `checkPorts` reading the current recent ports, as the comment "Prioritize recent ports" intends. */
    method CheckPorts(probe: int -> bool)
      modifies this
      ensures var running := Running(PortsToCheck(old(recentPorts), candidates), probe);
              && activePorts == SortAscending(running)
              && recentPorts == NewRecentPorts(old(recentPorts), running)
              && storedRecent == Some(recentPorts)
    {
      CheckPortsReading(recentPorts, probe);
    }
  }

  /**
   * As written, a port remembered from an earlier session is neither checked
   * first nor kept: with 8080 remembered and nothing answering, the scan starts
   * at 3000 and the stored list becomes empty.
   */
  lemma StaleClosureForgetsRecentPorts(probe: int -> bool)
    requires forall p :: !probe(p)
    ensures var candidates := Range(RANGE_START, RANGE_END + 1) + POPULAR_PORTS;
            && PortsToCheck([], candidates)[0] == 3000
            && NewRecentPorts([], Running(PortsToCheck([], candidates), probe)) == []
  {
    var candidates := Range(RANGE_START, RANGE_END + 1) + POPULAR_PORTS;
    CandidatesDistinct();
    assert [] + candidates == candidates;
    DedupeOfDistinct(candidates);
    NothingAnswers(PortsToCheck([], candidates), probe);
    assert Dedupe([] + []) == [];
  }

  /**
   * Reading the current recent ports, the remembered ports are checked first,
   * and a scan that finds nothing new forgets none of them.
   */
  lemma CurrentRecentPortsArePrioritisedAndKept(recent: seq<int>, candidates: seq<int>, probe: int -> bool)
    requires Distinct(recent) && |recent| <= RECENT_LIMIT
    requires forall p :: p in Running(PortsToCheck(recent, candidates), probe) ==> p in recent
    ensures recent <= PortsToCheck(recent, candidates)
    ensures NewRecentPorts(recent, Running(PortsToCheck(recent, candidates), probe)) == recent
  {
    DedupeOfDistinct(recent);
    var running := Running(PortsToCheck(recent, candidates), probe);
    DedupeAbsorbs(recent, running);
  }
}
