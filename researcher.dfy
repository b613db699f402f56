/** The researcher agent (src/agents/researcher.py): the per-task retry loop
    with linear backoff, the query-major fan-out over providers and its
    flattening, the scoring formulas, the stable descending sort on the
    combined score, and the top-15 selection of `run`.

    Provider calls are an oracle `respond(query, provider, attempt)`:
    `None` stands for a call that raised, `Some(results)` for one that
    returned. Sleeping is recorded as the list of delays slept. */
module Researcher {
  import opened Text
  import opened State
  import Base

  const Name: string := "Researcher"

  // ------------------------------------------------------------ retrying

  /** What one `_search_query` call produces: its result, the delays it slept
      in order, and how many provider calls it made. */
  datatype RetryTrace = RetryTrace(result: seq<Source>, sleeps: seq<real>, attempts: nat)

  /** The behaviour of the retry loop from attempt `k` on, with `n` attempts
      allowed and base delay `delay`. */
  function Retry(call: nat -> Option<seq<Source>>, n: int, delay: real, k: nat): (t: RetryTrace)
    ensures k >= n ==> t == RetryTrace([], [], k)
    ensures k < n ==> k < t.attempts <= n
    decreases n - k
  {
    if k >= n then RetryTrace([], [], k)
    else if call(k).Some? then RetryTrace(call(k).value, [], k + 1)
    else if k < n - 1 then
      var t := Retry(call, n, delay, k + 1);
      RetryTrace(t.result, [delay * (k + 1) as real] + t.sleeps, t.attempts)
    else RetryTrace([], [], k + 1)
  }

  /** The delays slept before attempt `j`: one after each failed attempt. */
  function Backoff(delay: real, j: nat): (r: seq<real>)
    ensures |r| == j
    ensures forall i :: 0 <= i < j ==> r[i] == delay * (i + 1) as real
  {
    if j == 0 then [] else Backoff(delay, j - 1) + [delay * j as real]
  }

  /** `_search_query`. */
  method SearchQuery(call: nat -> Option<seq<Source>>, retryAttempts: int, retryDelay: real)
    returns (result: seq<Source>, sleeps: seq<real>, attempts: nat)
    ensures RetryTrace(result, sleeps, attempts) == Retry(call, retryAttempts, retryDelay, 0)
  {
    var attempt: nat := 0;
    sleeps := [];
    ghost var whole := Retry(call, retryAttempts, retryDelay, 0);
    assert whole.sleeps == sleeps + whole.sleeps;
    while attempt < retryAttempts
      invariant attempt == 0 || attempt < retryAttempts
      invariant whole.result == Retry(call, retryAttempts, retryDelay, attempt).result
      invariant whole.attempts == Retry(call, retryAttempts, retryDelay, attempt).attempts
      invariant whole.sleeps == sleeps + Retry(call, retryAttempts, retryDelay, attempt).sleeps
      decreases retryAttempts - attempt
    {
      var r := call(attempt);
      if r.Some? {
        assert sleeps + [] == sleeps;
        return r.value, sleeps, attempt + 1;
      }
      if attempt < retryAttempts - 1 {
        var rest := Retry(call, retryAttempts, retryDelay, attempt + 1).sleeps;
        RetryStep(call, retryAttempts, retryDelay, attempt);
        ConcatAssoc(sleeps, [retryDelay * (attempt + 1) as real], rest);
        sleeps := sleeps + [retryDelay * (attempt + 1) as real];
      } else {
        assert sleeps + [] == sleeps;
        return [], sleeps, attempt + 1;
      }
      attempt := attempt + 1;
    }
    assert sleeps + [] == sleeps;
    return [], sleeps, attempt;
  }

  /** A failed attempt with attempts remaining sleeps and retries. */
  lemma RetryStep(call: nat -> Option<seq<Source>>, n: int, delay: real, k: nat)
    requires k < n - 1 && call(k).None?
    ensures var t := Retry(call, n, delay, k + 1);
      Retry(call, n, delay, k) == RetryTrace(t.result, [delay * (k + 1) as real] + t.sleeps, t.attempts)
  {
  }

  /** If attempt `j` is the first to succeed, its result is returned
      unchanged after `j + 1` calls and a sleep of `delay * (i + 1)` after
      each failed attempt `i`. */
  lemma {:induction false} RetryFirstSuccess(call: nat -> Option<seq<Source>>, n: int, delay: real, k: nat, j: nat)
    requires k <= j < n && call(j).Some?
    requires forall i :: k <= i < j ==> call(i).None?
    ensures Retry(call, n, delay, k).result == call(j).value
    ensures Retry(call, n, delay, k).attempts == j + 1
    ensures Retry(call, n, delay, k).sleeps == Backoff(delay, j)[k..]
    decreases j - k
  {
    if k < j {
      RetryFirstSuccess(call, n, delay, k + 1, j);
      var b := Backoff(delay, j);
      assert b[k..] == [b[k]] + b[k + 1..];
    }
  }

  /** When every attempt raises, the loop makes exactly `n` calls, sleeps
      after all but the last, and returns no sources instead of raising. */
  lemma {:induction false} RetryAllFail(call: nat -> Option<seq<Source>>, n: int, delay: real, k: nat)
    requires k < n
    requires forall i :: k <= i < n ==> call(i).None?
    ensures Retry(call, n, delay, k).result == []
    ensures Retry(call, n, delay, k).attempts == n
    ensures Retry(call, n, delay, k).sleeps == Backoff(delay, n - 1)[k..]
    decreases n - k
  {
    if k < n - 1 {
      RetryAllFail(call, n, delay, k + 1);
      var b := Backoff(delay, n - 1);
      assert b[k..] == [b[k]] + b[k + 1..];
    }
  }

  /** Counting from attempt `k`: the loop never calls the provider more than
      `retry_attempts` times, sleeps once less than it calls, and with no
      attempts left it returns no sources without a call. */
  lemma {:induction false} RetryBounded(call: nat -> Option<seq<Source>>, n: int, delay: real, k: nat)
    ensures var t := Retry(call, n, delay, k);
      && k <= t.attempts <= (if n > k then n else k)
      && (t.attempts == k ==> t.result == [] && t.sleeps == [])
      && (t.attempts > k ==> |t.sleeps| == t.attempts - k - 1)
    decreases n - k
  {
    if k < n && call(k).None? && k < n - 1 {
      RetryBounded(call, n, delay, k + 1);
    }
  }

  /** A provider that never raises is called exactly once, and its result is
      returned without sleeping. */
  lemma NeverRaisingCalledOnce(call: nat -> Option<seq<Source>>, n: int, delay: real, r: seq<Source>)
    requires n >= 1 && forall k :: call(k) == Some(r)
    ensures Retry(call, n, delay, 0) == RetryTrace(r, [], 1)
  {
    assert call(0) == Some(r);
  }

  // ------------------------------------------------------------ fan-out

  /** One task per provider for query `q`, in provider order. */
  function Row(q: string, providers: seq<string>): (r: seq<(string, string)>)
    ensures |r| == |providers|
    ensures forall j :: 0 <= j < |providers| ==> r[j] == (q, providers[j])
  {
    seq(|providers|, j requires 0 <= j < |providers| => (q, providers[j]))
  }

  /** The task list: one task per (query, provider) pair, query-major. */
  function Tasks(queries: seq<string>, providers: seq<string>): seq<(string, string)>
  {
    if queries == [] then [] else Tasks(queries[..|queries| - 1], providers) + Row(queries[|queries| - 1], providers)
  }

  lemma {:induction false} TasksLength(queries: seq<string>, providers: seq<string>)
    ensures |Tasks(queries, providers)| == |queries| * |providers|
  {
    if queries != [] {
      TasksLength(queries[..|queries| - 1], providers);
      assert (|queries| - 1) * |providers| + |providers| == |queries| * |providers|;
    }
  }

  lemma MulBound(i: int, j: int, p: int, n: int)
    requires 0 <= i < n && 0 <= j < p
    ensures i * p + j < n * p
  {
    assert i * p + j < (i + 1) * p;
    assert (i + 1) * p <= n * p;
  }

  /** Task `i * |providers| + j` pairs query `i` with provider `j`: the task
      list is query-major. */
  lemma {:induction false} TaskAt(queries: seq<string>, providers: seq<string>, i: nat, j: nat)
    requires i < |queries| && j < |providers|
    ensures i * |providers| + j < |Tasks(queries, providers)|
    ensures Tasks(queries, providers)[i * |providers| + j] == (queries[i], providers[j])
  {
    var p := |providers|;
    var init := queries[..|queries| - 1];
    TasksLength(queries, providers);
    TasksLength(init, providers);
    MulBound(i, j, p, |queries|);
    if i < |init| {
      TaskAt(init, providers, i, j);
      assert init[i] == queries[i];
    } else {
      assert i * p == |init| * p;
    }
  }

  function Concat(results: seq<seq<Source>>): seq<Source> {
    if results == [] then [] else Concat(results[..|results| - 1]) + results[|results| - 1]
  }

  function Lengths(results: seq<seq<Source>>): nat {
    if results == [] then 0 else Lengths(results[..|results| - 1]) + |results[|results| - 1]|
  }

  /** Flattening keeps every element: no deduplication. */
  lemma {:induction false} ConcatLength(results: seq<seq<Source>>)
    ensures |Concat(results)| == Lengths(results)
  {
    if results != [] {
      ConcatLength(results[..|results| - 1]);
    }
  }

  /** The sources a task returns under the retry loop. */
  function TaskResult(task: (string, string), respond: (string, string, nat) -> Option<seq<Source>>,
                      retryAttempts: int, retryDelay: real): seq<Source>
  {
    Retry((k: nat) => respond(task.0, task.1, k), retryAttempts, retryDelay, 0).result
  }

  function TaskResults(tasks: seq<(string, string)>, respond: (string, string, nat) -> Option<seq<Source>>,
                       retryAttempts: int, retryDelay: real): (r: seq<seq<Source>>)
    ensures |r| == |tasks|
    ensures forall i :: 0 <= i < |tasks| ==> r[i] == TaskResult(tasks[i], respond, retryAttempts, retryDelay)
  {
    seq(|tasks|, i requires 0 <= i < |tasks| => TaskResult(tasks[i], respond, retryAttempts, retryDelay))
  }

  /** `_execute_parallel_searches`: builds the task list, runs every task
      (results come back in task order, as `gather` guarantees) and extends
      the output with each result in turn. */
  method ExecuteParallelSearches(queries: seq<string>, providers: seq<string>,
                                 respond: (string, string, nat) -> Option<seq<Source>>,
                                 retryAttempts: int, retryDelay: real)
    returns (all: seq<Source>)
    ensures all == Concat(TaskResults(Tasks(queries, providers), respond, retryAttempts, retryDelay))
  {
    var tasks: seq<(string, string)> := [];
    for qi := 0 to |queries|
      invariant tasks == Tasks(queries[..qi], providers)
    {
      TakeStep(queries, qi);
      for pj := 0 to |providers|
        invariant tasks == Tasks(queries[..qi], providers) + Row(queries[qi], providers[..pj])
      {
        assert Row(queries[qi], providers[..pj + 1]) == Row(queries[qi], providers[..pj]) + [(queries[qi], providers[pj])];
        tasks := tasks + [(queries[qi], providers[pj])];
      }
      TakeAll(providers);
    }
    TakeAll(queries);
    var results: seq<seq<Source>> := [];
    for t := 0 to |tasks|
      invariant |results| == t
      invariant forall i :: 0 <= i < t ==> results[i] == TaskResult(tasks[i], respond, retryAttempts, retryDelay)
    {
      var r, _, _ := SearchQuery((k: nat) => respond(tasks[t].0, tasks[t].1, k), retryAttempts, retryDelay);
      results := results + [r];
    }
    assert results == TaskResults(tasks, respond, retryAttempts, retryDelay);
    all := [];
    for t := 0 to |results|
      invariant all == Concat(results[..t])
    {
      TakeStep(results, t);
      all := all + results[t];
    }
    TakeAll(results);
  }

  // ------------------------------------------------------------- scoring

  function RMin(a: real, b: real): real { if a <= b then a else b }

  /** `min(10, 2 * overlap)` where overlap counts the lower-cased topic words
      that also occur among the lower-cased content words. */
  function RelevanceScore(topic: string, content: string): (r: int)
    ensures 0 <= r <= 10
    ensures r < 10 ==> r == 2 * |Overlap(topic, content)|
    ensures Overlap(topic, content) == {} ==> r == 0
  {
    Min(10, 2 * |Overlap(topic, content)|)
  }

  /** The lower-cased topic words that occur among the content's words. */
  function Overlap(topic: string, content: string): set<string> {
    WordSet(Lower(topic)) * WordSet(Lower(content))
  }

  function ProviderBonus(provider: string): real {
    if provider == "tavily" || provider == "wikipedia" then 2.0 else 0.0
  }

  /** `min(10, min(5, len(content) / 500) + bonus + 3)`: always within
      [3, 10], with the outer cap never binding. */
  function QualityScore(content: string, provider: string): (q: real)
    ensures 3.0 <= q <= 10.0
    ensures q == RMin(5.0, |content| as real / 500.0) + ProviderBonus(provider) + 3.0
    ensures |content| >= 2500 && (provider == "tavily" || provider == "wikipedia") ==> q == 10.0
  {
    RMin(10.0, RMin(5.0, |content| as real / 500.0) + ProviderBonus(provider) + 3.0)
  }

  /** A source with its two scores filled in, everything else unchanged. */
  function Scored(s: Source, topic: string): (r: Source)
    ensures r.url == s.url && r.title == s.title && r.content == s.content && r.query == s.query
    ensures r.provider == s.provider && r.retrievedAt == s.retrievedAt
    ensures 3.0 <= r.qualityScore <= 10.0 && 0.0 <= r.relevanceScore <= 10.0
    ensures 3.0 <= Key(r) <= 20.0
  {
    s.(relevanceScore := RelevanceScore(topic, s.content) as real,
       qualityScore := QualityScore(s.content, s.provider))
  }

  function ScoreAll(ss: seq<Source>, topic: string): (r: seq<Source>)
    ensures |r| == |ss|
    ensures forall i :: 0 <= i < |ss| ==> r[i] == Scored(ss[i], topic)
  {
    seq(|ss|, i requires 0 <= i < |ss| => Scored(ss[i], topic))
  }

  // ------------------------------------------------------------- sorting

  /** The sort key: the combined score. */
  function Key(s: Source): real { s.qualityScore + s.relevanceScore }

  /** Inserts `x` into `s` from the right: `x` passes exactly the trailing
      elements whose key is below its own. */
  function Insert(s: seq<Source>, x: Source): (r: seq<Source>)
    ensures |r| == |s| + 1
  {
    if s == [] || Key(s[|s| - 1]) >= Key(x) then s + [x]
    else Insert(s[..|s| - 1], x) + [s[|s| - 1]]
  }

  /** Python's `list.sort(key=..., reverse=True)`: stable, descending. */
  function SortDesc(s: seq<Source>): (r: seq<Source>)
    ensures |r| == |s|
  {
    if s == [] then [] else Insert(SortDesc(s[..|s| - 1]), s[|s| - 1])
  }

  predicate Descending(s: seq<Source>) {
    forall i, j :: 0 <= i < j < |s| ==> Key(s[i]) >= Key(s[j])
  }

  lemma {:induction false} InsertDescending(s: seq<Source>, x: Source)
    requires Descending(s)
    ensures Descending(Insert(s, x))
  {
    if s != [] && Key(s[|s| - 1]) < Key(x) {
      var init := s[..|s| - 1];
      var last := s[|s| - 1];
      assert Descending(init);
      InsertDescending(init, x);
      InsertAtLeast(init, x, Key(last));
      DescendingSnoc(Insert(init, x), last);
    }
  }

  /** Every key in `s` is at least `v`. */
  predicate AllAtLeast(s: seq<Source>, v: real) {
    forall k :: 0 <= k < |s| ==> Key(s[k]) >= v
  }

  lemma {:induction false} InsertAtLeast(s: seq<Source>, x: Source, v: real)
    requires AllAtLeast(s, v) && Key(x) >= v
    ensures AllAtLeast(Insert(s, x), v)
  {
    if s != [] && Key(s[|s| - 1]) < Key(x) {
      InsertAtLeast(s[..|s| - 1], x, v);
    }
  }

  lemma DescendingSnoc(s: seq<Source>, y: Source)
    requires Descending(s) && AllAtLeast(s, Key(y))
    ensures Descending(s + [y])
  {
  }

  lemma {:induction false} InsertMembers(s: seq<Source>, x: Source)
    ensures multiset(Insert(s, x)) == multiset(s) + multiset{x}
  {
    if s != [] && Key(s[|s| - 1]) < Key(x) {
      InsertMembers(s[..|s| - 1], x);
      InitLast(s);
    }
  }

  /** The sorted list is a permutation of its input. */
  lemma {:induction false} SortPermutes(s: seq<Source>)
    ensures multiset(SortDesc(s)) == multiset(s)
  {
    if s != [] {
      SortPermutes(s[..|s| - 1]);
      InsertMembers(SortDesc(s[..|s| - 1]), s[|s| - 1]);
      InitLast(s);
    }
  }

  /** The sorted list is non-increasing in the combined score. */
  lemma {:induction false} SortDescending(s: seq<Source>)
    ensures Descending(SortDesc(s))
  {
    if s != [] {
      SortDescending(s[..|s| - 1]);
      InsertDescending(SortDesc(s[..|s| - 1]), s[|s| - 1]);
    }
  }

  /** The elements of `s` whose key is `v`, in order. */
  function WithKey(s: seq<Source>, v: real): seq<Source> {
    if s == [] then []
    else WithKey(s[..|s| - 1], v) + (if Key(s[|s| - 1]) == v then [s[|s| - 1]] else [])
  }

  lemma {:induction false} WithKeyAppend(a: seq<Source>, b: seq<Source>, v: real)
    ensures WithKey(a + b, v) == WithKey(a, v) + WithKey(b, v)
    decreases |b|
  {
    if b != [] {
      WithKeyAppend(a, b[..|b| - 1], v);
      assert (a + b)[..|a + b| - 1] == a + b[..|b| - 1];
    } else {
      assert a + b == a;
    }
  }

  lemma WithKeySingle(x: Source, v: real)
    ensures WithKey([x], v) == (if Key(x) == v then [x] else [])
  {
    assert [x][..0] == [];
  }

  /** Inserting `x` adds it after every element of the same key. */
  lemma {:induction false} InsertStable(s: seq<Source>, x: Source, v: real)
    ensures WithKey(Insert(s, x), v) == WithKey(s, v) + WithKey([x], v)
  {
    WithKeySingle(x, v);
    if s == [] || Key(s[|s| - 1]) >= Key(x) {
      assert Insert(s, x) == s + [x];
      WithKeyAppend(s, [x], v);
    } else {
      var init := s[..|s| - 1];
      var last := s[|s| - 1];
      assert Insert(s, x) == Insert(init, x) + [last];
      InitLast(s);
      InsertStable(init, x, v);
      WithKeyAppend(Insert(init, x), [last], v);
      WithKeyAppend(init, [last], v);
      WithKeySingle(last, v);
      SwapEmpty(WithKey(init, v), WithKey([x], v), WithKey([last], v));
    }
  }

  /** Stability: sources with equal combined score keep their input order. */
  lemma {:induction false} SortStable(s: seq<Source>, v: real)
    ensures WithKey(SortDesc(s), v) == WithKey(s, v)
  {
    if s != [] {
      var init := s[..|s| - 1];
      SortStable(init, v);
      InsertStable(SortDesc(init), s[|s| - 1], v);
      WithKeyAppend(init, [s[|s| - 1]], v);
      InitLast(s);
    }
  }

  /** `_score_sources`: scores every source in place, then sorts the list in
      place by combined score, highest first. */
  method ScoreSources(a: array<Source>, topic: string)
    modifies a
    ensures a[..] == SortDesc(ScoreAll(old(a[..]), topic))
  {
    ScoreInPlace(a, topic);
    SortInPlace(a);
  }

  /** The scoring loop of `_score_sources`: each source's two score fields
      are assigned. */
  method ScoreInPlace(a: array<Source>, topic: string)
    modifies a
    ensures a[..] == ScoreAll(old(a[..]), topic)
  {
    ghost var input := a[..];
    ghost var target := ScoreAll(input, topic);
    for i := 0 to a.Length
      invariant a[..] == target[..i] + input[i..]
    {
      PrefixStep(target, input, i);
      a[i] := Scored(a[i], topic);
    }
    PrefixDone(target, input);
  }

  /** `sources.sort(key=..., reverse=True)` as an in-place insertion sort. */
  method SortInPlace(a: array<Source>)
    modifies a
    ensures a[..] == SortDesc(old(a[..]))
  {
    ghost var input := a[..];
    for i := 0 to a.Length
      invariant a[..] == SortDesc(input[..i]) + input[i..]
    {
      TakeStep(input, i);
      assert SortDesc(input[..i + 1]) == Insert(SortDesc(input[..i]), input[i]);
      DropStep(input, i);
      InsertElement(a, i, SortDesc(input[..i]), input[i..]);
    }
    TakeAll(input);
    assert SortDesc(input) + [] == SortDesc(input);
  }

  /** Moves `a[i]` left past the trailing elements of the sorted `a[..i]`
      whose key is below its own; the rest of the array is left alone. */
  method InsertElement(a: array<Source>, i: nat, ghost prefix: seq<Source>, ghost rest: seq<Source>)
    requires i < a.Length && |prefix| == i && a[..] == prefix + rest
    modifies a
    ensures a[..] == Insert(prefix, rest[0]) + rest[1..]
  {
    ghost var x := rest[0];
    ghost var tail := rest[1..];
    SplitAt(prefix, rest);
    InitialShape(a[..], i);
    var j := SiftLeft(a, i, prefix, x, tail);
    if j > 0 {
      TakeStep(prefix, j - 1);
      assert Insert(prefix[..j], x) == prefix[..j] + [x];
    }
  }

  /** The swapping loop of insertion: `x` starts at position `i` and passes
      the elements of `prefix` whose key is below its own. */
  method SiftLeft(a: array<Source>, i: nat, ghost prefix: seq<Source>, ghost x: Source, ghost tail: seq<Source>)
    returns (j: nat)
    requires i == |prefix| && a[..] == prefix[..i] + [x] + prefix[i..] + tail
    modifies a
    ensures j <= i && a[..] == prefix[..j] + [x] + prefix[j..] + tail
    ensures Insert(prefix, x) == Insert(prefix[..j], x) + prefix[j..]
    ensures j > 0 ==> Key(prefix[j - 1]) >= Key(x)
  {
    assert prefix[..i] == prefix && prefix[i..] == [];
    assert Insert(prefix, x) == Insert(prefix[..i], x) + prefix[i..];
    j := i;
    while j > 0 && Key(a[j - 1]) < Key(a[j])
      invariant 0 <= j <= i
      invariant a[..] == prefix[..j] + [x] + prefix[j..] + tail
      invariant Insert(prefix, x) == Insert(prefix[..j], x) + prefix[j..]
      decreases j
    {
      Shape(prefix, x, tail, j);
      Shape(prefix, x, tail, j - 1);
      InsertShift(prefix, x, j);
      SwapShape(prefix, x, tail, j);
      a[j - 1], a[j] := a[j], a[j - 1];
      j := j - 1;
    }
    Shape(prefix, x, tail, j);
  }

  /** The array before insertion, in the shape the loop keeps. */
  lemma InitialShape<T>(s: seq<T>, i: nat)
    requires i < |s|
    ensures s == s[..i][..i] + [s[i]] + s[..i][i..] + s[i + 1..]
  {
    assert s[..i][..i] == s[..i] && s[..i][i..] == [];
    assert s == s[..i] + [s[i]] + s[i + 1..];
  }

  /** Where `x` and the prefix's elements sit in the array during insertion. */
  lemma Shape<T>(prefix: seq<T>, x: T, tail: seq<T>, j: nat)
    requires j <= |prefix|
    ensures var w := prefix[..j] + [x] + prefix[j..] + tail;
      && |w| == |prefix| + 1 + |tail|
      && w[j] == x
      && (j > 0 ==> w[j - 1] == prefix[j - 1])
      && w[..|prefix| + 1] == prefix[..j] + [x] + prefix[j..]
      && w[|prefix| + 1..] == tail
  {
  }

  lemma SwapShape<T>(prefix: seq<T>, x: T, tail: seq<T>, j: nat)
    requires 0 < j <= |prefix|
    ensures (prefix[..j] + [x] + prefix[j..] + tail)[j - 1 := x][j := prefix[j - 1]]
         == prefix[..j - 1] + [x] + prefix[j - 1..] + tail
  {
    var w := (prefix[..j] + [x] + prefix[j..] + tail)[j - 1 := x][j := prefix[j - 1]];
    var v := prefix[..j - 1] + [x] + prefix[j - 1..] + tail;
    assert |w| == |v|;
    forall k | 0 <= k < |w|
      ensures w[k] == v[k]
    {
      if k < j - 1 {
      } else if k == j - 1 {
      } else if k == j {
      } else if k <= |prefix| {
      } else {
      }
    }
  }

  lemma InsertShift(prefix: seq<Source>, x: Source, j: nat)
    requires 0 < j <= |prefix| && Key(prefix[j - 1]) < Key(x)
    requires Insert(prefix, x) == Insert(prefix[..j], x) + prefix[j..]
    ensures Insert(prefix, x) == Insert(prefix[..j - 1], x) + prefix[j - 1..]
  {
    TakeStep(prefix, j - 1);
    assert Insert(prefix[..j], x) == Insert(prefix[..j - 1], x) + [prefix[j - 1]];
    assert [prefix[j - 1]] + prefix[j..] == prefix[j - 1..];
  }

  // ----------------------------------------------------------------- run

  /** `_init_providers`: Tavily when its key is set, then Wikipedia. */
  function Providers(tavilyKey: string): (r: seq<string>)
    ensures |r| >= 1 && r[|r| - 1] == "wikipedia"
    ensures "tavily" in r <==> tavilyKey != ""
  {
    (if tavilyKey != "" then ["tavily"] else []) + ["wikipedia"]
  }

  /** The research entry for one source; `fmt` renders `:.1f`. Each field
      is read back at its fixed offset, and the entry ends with at most 1000
      characters of the content. */
  function Entry(s: Source, fmt: real -> string): (r: string)
    ensures |r| == 55 + |s.title| + |s.url| + |s.provider| + |fmt(s.qualityScore)| + Min(|s.content|, 1000)
    ensures r[..5 + |s.title|] == "\n### " + s.title
    ensures r[5 + |s.title|..18 + |s.title| + |s.url|] == "\n**Source:** " + s.url
    ensures var p := 18 + |s.title| + |s.url|;
      r[p..p + 15 + |s.provider|] == "\n**Provider:** " + s.provider
    ensures var q := 33 + |s.title| + |s.url| + |s.provider|;
      r[q..q + 21 + |fmt(s.qualityScore)|] == " | **Quality:** " + fmt(s.qualityScore) + "/10\n\n"
    ensures r[|r| - Min(|s.content|, 1000) - 1..] == Take(s.content, 1000) + "\n"
  {
    var head := "\n### " + s.title;
    var source := "\n**Source:** " + s.url;
    var provider := "\n**Provider:** " + s.provider;
    var quality := " | **Quality:** " + fmt(s.qualityScore) + "/10\n\n";
    var body := Take(s.content, 1000) + "\n";
    SliceMiddle(head, source, provider + quality + body);
    SliceMiddle(head + source, provider, quality + body);
    SliceMiddle(head + source + provider, quality, body);
    head + source + provider + quality + body
  }

  /** Copies the collected sources into a list and runs `_score_sources`. */
  method ScoreAndSort(collected: seq<Source>, topic: string) returns (sorted: seq<Source>)
    ensures sorted == SortDesc(ScoreAll(collected, topic))
  {
    var a := new Source[|collected|](i requires 0 <= i < |collected| => collected[i]);
    assert a[..] == collected;
    ScoreSources(a, topic);
    sorted := a[..];
  }

  /** The research entries written for the top 15 sources. */
  function Entries(sorted: seq<Source>, fmt: real -> string): (r: seq<string>)
    ensures |r| == Min(15, |sorted|)
    ensures forall k :: 0 <= k < |r| ==> r[k] == Entry(sorted[k], fmt)
  {
    var top := Take(sorted, 15);
    seq(|top|, k requires 0 <= k < |top| => Entry(top[k], fmt))
  }

  /** The formatting loop of `run`: one entry per source among the first 15. */
  method WriteEntries(sorted: seq<Source>, fmt: real -> string) returns (researchData: seq<string>)
    ensures researchData == Entries(sorted, fmt)
  {
    var top := Take(sorted, 15);
    researchData := [];
    for k := 0 to |top|
      invariant |researchData| == k
      invariant forall m :: 0 <= m < k ==> researchData[m] == Entry(top[m], fmt)
    {
      researchData := researchData + [Entry(top[k], fmt)];
    }
    ghost var expected := Entries(sorted, fmt);
    assert forall m :: 0 <= m < |top| ==> researchData[m] == expected[m];
  }

  function RunMessages(queryCount: nat, providerCount: nat, sourceCount: nat): seq<string> {
    [Base.Tag(Name, "Executing " + NatToString(queryCount) + " queries across "
                    + NatToString(providerCount) + " providers"),
     Base.Tag(Name, "Collected " + NatToString(sourceCount) + " sources, selected top 15")]
  }

  /** The sources collected for a plan, before scoring. */
  function Collected(plan: seq<string>, tavilyKey: string, respond: (string, string, nat) -> Option<seq<Source>>,
                     retryAttempts: int, retryDelay: real): seq<Source>
  {
    Concat(TaskResults(Tasks(plan, Providers(tavilyKey)), respond, retryAttempts, retryDelay))
  }

  /** `ResearcherAgent.run`: every collected source is kept, scored and
      sorted; research entries are written for the top 15 only. */
  method Run(s: AgentState, tavilyKey: string, respond: (string, string, nat) -> Option<seq<Source>>,
             retryAttempts: int, retryDelay: real, fmt: real -> string)
    returns (u: Update)
    ensures u.sources == Some(SortDesc(ScoreAll(Collected(s.plan, tavilyKey, respond, retryAttempts, retryDelay), s.topic)))
    ensures u.researchData == Some(Entries(u.sources.value, fmt))
    ensures u.status == Some(Evaluating)
    ensures u.messages == Some(RunMessages(|s.plan|, |Providers(tavilyKey)|, |u.sources.value|))
    ensures u.plan.None? && u.planApproved.None? && u.qualityReport.None?
    ensures u.finalReport.None? && u.revisionNumber.None?
  {
    var providers := Providers(tavilyKey);
    var collected := ExecuteParallelSearches(s.plan, providers, respond, retryAttempts, retryDelay);
    var sorted := ScoreAndSort(collected, s.topic);
    var researchData := WriteEntries(sorted, fmt);
    var messages := RunMessages(|s.plan|, |providers|, |sorted|);
    u := Update(None, None, Some(sorted), Some(researchData), None, None, None, Some(Evaluating), Some(messages));
  }
}
