/** The search cache and session store (src/tools/cache.py). The two SQLite
    tables are maps keyed by their primary keys; `datetime.now()` is an
    integer number of seconds passed to every operation that reads the
    clock; the stored JSON is kept as a `Value`. */
module Cache {
  import opened Text
  import opened Json

  // ------------------------------------------------------------------ keys

  /** The cache key of `_hash_query` before hashing: the lowered and stripped
      query, a colon, and the provider name. The SHA-256 digest is taken to
      be injective on these strings. The key never opens with whitespace and
      always closes with the colon and the provider. */
  function CacheKey(query: string, provider: string): (k: string)
    ensures |k| > |provider| && k[|k| - |provider| - 1..] == ":" + provider
    ensures !IsSpace(k[0])
  {
    var q := Strip(Lower(query));
    assert q == [] || !IsSpace(q[0]) by {
      var left := LStrip(Lower(query));
      assert q == left[..|q|];
    }
    DropPast(q, ":" + provider, 0);
    q + (":" + provider)
  }

  /** Queries that differ only in letter case or in whitespace padding on
      either side share a cache entry. */
  lemma KeyIgnoresCaseAndPadding(pre: string, query: string, post: string, provider: string)
    requires AllSpace(pre) && AllSpace(post)
    ensures CacheKey(Upper(query), provider) == CacheKey(query, provider)
    ensures CacheKey(Lower(query), provider) == CacheKey(query, provider)
    ensures CacheKey(pre + query + post, provider) == CacheKey(query, provider)
  {
    LowerUpper(query);
    LowerConcat(pre + query, post);
    LowerConcat(pre, query);
    LowerSpaces(pre);
    LowerSpaces(post);
    StripPadding(pre, Lower(query), post);
  }

  /** For provider names without a colon, two keys coincide exactly when the
      normalised queries and the providers do: entries of different
      providers never collide. */
  lemma {:induction false} KeyInjective(q1: string, p1: string, q2: string, p2: string)
    requires ':' !in p1 && ':' !in p2
    ensures CacheKey(q1, p1) == CacheKey(q2, p2) <==> Strip(Lower(q1)) == Strip(Lower(q2)) && p1 == p2
  {
    if CacheKey(q1, p1) == CacheKey(q2, p2) {
      ColonSuffix(Strip(Lower(q1)), p1, Strip(Lower(q2)), p2);
    }
  }

  /** The text after the last colon of `a:p` is `p` when `p` has no colon. */
  lemma ColonSuffix(a: string, p: string, b: string, q: string)
    requires ':' !in p && ':' !in q
    requires a + (":" + p) == b + (":" + q)
    ensures a == b && p == q
  {
    ConcatAssoc(a, ":", p);
    ConcatAssoc(b, ":", q);
    var k := a + ":" + p;
    var n := |k|;
    assert k[n - |p| - 1] == ':' && (b + ":" + q)[n - |q| - 1] == ':';
    assert (b + ":" + q)[n - |p| - 1] == ':';
    assert k[n - |q| - 1] == ':';
    assert |q| <= |p| && |p| <= |q|;
    assert p == k[n - |p|..];
    assert q == (b + ":" + q)[n - |q|..];
    assert a == k[..|a|];
    assert b == (b + ":" + q)[..|b|];
  }

  // --------------------------------------------------------------- tables

  /** A row of `search_cache` (its key is the map key). */
  datatype Entry = Entry(query: string, provider: string, results: Value, createdAt: int, expiresAt: int)

  /** A row of `research_sessions` (its key is the map key). */
  datatype Session = Session(topic: string, state: Value, createdAt: int, updatedAt: int)

  /** A row of `list_sessions`. */
  datatype SessionRow = SessionRow(sessionId: string, topic: string, createdAt: int, updatedAt: int)

  const SecondsPerHour: int := 3600

  /** What a read at time `now` returns: a hit only while the entry has not
      reached its expiry time. */
  function Lookup(table: map<string, Entry>, key: string, now: int): (r: Option<Value>)
    ensures r.Some? <==> key in table && table[key].expiresAt > now
    ensures r.Some? ==> r.value == table[key].results
  {
    if key in table && table[key].expiresAt > now then Some(table[key].results) else None
  }

  /** The table after a read at time `now`: an expired entry for the key is
      deleted, and nothing else changes. */
  function AfterRead(table: map<string, Entry>, key: string, now: int): (t: map<string, Entry>)
    ensures key in table && table[key].expiresAt <= now ==> t == table - {key}
    ensures !(key in table && table[key].expiresAt <= now) ==> t == table
  {
    if key in table && table[key].expiresAt <= now then table - {key} else table
  }

  /** The table after `clear_expired` at time `now`: exactly the entries whose
      expiry is strictly before `now` are gone. */
  function Live(table: map<string, Entry>, now: int): (t: map<string, Entry>)
    ensures forall k :: k in t <==> k in table && table[k].expiresAt >= now
    ensures forall k :: k in t ==> t[k] == table[k]
  {
    map k | k in table && table[k].expiresAt >= now :: table[k]
  }

  /** The sessions table after `save_session`: an existing session keeps its
      creation time, a new one is created now, and both are updated now. */
  function Saved(sessions: map<string, Session>, id: string, topic: string, state: Value, now: int)
    : (t: map<string, Session>)
    ensures id in t && t[id].topic == topic && t[id].state == state && t[id].updatedAt == now
    ensures t[id].createdAt == (if id in sessions then sessions[id].createdAt else now)
    ensures forall k :: k != id ==> (k in t <==> k in sessions)
    ensures forall k :: k != id && k in sessions ==> t[k] == sessions[k]
  {
    var created := if id in sessions then sessions[id].createdAt else now;
    sessions[id := Session(topic, state, created, now)]
  }

  // -------------------------------------------------------------- lemmas

  /** Results stored at time `t0` are read back unchanged until the time to
      live has passed, whatever was cached under that key before. */
  lemma PutThenGet(table: map<string, Entry>, key: string, e: Entry, now: int)
    requires e.expiresAt > now
    ensures Lookup(table[key := e], key, now) == Some(e.results)
    ensures AfterRead(table[key := e], key, now) == table[key := e]
  {
  }

  /** Caching under one key never changes what a read of another key sees. */
  lemma PutIsolated(table: map<string, Entry>, key: string, e: Entry, other: string, now: int)
    requires other != key
    ensures Lookup(table[key := e], other, now) == Lookup(table, other, now)
  {
  }

  /** A read never changes what a later read at the same time sees. */
  lemma ReadIdempotent(table: map<string, Entry>, key: string, other: string, now: int)
    ensures Lookup(AfterRead(table, key, now), other, now) == Lookup(table, other, now)
  {
  }

  /** Clearing expired entries never changes what a read at the same time
      returns. */
  lemma ClearPreservesReads(table: map<string, Entry>, key: string, now: int)
    ensures Lookup(Live(table, now), key, now) == Lookup(table, key, now)
  {
  }

  /** The two expiry tests disagree at the boundary: an entry expiring exactly
      now survives `clear_expired` although a read already treats it as a
      miss. */
  lemma BoundaryEntrySurvivesClear(table: map<string, Entry>, key: string, now: int)
    requires key in table && table[key].expiresAt == now
    ensures key in Live(table, now)
    ensures Lookup(table, key, now) == None
    ensures key !in AfterRead(table, key, now)
  {
  }

  /** Saving twice keeps the first creation time and the last topic, state
      and update time. */
  lemma SaveTwice(sessions: map<string, Session>, id: string, t1: string, s1: Value, n1: int,
                  t2: string, s2: Value, n2: int)
    ensures var after := Saved(Saved(sessions, id, t1, s1, n1), id, t2, s2, n2);
      && after[id].topic == t2 && after[id].state == s2 && after[id].updatedAt == n2
      && after[id].createdAt == (if id in sessions then sessions[id].createdAt else n1)
  {
  }

  // ------------------------------------------------------------- listing

  function RowOf(id: string, s: Session): SessionRow {
    SessionRow(id, s.topic, s.createdAt, s.updatedAt)
  }

  /** Rows ordered from the most recently updated. */
  predicate NewestFirst(rows: seq<SessionRow>) {
    forall i, j :: 0 <= i <= j < |rows| ==> rows[i].updatedAt >= rows[j].updatedAt
  }

  /** `rows` inserted into newest-first `sorted` before the first older row. */
  function InsertRow(row: SessionRow, sorted: seq<SessionRow>): (r: seq<SessionRow>)
    ensures multiset(r) == multiset(sorted) + multiset{row}
    ensures |r| == |sorted| + 1
  {
    if sorted == [] || row.updatedAt >= sorted[0].updatedAt then [row] + sorted
    else
      assert sorted == [sorted[0]] + sorted[1..];
      [sorted[0]] + InsertRow(row, sorted[1..])
  }

  lemma {:induction false} InsertRowNewestFirst(row: SessionRow, sorted: seq<SessionRow>)
    requires NewestFirst(sorted)
    ensures NewestFirst(InsertRow(row, sorted))
  {
    if sorted == [] || row.updatedAt >= sorted[0].updatedAt {
    } else {
      InsertRowNewestFirst(row, sorted[1..]);
      InsertRowAtMost(row, sorted[1..], sorted[0].updatedAt);
      ConsNewestFirst(sorted[0], InsertRow(row, sorted[1..]));
    }
  }

  /** No row of `rows` was updated after `t`. */
  predicate AllAtMost(rows: seq<SessionRow>, t: int) {
    forall k :: 0 <= k < |rows| ==> rows[k].updatedAt <= t
  }

  lemma {:induction false} InsertRowAtMost(row: SessionRow, sorted: seq<SessionRow>, t: int)
    requires AllAtMost(sorted, t) && row.updatedAt <= t
    ensures AllAtMost(InsertRow(row, sorted), t)
  {
    if sorted != [] && row.updatedAt < sorted[0].updatedAt {
      InsertRowAtMost(row, sorted[1..], t);
    }
  }

  lemma ConsNewestFirst(first: SessionRow, rest: seq<SessionRow>)
    requires NewestFirst(rest) && AllAtMost(rest, first.updatedAt)
    ensures NewestFirst([first] + rest)
  {
  }


  /** The rows in `ORDER BY updated_at DESC` order. */
  function SortRows(rows: seq<SessionRow>): (r: seq<SessionRow>)
    ensures multiset(r) == multiset(rows)
    ensures |r| == |rows|
  {
    if rows == [] then []
    else
      assert rows == [rows[0]] + rows[1..];
      InsertRow(rows[0], SortRows(rows[1..]))
  }

  lemma {:induction false} SortRowsNewestFirst(rows: seq<SessionRow>)
    ensures NewestFirst(SortRows(rows))
  {
    if rows != [] {
      SortRowsNewestFirst(rows[1..]);
      InsertRowNewestFirst(rows[0], SortRows(rows[1..]));
    }
  }

  /** The session ids a listing names. */
  function RowIds(rows: seq<SessionRow>): set<string> {
    set i | 0 <= i < |rows| :: rows[i].sessionId
  }

  /** SQLite's `LIMIT`: a negative limit means no limit. */
  function LimitCount(limit: int, total: nat): nat {
    if limit < 0 then total else Min(limit, total)
  }

  /** Every row is the listing of a stored session. */
  predicate FromTable(rows: seq<SessionRow>, sessions: map<string, Session>) {
    forall i :: 0 <= i < |rows| ==>
      rows[i].sessionId in sessions && rows[i] == RowOf(rows[i].sessionId, sessions[rows[i].sessionId])
  }

  /** No session is listed twice. */
  predicate DistinctIds(rows: seq<SessionRow>) {
    forall i, j :: 0 <= i < j < |rows| ==> rows[i].sessionId != rows[j].sessionId
  }

  /** Every stored session is listed. */
  predicate Covers(rows: seq<SessionRow>, sessions: map<string, Session>) {
    forall id :: id in sessions ==> RowOf(id, sessions[id]) in rows
  }

  /** Sorting a complete listing keeps it complete and duplicate-free. */
  lemma SortKeepsTable(rows: seq<SessionRow>, sessions: map<string, Session>)
    requires FromTable(rows, sessions) && DistinctIds(rows) && Covers(rows, sessions)
    ensures var sorted := SortRows(rows);
      && NewestFirst(sorted) && FromTable(sorted, sessions) && DistinctIds(sorted)
      && Covers(sorted, sessions) && |sorted| == |rows|
  {
    var sorted := SortRows(rows);
    SortRowsNewestFirst(rows);
    forall i | 0 <= i < |sorted|
      ensures sorted[i].sessionId in sessions && sorted[i] == RowOf(sorted[i].sessionId, sessions[sorted[i].sessionId])
    {
      assert sorted[i] in multiset(rows);
    }
    forall i, j | 0 <= i < j < |sorted|
      ensures sorted[i].sessionId != sorted[j].sessionId
    {
      DistinctAfterSort(rows, sorted, i, j);
    }
    forall id | id in sessions
      ensures RowOf(id, sessions[id]) in sorted
    {
      assert RowOf(id, sessions[id]) in multiset(rows);
    }
  }

  /** The first `n` rows of a complete newest-first listing are the `n` most
      recently updated sessions. */
  lemma TopRows(sorted: seq<SessionRow>, n: nat, sessions: map<string, Session>)
    requires NewestFirst(sorted) && FromTable(sorted, sessions) && DistinctIds(sorted) && Covers(sorted, sessions)
    requires n <= |sorted|
    ensures var r := sorted[..n];
      && NewestFirst(r) && FromTable(r, sessions) && DistinctIds(r)
      && (r != [] ==> forall id :: id in sessions && id !in RowIds(r) ==>
            sessions[id].updatedAt <= r[|r| - 1].updatedAt)
  {
    var r := sorted[..n];
    PrefixKeepsTable(sorted, n, sessions);
    if r != [] {
      forall p | 0 <= p < n
        ensures sorted[p].sessionId in RowIds(r)
      {
        assert r[p] == sorted[p];
      }
      forall id | id in sessions && id !in RowIds(r)
        ensures sessions[id].updatedAt <= r[|r| - 1].updatedAt
      {
        var p :| 0 <= p < |sorted| && sorted[p] == RowOf(id, sessions[id]);
        assert n <= p;
        assert r[|r| - 1] == sorted[n - 1];
      }
    }
  }

  lemma PrefixKeepsTable(sorted: seq<SessionRow>, n: nat, sessions: map<string, Session>)
    requires NewestFirst(sorted) && FromTable(sorted, sessions) && DistinctIds(sorted)
    requires n <= |sorted|
    ensures NewestFirst(sorted[..n]) && FromTable(sorted[..n], sessions) && DistinctIds(sorted[..n])
  {
  }

  // ---------------------------------------------------------------- class

  class ResearchCache {
    const ttlHours: int
    var searchCache: map<string, Entry>
    var sessions: map<string, Session>

    /** Opening the database: the tables keep whatever they already hold. */
    constructor (ttlHours: int, searchCache: map<string, Entry>, sessions: map<string, Session>)
      ensures this.ttlHours == ttlHours
      ensures this.searchCache == searchCache && this.sessions == sessions
    {
      this.ttlHours := ttlHours;
      this.searchCache := searchCache;
      this.sessions := sessions;
    }

    /** `get_cached_results`. */
    method GetCachedResults(query: string, provider: string, now: int) returns (r: Option<Value>)
      modifies this
      ensures r == Lookup(old(searchCache), CacheKey(query, provider), now)
      ensures searchCache == AfterRead(old(searchCache), CacheKey(query, provider), now)
      ensures sessions == old(sessions)
    {
      var key := CacheKey(query, provider);
      r := None;
      if key in searchCache {
        var row := searchCache[key];
        if row.expiresAt > now {
          r := Some(row.results);
        } else {
          searchCache := searchCache - {key};
        }
      }
    }

    /** `cache_results`: insert or replace, expiring `ttl_hours` from now. */
    method CacheResults(query: string, provider: string, results: Value, now: int)
      modifies this
      ensures searchCache == old(searchCache)[CacheKey(query, provider) :=
                Entry(query, provider, results, now, now + ttlHours * SecondsPerHour)]
      ensures sessions == old(sessions)
    {
      var key := CacheKey(query, provider);
      searchCache := searchCache[key := Entry(query, provider, results, now, now + ttlHours * SecondsPerHour)];
    }

    /** `save_session`. */
    method SaveSession(id: string, topic: string, state: Value, now: int)
      modifies this
      ensures sessions == Saved(old(sessions), id, topic, state, now)
      ensures searchCache == old(searchCache)
    {
      var created := if id in sessions then sessions[id].createdAt else now;
      sessions := sessions[id := Session(topic, state, created, now)];
    }

    /** `load_session`: the stored topic and state, if the session exists. */
    method LoadSession(id: string) returns (r: Option<(string, Value)>)
      ensures r.Some? <==> id in sessions
      ensures r.Some? ==> r.value == (sessions[id].topic, sessions[id].state)
    {
      if id in sessions {
        r := Some((sessions[id].topic, sessions[id].state));
      } else {
        r := None;
      }
    }

    /** `list_sessions`: at most `limit` sessions, newest update first, and
        no session left out is newer than the last one listed. */
    method ListSessions(limit: int) returns (r: seq<SessionRow>)
      ensures |r| == LimitCount(limit, |sessions|)
      ensures NewestFirst(r) && FromTable(r, sessions) && DistinctIds(r)
      ensures r != [] ==> forall id :: id in sessions && id !in RowIds(r) ==>
        sessions[id].updatedAt <= r[|r| - 1].updatedAt
    {
      var rows := CollectRows();
      var sorted := SortRows(rows);
      SortKeepsTable(rows, sessions);
      r := sorted[..LimitCount(limit, |sorted|)];
      TopRows(sorted, |r|, sessions);
    }

    /** Every session as a row, each once, in some order. */
    method CollectRows() returns (rows: seq<SessionRow>)
      ensures |rows| == |sessions|
      ensures FromTable(rows, sessions) && DistinctIds(rows) && Covers(rows, sessions)
    {
      rows := [];
      var remaining := sessions.Keys;
      while remaining != {}
        invariant remaining <= sessions.Keys
        invariant |rows| + |remaining| == |sessions|
        invariant forall i :: 0 <= i < |rows| ==>
          rows[i].sessionId in sessions && rows[i].sessionId !in remaining
          && rows[i] == RowOf(rows[i].sessionId, sessions[rows[i].sessionId])
        invariant forall i, j :: 0 <= i < j < |rows| ==> rows[i].sessionId != rows[j].sessionId
        invariant forall id :: id in sessions && id !in remaining ==> RowOf(id, sessions[id]) in rows
        decreases |remaining|
      {
        var id :| id in remaining;
        rows := rows + [RowOf(id, sessions[id])];
        remaining := remaining - {id};
      }
    }

    /** `clear_expired`. */
    method ClearExpired(now: int)
      modifies this
      ensures searchCache == Live(old(searchCache), now)
      ensures sessions == old(sessions)
    {
      searchCache := map k | k in searchCache && searchCache[k].expiresAt >= now :: searchCache[k];
    }
  }

  /** Sorting rows whose ids are distinct keeps them distinct. */
  lemma DistinctAfterSort(rows: seq<SessionRow>, sorted: seq<SessionRow>, i: int, j: int)
    requires multiset(sorted) == multiset(rows)
    requires forall a, b :: 0 <= a < b < |rows| ==> rows[a].sessionId != rows[b].sessionId
    requires 0 <= i < j < |sorted|
    ensures sorted[i].sessionId != sorted[j].sessionId
  {
    assert |sorted| == |rows| by {
      assert |multiset(sorted)| == |multiset(rows)|;
    }
    if sorted[i].sessionId == sorted[j].sessionId {
      assert sorted[i] in multiset(rows) && sorted[j] in multiset(rows);
      var a :| 0 <= a < |rows| && rows[a] == sorted[i];
      var b :| 0 <= b < |rows| && rows[b] == sorted[j];
      if a == b {
        // the same row twice in `sorted` but once in `rows`
        assert sorted[i] == sorted[j];
        var x := sorted[i];
        MultisetCountTwo(sorted, i, j);
        MultisetCountOne(rows, a);
        assert false;
      }
    }
  }

  lemma MultisetCountTwo<T>(s: seq<T>, i: int, j: int)
    requires 0 <= i < j < |s| && s[i] == s[j]
    ensures multiset(s)[s[i]] >= 2
  {
    assert s == s[..i] + [s[i]] + s[i + 1..j] + [s[j]] + s[j + 1..];
  }

  lemma MultisetCountOne(rows: seq<SessionRow>, a: int)
    requires 0 <= a < |rows|
    requires forall x, y :: 0 <= x < y < |rows| ==> rows[x].sessionId != rows[y].sessionId
    ensures multiset(rows)[rows[a]] == 1
  {
    assert rows == rows[..a] + [rows[a]] + rows[a + 1..];
    assert rows[a] !in multiset(rows[..a]);
    assert rows[a] !in multiset(rows[a + 1..]);
  }
}
