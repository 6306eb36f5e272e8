/** app-version.service.ts: an append-only table of version settings, its "latest per key" index and its cache. */
module AppVersions {
  import opened Common
  import opened Tables
  import Cache = RedisCache

  datatype Row = Row(appType: string, platform: string, minVersion: string, latestVersion: string, isForceUpdate: bool,
                     isEnabled: bool, updateMessage: Option<string>, createdAt: int)

  datatype Answer = Answer(minVersion: string, latestVersion: string, isForceUpdate: bool, updateMessage: Option<string>)

  const PLATFORMS := {"android", "ios"}
  const SHORT_S := 60
  const LONG_S := 1800

  // ---- Keys ----

  function RowKey(appType: string, platform: string): string { appType + ":" + platform }

  function VersionKey(appType: string, platform: string): string { "app_version:" + RowKey(appType, platform) }

  lemma RowKeyShape(a: string, p: string)
    requires ':' !in p
    ensures var k := RowKey(a, p);
            && |k| == |a| + 1 + |p| && k[|a|] == ':' && k[..|a|] == a && k[|a| + 1..] == p
            && forall i :: |a| < i < |k| ==> k[i] != ':'
  {
    var k := RowKey(a, p);
    forall i | |a| < i < |k| ensures k[i] != ':' {
      assert k[i] == p[i - |a| - 1];
    }
  }

  /** The joined key tells pairs apart because a platform contains no colon. */
  lemma RowKeyInjective(a: string, p: string, a': string, p': string)
    requires ':' !in p && ':' !in p'
    ensures RowKey(a, p) == RowKey(a', p') <==> a == a' && p == p'
  {
    RowKeyShape(a, p);
    RowKeyShape(a', p');
  }

  lemma VersionKeyInjective(a: string, p: string, a': string, p': string)
    requires p in PLATFORMS && p' in PLATFORMS
    ensures VersionKey(a, p) == VersionKey(a', p') <==> a == a' && p == p'
  {
    RowKeyInjective(a, p, a', p');
    if VersionKey(a, p) == VersionKey(a', p') {
      assert RowKey(a, p) == VersionKey(a, p)[|"app_version:"|..];
      assert RowKey(a', p') == VersionKey(a', p')[|"app_version:"|..];
    }
  }

  // ---- The table, newest first ----

  function Insert(row: Row, sorted: seq<Row>): seq<Row> {
    if sorted == [] || row.createdAt >= sorted[0].createdAt then [row] + sorted
    else [sorted[0]] + Insert(row, sorted[1..])
  }

  /** find({ order: { createdAt: 'DESC' } }) over rows in insertion order. */
  function NewestFirst(rows: seq<Row>): seq<Row> {
    if rows == [] then [] else Insert(rows[|rows| - 1], NewestFirst(rows[..|rows| - 1]))
  }

  function Keyed(appType: string, platform: string): Row -> bool {
    (r: Row) => r.appType == appType && r.platform == platform
  }

  function FirstOf(sorted: seq<Row>, appType: string, platform: string): Option<Row> {
    var i := IndexOf(sorted, Keyed(appType, platform));
    if i < 0 then None else Some(sorted[i])
  }

  /** findOne({ where: { appType, platform }, order: { createdAt: 'DESC' } }). */
  function Latest(rows: seq<Row>, appType: string, platform: string): Option<Row> {
    FirstOf(NewestFirst(rows), appType, platform)
  }

  predicate Descending(sorted: seq<Row>) {
    forall i, j :: 0 <= i < j < |sorted| ==> sorted[i].createdAt >= sorted[j].createdAt
  }

  lemma {:induction false} InsertElements(row: Row, sorted: seq<Row>)
    ensures multiset(Insert(row, sorted)) == multiset(sorted) + multiset{row}
  {
    if sorted != [] && row.createdAt < sorted[0].createdAt {
      InsertElements(row, sorted[1..]);
      assert sorted == [sorted[0]] + sorted[1..];
    }
  }

  lemma InsertHead(row: Row, sorted: seq<Row>)
    ensures Insert(row, sorted) != []
    ensures Insert(row, sorted)[0] == if sorted == [] || row.createdAt >= sorted[0].createdAt then row else sorted[0]
  {
  }

  lemma PutFirst(row: Row, sorted: seq<Row>)
    requires Descending(sorted) && sorted != [] && sorted[0].createdAt <= row.createdAt
    ensures Descending([row] + sorted)
  {
  }

  lemma {:induction false} InsertSorted(row: Row, sorted: seq<Row>)
    requires Descending(sorted)
    ensures Descending(Insert(row, sorted))
  {
    if sorted != [] && row.createdAt < sorted[0].createdAt {
      InsertSorted(row, sorted[1..]);
      InsertHead(row, sorted[1..]);
      PutFirst(sorted[0], Insert(row, sorted[1..]));
    }
  }

  lemma {:induction false} NewestFirstSorted(rows: seq<Row>)
    ensures Descending(NewestFirst(rows))
  {
    if rows != [] {
      NewestFirstSorted(rows[..|rows| - 1]);
      InsertSorted(rows[|rows| - 1], NewestFirst(rows[..|rows| - 1]));
    }
  }

  lemma {:induction false} NewestFirstElements(rows: seq<Row>)
    ensures multiset(NewestFirst(rows)) == multiset(rows)
  {
    if rows != [] {
      var before, last := rows[..|rows| - 1], rows[|rows| - 1];
      NewestFirstElements(before);
      InsertElements(last, NewestFirst(before));
      assert multiset(rows) == multiset(before) + multiset{last} by {
        assert rows == before + [last];
      }
    }
  }

  lemma SameRows(rows: seq<Row>)
    ensures forall r :: r in NewestFirst(rows) <==> r in rows
  {
    NewestFirstElements(rows);
    forall r ensures r in NewestFirst(rows) <==> r in rows {
      assert r in multiset(rows) <==> r in multiset(NewestFirst(rows));
    }
  }

  lemma FirstOfDescending(sorted: seq<Row>, appType: string, platform: string)
    requires Descending(sorted)
    ensures match FirstOf(sorted, appType, platform)
            case Some(r) =>
              && r in sorted && Keyed(appType, platform)(r)
              && forall r' :: r' in sorted && Keyed(appType, platform)(r') ==> r'.createdAt <= r.createdAt
            case None => forall r' :: r' in sorted ==> !Keyed(appType, platform)(r')
  {
  }

  /** Latest is the row of that key with the greatest createdAt, and is missing only when the key has no row. */
  lemma LatestIsNewest(rows: seq<Row>, appType: string, platform: string)
    ensures match Latest(rows, appType, platform)
            case Some(r) =>
              && r in rows && Keyed(appType, platform)(r)
              && forall r' :: r' in rows && Keyed(appType, platform)(r') ==> r'.createdAt <= r.createdAt
            case None => forall r' :: r' in rows ==> !Keyed(appType, platform)(r')
  {
    NewestFirstSorted(rows);
    SameRows(rows);
    FirstOfDescending(NewestFirst(rows), appType, platform);
  }

  /** No two different rows of the key were created at the same moment. */
  ghost predicate NoTies(rows: seq<Row>, appType: string, platform: string) {
    forall r, r' ::
      r in rows && r' in rows && Keyed(appType, platform)(r) && Keyed(appType, platform)(r') && r.createdAt == r'.createdAt ==> r == r'
  }

  /** Without ties, whatever order the database sorts equal rows of other keys in, the row read for the key is the same. */
  lemma AnyDescendingOrder(rows: seq<Row>, sorted: seq<Row>, appType: string, platform: string)
    requires NoTies(rows, appType, platform)
    requires Descending(sorted) && forall r :: r in sorted <==> r in rows
    ensures FirstOf(sorted, appType, platform) == Latest(rows, appType, platform)
  {
    LatestIsNewest(rows, appType, platform);
    FirstOfDescending(sorted, appType, platform);
  }

  // ---- checkVersion ----

  function Render(r: Row): Answer {
    if !r.isEnabled then Answer("0.0.0", r.latestVersion, false, None)
    else Answer(r.minVersion, r.latestVersion, r.isForceUpdate, r.updateMessage)
  }

  function Fallback(version: string): Answer { Answer(version, version, false, None) }

  function AnswerFor(latest: Option<Row>, fallback: string): Answer {
    if latest.Some? then Render(latest.value) else Fallback(fallback)
  }

  type Store = map<string, Cache.Entry<Answer>>

  datatype Faults = Faults(getFails: bool, setFails: bool, dbFails: bool)

  /** The answer, and the cache entry it leaves behind. */
  function Checked(rows: seq<Row>, store: Store, appType: string, platform: string, fallback: string, now: int, f: Faults)
    : (Store, Result<Answer, Fault>)
  {
    if platform !in PLATFORMS then (store, Failure(BadRequest))
    else
      var key := VersionKey(appType, platform);
      var cached := if f.getFails then None else Cache.Live(Cache.At(store, key), now);
      if cached.Some? then (store, Success(cached.value))
      else if f.dbFails then (store, Success(Fallback(fallback)))
      else
        var latest := Latest(rows, appType, platform);
        var answer := AnswerFor(latest, fallback);
        var ttl := if latest.None? then SHORT_S else LONG_S;
        (if f.setFails then store else store[key := Cache.Fresh(answer, ttl, now)], Success(answer))
  }

  /** What a client is told about a row: a disabled one asks for nothing but names its latest version. */
  predicate Tells(a: Answer, r: Row) {
    && a.latestVersion == r.latestVersion
    && a.minVersion == (if r.isEnabled then r.minVersion else "0.0.0")
    && (a.isForceUpdate <==> r.isEnabled && r.isForceUpdate)
    && a.updateMessage == (if r.isEnabled then r.updateMessage else None)
  }

  predicate TellsFallback(a: Answer, version: string) {
    a.minVersion == version && a.latestVersion == version && !a.isForceUpdate && a.updateMessage == None
  }

  /** Only Android and iOS are known. */
  lemma KnownPlatforms(rows: seq<Row>, store: Store, appType: string, platform: string, fallback: string, now: int, f: Faults)
    ensures Checked(rows, store, appType, platform, fallback, now, f).1 == Failure(BadRequest)
            <==> platform != "android" && platform != "ios"
  {
  }

  /** Past an empty cache the four fields come from the latest row and stay 30 minutes, or from the fallback and stay one. */
  lemma AnswerFields(rows: seq<Row>, store: Store, appType: string, platform: string, fallback: string, now: int, f: Faults)
    requires platform in PLATFORMS && VersionKey(appType, platform) !in store
    ensures var (store', a) := Checked(rows, store, appType, platform, fallback, now, f);
            var key, latest := VersionKey(appType, platform), Latest(rows, appType, platform);
            && a.Success?
            && (f.dbFails ==> TellsFallback(a.value, fallback) && store' == store)
            && (!f.dbFails && latest.Some? ==> Tells(a.value, latest.value))
            && (!f.dbFails && latest.None? ==> TellsFallback(a.value, fallback))
            && (!f.dbFails && !f.setFails ==>
                  store' == store[key := Cache.Entry(a.value, Some(now + if latest.Some? then 1800000 else 60000))])
  {
  }

  /** updateSettings, with the save and the cache delete as one step. */
  function Updated(rows: seq<Row>, store: Store, row: Row): (seq<Row>, Store) {
    (rows + [row], store - {VersionKey(row.appType, row.platform)})
  }

  /** Every cached entry is the rendering of the latest row for its key, or a fallback when there is none. */
  ghost predicate CacheAgrees(rows: seq<Row>, store: Store) {
    forall a: string, p: string :: p in PLATFORMS && VersionKey(a, p) in store ==>
      Agrees(Latest(rows, a, p), store[VersionKey(a, p)].value)
  }

  ghost predicate Agrees(latest: Option<Row>, answer: Answer) {
    if latest.Some? then answer == Render(latest.value) else exists v :: answer == Fallback(v)
  }

  lemma CheckKeepsAgreement(rows: seq<Row>, store: Store, appType: string, platform: string, fallback: string, now: int, f: Faults)
    requires CacheAgrees(rows, store)
    ensures var (store', r) := Checked(rows, store, appType, platform, fallback, now, f);
            && CacheAgrees(rows, store')
            && (r.Failure? <==> platform !in PLATFORMS)
            && (r.Success? && !f.dbFails ==> Agrees(Latest(rows, appType, platform), r.value))
  {
    var (store', r) := Checked(rows, store, appType, platform, fallback, now, f);
    if r.Success? {
      var key := VersionKey(appType, platform);
      assert key in store ==> Agrees(Latest(rows, appType, platform), store[key].value);
      forall a: string, p: string | p in PLATFORMS && VersionKey(a, p) in store'
        ensures Agrees(Latest(rows, a, p), store'[VersionKey(a, p)].value)
      {
        VersionKeyInjective(a, p, appType, platform);
        if VersionKey(a, p) in store {
          assert Agrees(Latest(rows, a, p), store[VersionKey(a, p)].value);
        }
      }
    }
  }

  lemma {:induction false} InsertOther(row: Row, sorted: seq<Row>, appType: string, platform: string)
    requires !Keyed(appType, platform)(row)
    ensures FirstOf(Insert(row, sorted), appType, platform) == FirstOf(sorted, appType, platform)
  {
    if sorted == [] || row.createdAt >= sorted[0].createdAt {
      assert ([row] + sorted)[1..] == sorted;
    } else {
      InsertOther(row, sorted[1..], appType, platform);
      assert Insert(row, sorted)[1..] == Insert(row, sorted[1..]);
    }
  }

  lemma UpdateKeepsAgreement(rows: seq<Row>, store: Store, row: Row)
    requires CacheAgrees(rows, store) && row.platform in PLATFORMS
    ensures CacheAgrees(Updated(rows, store, row).0, Updated(rows, store, row).1)
  {
    var (rows', store') := Updated(rows, store, row);
    assert rows'[..|rows|] == rows;
    forall a: string, p: string | p in PLATFORMS && VersionKey(a, p) in store'
      ensures Agrees(Latest(rows', a, p), store'[VersionKey(a, p)].value)
    {
      VersionKeyInjective(a, p, row.appType, row.platform);
      InsertOther(row, NewestFirst(rows), a, p);
      assert Agrees(Latest(rows, a, p), store[VersionKey(a, p)].value);
    }
  }

  // ---- Runs ----

  datatype Call =
    | Check(appType: string, platform: string, fallback: string, now: int, faults: Faults)
    | Save(row: Row)

  /** The DTO admits only the known platforms. */
  predicate Valid(c: Call) { c.Save? ==> c.row.platform in PLATFORMS }

  function Run(calls: seq<Call>): (seq<Row>, Store) {
    if calls == [] then ([], map[])
    else
      var (rows, store) := Run(calls[..|calls| - 1]);
      match calls[|calls| - 1]
      case Check(a, p, v, now, f) => (rows, Checked(rows, store, a, p, v, now, f).0)
      case Save(row) => Updated(rows, store, row)
  }

  /** After every run the cache agrees with the index, expired entries included. */
  lemma {:induction false} CacheAgreesAlways(calls: seq<Call>)
    requires forall k :: 0 <= k < |calls| ==> Valid(calls[k])
    ensures CacheAgrees(Run(calls).0, Run(calls).1)
  {
    if calls != [] {
      var before, last := calls[..|calls| - 1], calls[|calls| - 1];
      CacheAgreesAlways(before);
      assert Valid(last);
      match last
      case Check(a, p, v, now, f) => CheckKeepsAgreement(Run(before).0, Run(before).1, a, p, v, now, f);
      case Save(row) => UpdateKeepsAgreement(Run(before).0, Run(before).1, row);
    }
  }

  // ---- In the source's own form ----

  function KeyOf(r: Row): string { RowKey(r.appType, r.platform) }

  ghost predicate HasKey(current: seq<Row>, key: string) {
    exists k :: 0 <= k < |current| && KeyOf(current[k]) == key
  }

  ghost predicate Indexed(current: seq<Row>, r: Row) {
    exists k :: 0 <= k < |current| && Keyed(r.appType, r.platform)(current[k])
  }

  predicate FirstKeyAt(all: seq<Row>, i: int, r: Row) {
    0 <= i < |all| && all[i] == r && forall j :: 0 <= j < i ==> KeyOf(all[j]) != KeyOf(r)
  }

  ghost predicate IsFirst(all: seq<Row>, r: Row) { exists i :: FirstKeyAt(all, i, r) }

  /** getCurrentSettings' loop over the rows, newest first: exactly one row per joined key, the first of that key. */
  method CurrentOf(all: seq<Row>) returns (current: seq<Row>)
    ensures forall k :: 0 <= k < |current| ==> IsFirst(all, current[k])
    ensures forall k, l :: 0 <= k < l < |current| ==> KeyOf(current[k]) != KeyOf(current[l])
    ensures forall i :: 0 <= i < |all| ==> HasKey(current, KeyOf(all[i]))
  {
    var seen: set<string> := {};
    current := [];
    for i := 0 to |all|
      invariant forall j :: 0 <= j < i ==> KeyOf(all[j]) in seen
      invariant forall k :: 0 <= k < |current| ==> KeyOf(current[k]) in seen && IsFirst(all, current[k])
      invariant forall k, l :: 0 <= k < l < |current| ==> KeyOf(current[k]) != KeyOf(current[l])
      invariant forall key <- seen :: HasKey(current, key)
    {
      var row := all[i];
      if KeyOf(row) !in seen {
        assert FirstKeyAt(all, i, row);
        Grow(current, row, seen);
        seen := seen + {KeyOf(row)};
        current := current + [row];
      }
    }
  }

  /** Joined keys and key pairs say the same. */
  lemma FirstIsFirst(all: seq<Row>, r: Row)
    requires forall i :: 0 <= i < |all| ==> ':' !in all[i].platform
    requires IsFirst(all, r)
    ensures FirstOf(all, r.appType, r.platform) == Some(r)
  {
    var i :| FirstKeyAt(all, i, r);
    var mine := Keyed(r.appType, r.platform);
    assert mine(all[i]);
    assert forall j :: 0 <= j < i ==> !mine(all[j]);
  }

  lemma KeyedByKey(current: seq<Row>, r: Row)
    requires HasKey(current, KeyOf(r)) && ':' !in r.platform
    requires forall k :: 0 <= k < |current| ==> ':' !in current[k].platform
    ensures Indexed(current, r)
  {
    var k :| 0 <= k < |current| && KeyOf(current[k]) == KeyOf(r);
    RowKeyInjective(current[k].appType, current[k].platform, r.appType, r.platform);
  }

  lemma Grow(current: seq<Row>, row: Row, seen: set<string>)
    requires forall key <- seen :: HasKey(current, key)
    ensures forall key <- seen + {KeyOf(row)} :: HasKey(current + [row], key)
  {
    forall key | key in seen + {KeyOf(row)} ensures HasKey(current + [row], key) {
      if key in seen {
        var k :| 0 <= k < |current| && KeyOf(current[k]) == key;
        assert KeyOf((current + [row])[k]) == key;
      } else {
        assert KeyOf((current + [row])[|current|]) == key;
      }
    }
  }

  class AppVersionService {
    const cache: Cache.RedisCache<Answer>
    var rows: seq<Row>

    constructor (cache: Cache.RedisCache<Answer>)
      ensures this.cache == cache && rows == []
    {
      this.cache, rows := cache, [];
    }

    method CheckVersion(appType: string, platform: string, fallback: string, now: int, f: Faults)
      returns (r: Result<Answer, Fault>)
      modifies cache
      ensures var faults := Faults(f.getFails || !cache.isConnected, f.setFails || !cache.isConnected, f.dbFails);
              (cache.store, r) == Checked(rows, old(cache.store), appType, platform, fallback, now, faults)
    {
      if platform !in PLATFORMS { return Failure(BadRequest); }
      var key := VersionKey(appType, platform);
      var cached := cache.Get(key, now, f.getFails);
      if cached.Some? { return Success(cached.value); }
      if f.dbFails { return Success(Fallback(fallback)); }
      var settings := Latest(rows, appType, platform);
      if settings.None? {
        cache.Set(key, Fallback(fallback), SHORT_S, now, f.setFails);
        return Success(Fallback(fallback));
      }
      var result := Render(settings.value);
      cache.Set(key, result, LONG_S, now, f.setFails);
      return Success(result);
    }

    /** One row per key, and for every key the very row CheckVersion reads. */
    method GetCurrentSettings() returns (current: seq<Row>)
      requires forall i :: 0 <= i < |rows| ==> rows[i].platform in PLATFORMS
      ensures forall k :: 0 <= k < |current| ==> Latest(rows, current[k].appType, current[k].platform) == Some(current[k])
      ensures forall k, l :: 0 <= k < l < |current| ==> KeyOf(current[k]) != KeyOf(current[l])
      ensures forall i :: 0 <= i < |rows| ==> Indexed(current, rows[i])
    {
      var all := NewestFirst(rows);
      SameRows(rows);
      forall i | 0 <= i < |all| ensures ':' !in all[i].platform {
        assert all[i] in rows;
      }
      current := CurrentOf(all);
      forall k | 0 <= k < |current|
        ensures ':' !in current[k].platform && FirstOf(all, current[k].appType, current[k].platform) == Some(current[k])
      {
        FirstIsFirst(all, current[k]);
      }
      forall i | 0 <= i < |rows| ensures Indexed(current, rows[i]) {
        assert rows[i] in all;
        KeyedByKey(current, rows[i]);
      }
    }

    method UpdateSettings(row: Row, delFails: bool)
      requires row.platform in PLATFORMS
      modifies this, cache
      ensures rows == Updated(old(rows), old(cache.store), row).0
      ensures cache.store == if cache.isConnected && !delFails then Updated(old(rows), old(cache.store), row).1 else old(cache.store)
    {
      rows := rows + [row];
      cache.Del(VersionKey(row.appType, row.platform), delFails);
    }
  }
}
