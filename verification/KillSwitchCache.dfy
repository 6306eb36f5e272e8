/**
 * How stale a kill-switch record can be: every instance reads through its own cache, then Redis, then the
 * database (kill-switch.service.ts:286-310). Redis calls may fail and deletes may be lost.
 */
module KillSwitchCache {
  import opened Common
  import opened KillSwitch
  import Cache = RedisCache

  const L1_MS := 5000
  const L2_SECONDS := 60
  const KEY := "kill_switch:status"

  /** One instance's cachedRecord and cacheExpiry. */
  datatype Local = Local(record: Option<Record>, expiry: int)

  const COLD := Local(None, 0)

  datatype Write = Write(at: int, record: Record)

  /** The database row as the history of its saves, the shared Redis entry, every instance, and a shared clock. */
  datatype World = World(history: seq<Write>, redis: Option<Cache.Entry<Record>>, locals: map<Id, Local>, now: int)

  type Populated = w: World | |w.history| > 0 witness World([Write(0, NEW_RECORD)], None, map[], 0)

  function Stored(w: Populated): Record { w.history[|w.history| - 1].record }

  function LocalOf(w: World, inst: Id): Local { if inst in w.locals then w.locals[inst] else COLD }

  // ---- getCachedRecord ----

  datatype ReadResult = ReadResult(local: Local, redis: Option<Cache.Entry<Record>>, record: Option<Record>)

  /** One getCachedRecord call; `stored` is the database row, None while the table is empty. */
  function ReadThrough(local: Local, redis: Option<Cache.Entry<Record>>, stored: Option<Record>, now: int,
                       getFails: bool, setFails: bool): (r: ReadResult)
    ensures stored.Some? ==> r.record.Some?
  {
    if now < local.expiry && local.record.Some? then ReadResult(local, redis, local.record)
    else
      var shared := if getFails then None else Cache.Live(redis, now);
      var record := if shared.Some? then shared else stored;
      var redis' := if shared.None? && record.Some? && !setFails
                    then Some(Cache.Fresh(record.value, L2_SECONDS, now)) else redis;
      ReadResult(Local(record, now + L1_MS), redis', record)
  }

  /**
   * The levels in their order: a warm local record is returned and nothing is asked; else a live Redis entry, if Redis answers;
   * only then the database, whose record goes into Redis for a minute. Whatever is read is kept locally for five seconds.
   */
  lemma ReadOrder(local: Local, redis: Option<Cache.Entry<Record>>, stored: Option<Record>, now: int, getFails: bool, setFails: bool)
    ensures var r := ReadThrough(local, redis, stored, now, getFails, setFails);
            var live := redis.Some? && (redis.value.expires.Some? ==> now < redis.value.expires.value);
            && (local.record.Some? && now < local.expiry ==> r == ReadResult(local, redis, local.record))
            && (!(local.record.Some? && now < local.expiry) ==>
                  && r.local == Local(r.record, now + 5000)
                  && (live && !getFails ==> r.record == Some(redis.value.value) && r.redis == redis)
                  && (!live || getFails ==>
                        && r.record == stored
                        && r.redis == (if stored.Some? && !setFails then Some(Cache.Entry(stored.value, Some(now + 60000)))
                                       else redis)))
  {
  }

  function GetCached(w: Populated, inst: Id, getFails: bool, setFails: bool): (Populated, Record) {
    var r := ReadThrough(LocalOf(w, inst), w.redis, Some(Stored(w)), w.now, getFails, setFails);
    (w.(redis := r.redis, locals := w.locals[inst := r.local]), r.record.value)
  }

  // ---- Steps ----

  datatype Step =
    | Tick(ms: nat)
    | Save(record: Record)
    | Forget(inst: Id)
    | DeleteShared
    | Boot(inst: Id)
    | Read(inst: Id, getFails: bool, setFails: bool)
    | SaveThrough(inst: Id, record: Record)

  function Forgotten(w: Populated, inst: Id): Populated { w.(locals := w.locals[inst := COLD]) }

  /** Save, Forget and DeleteShared are the parts of a mutator; SaveThrough is the three as one step. */
  function Do(w: Populated, s: Step): Populated {
    match s
    case Tick(ms) => w.(now := w.now + ms)
    case Save(r) => w.(history := w.history + [Write(w.now, r)])
    case Forget(inst) => Forgotten(w, inst)
    case DeleteShared => w.(redis := None)
    case Boot(inst) => w.(locals := w.locals[inst := Local(Some(Stored(w)), 0)])
    case Read(inst, getFails, setFails) => GetCached(w, inst, getFails, setFails).0
    case SaveThrough(inst, r) => Forgotten(w.(history := w.history + [Write(w.now, r)], redis := None), inst)
  }

  function Run(w: Populated, steps: seq<Step>): Populated {
    if steps == [] then w else Do(Run(w, steps[..|steps| - 1]), steps[|steps| - 1])
  }

  /** The database row was `r` at time t: the i-th save was made by then, and the next one not before. */
  predicate CurrentFrom(history: seq<Write>, t: int, r: Record, i: int) {
    0 <= i < |history| && history[i].record == r && history[i].at <= t && (i + 1 < |history| ==> t <= history[i + 1].at)
  }

  ghost predicate CurrentAt(history: seq<Write>, t: int, r: Record) {
    exists i :: CurrentFrom(history, t, r, i)
  }

  ghost predicate CurrentWithin(history: seq<Write>, after: int, upTo: int, r: Record) {
    exists t :: after < t <= upTo && CurrentAt(history, t, r)
  }

  // ---- 65 seconds, whatever is lost ----

  ghost predicate RedisOk(history: seq<Write>, redis: Option<Cache.Entry<Record>>, now: int) {
    redis.Some? ==>
      && redis.value.expires.Some?
      && redis.value.expires.value - 1000 * L2_SECONDS <= now
      && CurrentAt(history, redis.value.expires.value - 1000 * L2_SECONDS, redis.value.value)
  }

  ghost predicate LocalOk(history: seq<Write>, local: Local, now: int, ms: int) {
    local.record.Some? && now < local.expiry ==>
      local.expiry - L1_MS <= now && CurrentWithin(history, local.expiry - ms, local.expiry - L1_MS, local.record.value)
  }

  ghost predicate Ok(w: Populated) {
    && w.now >= 0
    && w.history[|w.history| - 1].at <= w.now
    && RedisOk(w.history, w.redis, w.now)
    && forall inst <- w.locals :: LocalOk(w.history, w.locals[inst], w.now, L1_MS + 1000 * L2_SECONDS)
  }

  lemma StoredIsCurrent(w: Populated)
    requires w.history[|w.history| - 1].at <= w.now
    ensures CurrentAt(w.history, w.now, Stored(w))
  {
    assert CurrentFrom(w.history, w.now, Stored(w), |w.history| - 1);
  }

  lemma SaveKeepsPast(history: seq<Write>, save: Write, t: int, r: Record)
    requires CurrentAt(history, t, r) && t <= save.at
    ensures CurrentAt(history + [save], t, r)
  {
    var i :| CurrentFrom(history, t, r, i);
    assert CurrentFrom(history + [save], t, r, i);
  }

  lemma SaveKeepsWindow(history: seq<Write>, save: Write, after: int, upTo: int, r: Record)
    requires CurrentWithin(history, after, upTo, r) && upTo <= save.at
    ensures CurrentWithin(history + [save], after, upTo, r)
  {
    var t :| after < t <= upTo && CurrentAt(history, t, r);
    SaveKeepsPast(history, save, t, r);
  }

  lemma ReadIsRecent(w: Populated, inst: Id, getFails: bool, setFails: bool)
    requires Ok(w)
    ensures CurrentWithin(w.history, w.now - L1_MS - 1000 * L2_SECONDS, w.now, GetCached(w, inst, getFails, setFails).1)
    ensures Ok(GetCached(w, inst, getFails, setFails).0)
  {
    var (w', r) := GetCached(w, inst, getFails, setFails);
    var local := LocalOf(w, inst);
    StoredIsCurrent(w);
    if w.now < local.expiry && local.record.Some? {
      assert LocalOk(w.history, local, w.now, L1_MS + 1000 * L2_SECONDS);
      var t :| local.expiry - L1_MS - 1000 * L2_SECONDS < t <= local.expiry - L1_MS && CurrentAt(w.history, t, r);
    } else {
      assert exists t :: w.now - 1000 * L2_SECONDS < t <= w.now && CurrentAt(w.history, t, r);
      assert CurrentWithin(w.history, w.now - 1000 * L2_SECONDS, w.now, r);
      assert LocalOk(w'.history, Local(Some(r), w.now + L1_MS), w.now, L1_MS + 1000 * L2_SECONDS);
    }
  }

  lemma StepKeepsOk(w: Populated, s: Step)
    requires Ok(w)
    ensures Ok(Do(w, s))
  {
    match s
    case Read(inst, g, f) => ReadIsRecent(w, inst, g, f);
    case Save(r) => SaveKeepsOk(w, r);
    case SaveThrough(inst, r) => SaveKeepsOk(w, r);
    case _ =>
  }

  lemma SaveKeepsOk(w: Populated, r: Record)
    requires Ok(w)
    ensures Ok(w.(history := w.history + [Write(w.now, r)]))
  {
    var save := Write(w.now, r);
    if w.redis.Some? {
      SaveKeepsPast(w.history, save, w.redis.value.expires.value - 1000 * L2_SECONDS, w.redis.value.value);
    }
    forall inst | inst in w.locals ensures LocalOk(w.history + [save], w.locals[inst], w.now, L1_MS + 1000 * L2_SECONDS) {
      var local := w.locals[inst];
      assert LocalOk(w.history, local, w.now, L1_MS + 1000 * L2_SECONDS);
      if local.record.Some? && w.now < local.expiry {
        SaveKeepsWindow(w.history, save, local.expiry - L1_MS - 1000 * L2_SECONDS, local.expiry - L1_MS, local.record.value);
      }
    }
  }

  lemma {:induction false} RunKeepsOk(w: Populated, steps: seq<Step>)
    requires Ok(w)
    ensures Ok(Run(w, steps))
  {
    if steps != [] {
      RunKeepsOk(w, steps[..|steps| - 1]);
      StepKeepsOk(Run(w, steps[..|steps| - 1]), steps[|steps| - 1]);
    }
  }

  /** The world before any instance or Redis holds anything. */
  predicate Initial(w: Populated) {
    w.now >= 0 && w.history[|w.history| - 1].at <= w.now && w.redis.None? && w.locals == map[]
  }

  /** However saves, forgetting and deletes interleave or get lost, a record read was in the database in the last 65 seconds. */
  lemma StaleAtMost65s(w0: Populated, steps: seq<Step>, inst: Id, getFails: bool, setFails: bool)
    requires Initial(w0)
    ensures var w := Run(w0, steps);
            CurrentWithin(w.history, w.now - 65000, w.now, GetCached(w, inst, getFails, setFails).1)
  {
    RunKeepsOk(w0, steps);
    ReadIsRecent(Run(w0, steps), inst, getFails, setFails);
  }

  // ---- 5 seconds, when every save takes its delete with it ----

  predicate Atomic(s: Step) { !s.Save? && !s.Forget? && !s.DeleteShared? }

  ghost predicate Tight(w: Populated) {
    && Ok(w)
    && (w.redis.Some? ==> w.redis.value.value == Stored(w))
    && forall inst <- w.locals :: LocalOk(w.history, w.locals[inst], w.now, L1_MS + 1)
  }

  lemma TightRead(w: Populated, inst: Id, getFails: bool, setFails: bool)
    requires Tight(w)
    ensures CurrentWithin(w.history, w.now - L1_MS, w.now, GetCached(w, inst, getFails, setFails).1)
    ensures Tight(GetCached(w, inst, getFails, setFails).0)
  {
    var (w', r) := GetCached(w, inst, getFails, setFails);
    var local := LocalOf(w, inst);
    ReadIsRecent(w, inst, getFails, setFails);
    StoredIsCurrent(w);
    if w.now < local.expiry && local.record.Some? {
      assert LocalOk(w.history, local, w.now, L1_MS + 1);
      var t :| local.expiry - L1_MS - 1 < t <= local.expiry - L1_MS && CurrentAt(w.history, t, r);
    } else {
      assert CurrentWithin(w.history, w.now - 1, w.now, r);
      assert LocalOk(w'.history, Local(Some(r), w.now + L1_MS), w.now, L1_MS + 1);
    }
  }

  lemma TightStep(w: Populated, s: Step)
    requires Tight(w) && Atomic(s)
    ensures Tight(Do(w, s))
  {
    StepKeepsOk(w, s);
    match s
    case Read(inst, g, f) => TightRead(w, inst, g, f);
    case SaveThrough(_, r) =>
      var save := Write(w.now, r);
      forall inst | inst in w.locals ensures LocalOk(w.history + [save], w.locals[inst], w.now, L1_MS + 1) {
        var local := w.locals[inst];
        assert LocalOk(w.history, local, w.now, L1_MS + 1);
        if local.record.Some? && w.now < local.expiry {
          SaveKeepsWindow(w.history, save, local.expiry - L1_MS - 1, local.expiry - L1_MS, local.record.value);
        }
      }
    case _ =>
  }

  lemma {:induction false} RunKeepsTight(w: Populated, steps: seq<Step>)
    requires Tight(w) && forall k :: 0 <= k < |steps| ==> Atomic(steps[k])
    ensures Tight(Run(w, steps))
  {
    if steps != [] {
      RunKeepsTight(w, steps[..|steps| - 1]);
      TightStep(Run(w, steps[..|steps| - 1]), steps[|steps| - 1]);
    }
  }

  /** With save and delete as one step, Redis never disagrees with the database and a read is at most 5 seconds old. */
  lemma StaleAtMost5s(w0: Populated, steps: seq<Step>, inst: Id, getFails: bool, setFails: bool)
    requires Initial(w0) && forall k :: 0 <= k < |steps| ==> Atomic(steps[k])
    ensures var w := Run(w0, steps);
            && (w.redis.Some? ==> w.redis.value.value == Stored(w))
            && CurrentWithin(w.history, w.now - 5000, w.now, GetCached(w, inst, getFails, setFails).1)
  {
    RunKeepsTight(w0, steps);
    TightRead(Run(w0, steps), inst, getFails, setFails);
  }

  /** What the instance holds and what Redis holds is the stored record, until the next save. */
  ghost predicate Knows(w: Populated, inst: Id, r: Record) {
    && Stored(w) == r
    && (w.redis.Some? ==> w.redis.value.value == r)
    && (w.now < LocalOf(w, inst).expiry && LocalOf(w, inst).record.Some? ==> LocalOf(w, inst).record.value == r)
  }

  lemma KnowsStep(w: Populated, s: Step, inst: Id, r: Record)
    requires Knows(w, inst, r) && w.now >= 0 && Atomic(s) && !s.SaveThrough?
    ensures Knows(Do(w, s), inst, r) && Do(w, s).now >= 0
  {
  }

  lemma {:induction false} KnowsUntilNextSave(w: Populated, steps: seq<Step>, inst: Id, r: Record)
    requires Knows(w, inst, r) && w.now >= 0
    requires forall k :: 0 <= k < |steps| ==> Atomic(steps[k]) && !steps[k].SaveThrough?
    ensures Knows(Run(w, steps), inst, r) && Run(w, steps).now >= 0
  {
    if steps != [] {
      KnowsUntilNextSave(w, steps[..|steps| - 1], inst, r);
      KnowsStep(Run(w, steps[..|steps| - 1]), steps[|steps| - 1], inst, r);
    }
  }

  /** The writing instance reads its own write, until someone saves again. */
  lemma ReadsOwnWrite(w: Populated, inst: Id, r: Record, steps: seq<Step>, getFails: bool, setFails: bool)
    requires w.now >= 0
    requires forall k :: 0 <= k < |steps| ==> Atomic(steps[k]) && !steps[k].SaveThrough?
    ensures GetCached(Run(Do(w, SaveThrough(inst, r)), steps), inst, getFails, setFails).1 == r
  {
    KnowsUntilNextSave(Do(w, SaveThrough(inst, r)), steps, inst, r);
  }
}
