/** kill-switch.service.ts: the record its five mutators write, and the audit log from which it can be rebuilt. */
module KillSwitch {
  import opened Common

  /** Optional fields tell the kinds apart: neither is a global toggle, `service` one service, `services` many. */
  datatype Event = Event(activated: bool, actor: string, reason: Option<string>, at: int,
                         service: Option<string>, services: Option<seq<string>>)

  datatype Record = Record(isActive: bool, killedServices: seq<string>, auditLog: seq<Event>)

  const NEW_RECORD := Record(false, [], [])

  predicate NoDuplicates(xs: seq<string>) { forall i, j :: 0 <= i < j < |xs| ==> xs[i] != xs[j] }

  /** A JavaScript Set keeps insertion order, so it is modelled as its elements in that order. */
  function Add(xs: seq<string>, x: string): seq<string> { if x in xs then xs else xs + [x] }

  function AddAll(xs: seq<string>, names: seq<string>): seq<string> {
    if names == [] then xs else Add(AddAll(xs, names[..|names| - 1]), names[|names| - 1])
  }

  function Delete(xs: seq<string>, x: string): (r: seq<string>)
    ensures forall y :: y in r <==> y in xs && y != x
  {
    if xs == [] then []
    else Delete(xs[..|xs| - 1], x) + if xs[|xs| - 1] == x then [] else [xs[|xs| - 1]]
  }

  function Log(r: Record, e: Event): Record { r.(auditLog := r.auditLog + [e]) }

  // ---- The mutators, past the code checks ----

  datatype Command =
    | Activate(actor: string, reason: Option<string>, at: int)
    | Deactivate(actor: string, at: int)
    | KillService(service: string, actor: string, reason: Option<string>, at: int)
    | RestoreService(service: string, actor: string, at: int)
    | KillMultiple(names: seq<string>, actor: string, reason: Option<string>, at: int)

  function ReasonOr(reason: Option<string>, default: string): string {
    if reason.Some? then reason.value else default
  }

  function Join(names: seq<string>): string {
    if names == [] then "" else if |names| == 1 then names[0] else Join(names[..|names| - 1]) + ", " + names[|names| - 1]
  }

  function ServiceReason(reason: Option<string>, s: string): string { ReasonOr(reason, "Service-level kill: " + s) }

  function BulkReason(reason: Option<string>, names: seq<string>): string { ReasonOr(reason, "Bulk kill: [" + Join(names) + "]") }

  function Apply(r: Record, c: Command): Result<Record, Fault> {
    match c
    case Activate(actor, reason, at) =>
      if r.isActive && r.killedServices == [] then Failure(Unavailable)
      else Success(Log(r.(isActive := true, killedServices := []), Event(true, actor, reason, at, None, None)))
    case Deactivate(actor, at) =>
      if !r.isActive then Failure(Unavailable)
      else Success(Log(r.(isActive := false, killedServices := []), Event(false, actor, None, at, None, None)))
    case KillService(s, actor, reason, at) =>
      if s in r.killedServices then Failure(Unavailable)
      else
        Success(Log(r.(killedServices := Add(AddAll([], r.killedServices), s)),
                    Event(true, actor, Some(ServiceReason(reason, s)), at, Some(s), None)))
    case RestoreService(s, actor, at) =>
      if s !in r.killedServices then Failure(Unavailable)
      else
        Success(Log(r.(killedServices := Delete(AddAll([], r.killedServices), s)), Event(false, actor, None, at, Some(s), None)))
    case KillMultiple(names, actor, reason, at) =>
      Success(Log(r.(killedServices := AddAll(AddAll([], r.killedServices), names)),
                  Event(true, actor, Some(BulkReason(reason, names)), at, None, Some(names))))
  }

  /** A refused command leaves the record as it was. */
  function After(r: Record, c: Command): Record {
    match Apply(r, c) case Success(r') => r' case Failure(_) => r
  }

  function Run(r: Record, cs: seq<Command>): Record {
    if cs == [] then r else After(Run(r, cs[..|cs| - 1]), cs[|cs| - 1])
  }

  // ---- Reading the record ----

  predicate IsServiceKilled(r: Record, name: string) {
    (r.isActive && r.killedServices == []) || name in r.killedServices
  }

  /** getServiceStatuses: the map it builds over the known names. */
  function ServiceStatuses(r: Option<Record>, known: seq<string>): map<string, bool> {
    if known == [] then map[]
    else
      var name := known[|known| - 1];
      ServiceStatuses(r, known[..|known| - 1])[name :=
        r.Some? && ((r.value.isActive && |AddAll([], r.value.killedServices)| == 0) || name in AddAll([], r.value.killedServices))]
  }

  // ---- Replaying the log ----

  /** What one event says about (isActive, killedServices). */
  function Fold(state: (bool, seq<string>), e: Event): (bool, seq<string>) {
    if e.services.Some? then (state.0, AddAll(state.1, e.services.value))
    else if e.service.Some? then (state.0, if e.activated then Add(state.1, e.service.value) else Delete(state.1, e.service.value))
    else (e.activated, [])
  }

  function Replay(log: seq<Event>): (bool, seq<string>) {
    if log == [] then (false, []) else Fold(Replay(log[..|log| - 1]), log[|log| - 1])
  }

  // ---- Lemmas on sets kept as sequences ----

  lemma {:induction false} AddAllMembers(xs: seq<string>, names: seq<string>)
    ensures forall y :: y in AddAll(xs, names) <==> y in xs || y in names
  {
    if names != [] {
      AddAllMembers(xs, names[..|names| - 1]);
      assert names == names[..|names| - 1] + [names[|names| - 1]];
    }
  }

  lemma AddDistinct(xs: seq<string>, x: string)
    requires NoDuplicates(xs)
    ensures NoDuplicates(Add(xs, x))
  {
    var ys := Add(xs, x);
    forall i, j | 0 <= i < j < |ys| ensures ys[i] != ys[j] {
      if j == |xs| { assert ys[i] in xs; }
    }
  }

  lemma {:induction false} AddAllDistinct(xs: seq<string>, names: seq<string>)
    requires NoDuplicates(xs)
    ensures NoDuplicates(AddAll(xs, names))
  {
    if names != [] {
      AddAllDistinct(xs, names[..|names| - 1]);
      AddDistinct(AddAll(xs, names[..|names| - 1]), names[|names| - 1]);
    }
  }

  /** Putting distinct elements through a Set changes nothing, not even their order. */
  lemma {:induction false} SetOfDistinct(xs: seq<string>)
    requires NoDuplicates(xs)
    ensures AddAll([], xs) == xs
  {
    if xs != [] {
      var n := |xs| - 1;
      SetOfDistinct(xs[..n]);
      assert xs == xs[..n] + [xs[n]];
    }
  }

  lemma {:induction false} DeleteDistinct(xs: seq<string>, x: string)
    requires NoDuplicates(xs)
    ensures NoDuplicates(Delete(xs, x))
  {
    if xs != [] {
      var n := |xs| - 1;
      DeleteDistinct(xs[..n], x);
      assert xs[n] !in xs[..n];
    }
  }

  // ---- Main results ----

  ghost predicate Inv(r: Record) {
    NoDuplicates(r.killedServices) && Replay(r.auditLog) == (r.isActive, r.killedServices)
  }

  /** r' is r with one event logged, and its other fields are what that event folds to. */
  ghost predicate Logged(r: Record, r': Record) {
    && |r'.auditLog| > 0 && r'.auditLog[..|r'.auditLog| - 1] == r.auditLog
    && Fold((r.isActive, r.killedServices), r'.auditLog[|r'.auditLog| - 1]) == (r'.isActive, r'.killedServices)
    && NoDuplicates(r'.killedServices)
  }

  lemma LogOne(r: Record, isActive: bool, killed: seq<string>, e: Event)
    requires Fold((r.isActive, r.killedServices), e) == (isActive, killed) && NoDuplicates(killed)
    ensures Logged(r, Log(r.(isActive := isActive, killedServices := killed), e))
  {
  }

  lemma ToggleLogged(r: Record, c: Command)
    requires (c.Activate? || c.Deactivate?) && Apply(r, c).Success?
    ensures Logged(r, Apply(r, c).value)
  {
  }

  lemma KillLogged(r: Record, s: string, actor: string, why: string, at: int)
    requires NoDuplicates(r.killedServices)
    ensures Logged(r, Log(r.(killedServices := Add(AddAll([], r.killedServices), s)),
                          Event(true, actor, Some(why), at, Some(s), None)))
  {
    var killed := Add(r.killedServices, s);
    SetOfDistinct(r.killedServices);
    AddDistinct(r.killedServices, s);
    LogOne(r, r.isActive, killed, Event(true, actor, Some(why), at, Some(s), None));
  }

  lemma RestoreLogged(r: Record, s: string, actor: string, at: int)
    requires NoDuplicates(r.killedServices)
    ensures Logged(r, Log(r.(killedServices := Delete(AddAll([], r.killedServices), s)),
                          Event(false, actor, None, at, Some(s), None)))
  {
    SetOfDistinct(r.killedServices);
    DeleteDistinct(r.killedServices, s);
    LogOne(r, r.isActive, Delete(r.killedServices, s), Event(false, actor, None, at, Some(s), None));
  }

  lemma BulkLogged(r: Record, names: seq<string>, actor: string, why: string, at: int)
    requires NoDuplicates(r.killedServices)
    ensures Logged(r, Log(r.(killedServices := AddAll(AddAll([], r.killedServices), names)),
                          Event(true, actor, Some(why), at, None, Some(names))))
  {
    SetOfDistinct(r.killedServices);
    AddAllDistinct(r.killedServices, names);
    LogOne(r, r.isActive, AddAll(r.killedServices, names), Event(true, actor, Some(why), at, None, Some(names)));
  }

  /** What a successful command writes is what its own event folds to. */
  lemma ApplyLogged(r: Record, c: Command)
    requires NoDuplicates(r.killedServices) && Apply(r, c).Success?
    ensures Logged(r, Apply(r, c).value)
  {
    match c
    case KillService(s, actor, reason, at) => KillLogged(r, s, actor, ServiceReason(reason, s), at);
    case RestoreService(s, actor, at) => RestoreLogged(r, s, actor, at);
    case KillMultiple(names, actor, reason, at) => BulkLogged(r, names, actor, BulkReason(reason, names), at);
    case _ => ToggleLogged(r, c);
  }

  lemma StepKeepsInv(r: Record, c: Command)
    requires Inv(r)
    ensures Inv(After(r, c))
  {
    if Apply(r, c).Success? {
      ApplyLogged(r, c);
    }
  }

  /** After every run of commands from a new record, replaying the audit log rebuilds the record, in order and without duplicates. */
  lemma {:induction false} AuditReplay(cs: seq<Command>)
    ensures var r := Run(NEW_RECORD, cs);
            NoDuplicates(r.killedServices) && Replay(r.auditLog) == (r.isActive, r.killedServices)
  {
    if cs != [] {
      AuditReplay(cs[..|cs| - 1]);
      StepKeepsInv(Run(NEW_RECORD, cs[..|cs| - 1]), cs[|cs| - 1]);
    }
  }

  predicate Kills(e: Event, s: string) {
    if e.services.Some? then s in e.services.value else e.activated && e.service == Some(s)
  }

  predicate Global(e: Event) { e.services.None? && e.service.None? }

  predicate Lifts(e: Event, s: string) { Global(e) || (e.services.None? && !e.activated && e.service == Some(s)) }

  ghost predicate LastWordKills(log: seq<Event>, s: string) {
    exists k :: KillsAt(log, s, k)
  }

  predicate KillsAt(log: seq<Event>, s: string, k: int) {
    0 <= k < |log| && Kills(log[k], s) && forall j :: k < j < |log| ==> !Lifts(log[j], s)
  }

  lemma LastWordSnoc(log: seq<Event>, e: Event, s: string)
    ensures LastWordKills(log + [e], s) <==> Kills(e, s) || (!Lifts(e, s) && LastWordKills(log, s))
  {
    var log' := log + [e];
    if Kills(e, s) {
      assert KillsAt(log', s, |log|);
    } else if !Lifts(e, s) && LastWordKills(log, s) {
      var k :| KillsAt(log, s, k);
      assert KillsAt(log', s, k);
    }
    if LastWordKills(log', s) {
      var k :| KillsAt(log', s, k);
      if k < |log| {
        assert !Lifts(log'[|log|], s);
        assert forall j :: k < j < |log| ==> log[j] == log'[j];
        assert KillsAt(log, s, k);
      }
    }
  }

  /** The log read without replaying it: a service is killed exactly when some event kills it and no later one lifts it. */
  lemma {:induction false} LastWord(log: seq<Event>, s: string)
    ensures s in Replay(log).1 <==> LastWordKills(log, s)
  {
    if log != [] {
      var n := |log| - 1;
      var before, e := log[..n], log[n];
      LastWord(before, s);
      assert log == before + [e];
      LastWordSnoc(before, e, s);
      if e.services.Some? { AddAllMembers(Replay(before).1, e.services.value); }
    }
  }

  /** What isServiceKilled answers for the record read; a missing record kills nothing. */
  predicate KilledIn(r: Option<Record>, name: string) { r.Some? && IsServiceKilled(r.value, name) }

  lemma EmptyAsSet(xs: seq<string>)
    ensures |AddAll([], xs)| == 0 <==> xs == []
  {
    AddAllMembers([], xs);
    if xs != [] {
      assert xs[0] in AddAll([], xs);
    }
  }

  /** The status board and isServiceKilled agree on every known service, whatever the record, or with none. */
  lemma {:induction false} StatusesAgree(r: Option<Record>, known: seq<string>)
    ensures forall name :: name in ServiceStatuses(r, known) <==> name in known
    ensures forall name :: name in known ==> ServiceStatuses(r, known)[name] == KilledIn(r, name)
  {
    if known != [] {
      var n := |known| - 1;
      StatusesAgree(r, known[..n]);
      assert known == known[..n] + [known[n]];
      if r.Some? {
        AddAllMembers([], r.value.killedServices);
        EmptyAsSet(r.value.killedServices);
      }
    }
  }

  // ---- What a service-level command does to the other services ----

  /**
   * killService leaves every other service as it was, except under a global kill with no service listed: naming one service
   * then brings all the others back.
   */
  lemma KillingOne(r: Record, s: string, other: string, actor: string, reason: Option<string>, at: int)
    requires NoDuplicates(r.killedServices) && s != other && Apply(r, KillService(s, actor, reason, at)).Success?
    ensures var r' := Apply(r, KillService(s, actor, reason, at)).value;
            && IsServiceKilled(r', s)
            && (IsServiceKilled(r', other) != IsServiceKilled(r, other) <==> r.isActive && r.killedServices == [])
  {
    SetOfDistinct(r.killedServices);
  }

  /** killMultipleServices does the same to the services it does not name, as soon as it names one. */
  lemma KillingMany(r: Record, names: seq<string>, other: string, actor: string, reason: Option<string>, at: int)
    requires NoDuplicates(r.killedServices) && other !in names
    ensures var r' := After(r, KillMultiple(names, actor, reason, at));
            && (forall s :: s in names ==> IsServiceKilled(r', s))
            && (IsServiceKilled(r', other) != IsServiceKilled(r, other) <==> r.isActive && r.killedServices == [] && names != [])
  {
    hide BulkReason;
    SetOfDistinct(r.killedServices);
    AddAllMembers(r.killedServices, names);
    var killed := AddAll(r.killedServices, names);
    if names != [] {
      assert names[0] in killed;
    } else if r.killedServices != [] {
      assert r.killedServices[0] in killed;
    }
    assert names == [] && r.killedServices == [] ==> killed == [];
  }

  /**
   * restoreService leaves every other service as it was, except when it lifts the last listed service while the global switch
   * is on: the empty list then kills everything, the restored service included.
   */
  lemma RestoringOne(r: Record, s: string, other: string, actor: string, at: int)
    requires NoDuplicates(r.killedServices) && s != other && Apply(r, RestoreService(s, actor, at)).Success?
    ensures var r' := Apply(r, RestoreService(s, actor, at)).value;
            && (IsServiceKilled(r', s) <==> r.isActive && r.killedServices == [s])
            && (IsServiceKilled(r', other) != IsServiceKilled(r, other) <==> r.isActive && r.killedServices == [s])
  {
    SetOfDistinct(r.killedServices);
    LastOne(r.killedServices, s);
  }

  lemma LastOne(xs: seq<string>, s: string)
    requires NoDuplicates(xs) && s in xs
    ensures Delete(xs, s) == [] <==> xs == [s]
  {
    if xs != [s] {
      var other := if xs[0] == s then xs[1] else xs[0];
      assert other in xs && other != s;
      assert other in Delete(xs, s);
    }
  }

  /** Global kill, then one service killed and restored: the restored service ends up killed with all the rest. */
  lemma RestoreTakesAllDown(name: string)
    ensures var commands := [Activate("admin", None, 0)] + [KillService("trips", "admin", None, 1)]
                            + [RestoreService("trips", "admin", 2)];
            IsServiceKilled(Run(NEW_RECORD, commands), name)
  {
    hide ServiceReason;
    var a, b, c := Activate("admin", None, 0), KillService("trips", "admin", None, 1), RestoreService("trips", "admin", 2);
    RunSnoc(NEW_RECORD, [], a);
    assert [] + [a] == [a];
    RunSnoc(NEW_RECORD, [a], b);
    RunSnoc(NEW_RECORD, [a] + [b], c);
    var r := Run(NEW_RECORD, [a] + [b]);
    assert r.isActive && r.killedServices == ["trips"];
    SetOfDistinct(["trips"]);
    LastOne(["trips"], "trips");
  }

  lemma RunSnoc(r: Record, cs: seq<Command>, c: Command)
    ensures Run(r, cs + [c]) == After(Run(r, cs), c)
  {
    assert (cs + [c])[..|cs|] == cs;
  }

  // ---- What each command writes ----

  /** One event more, by this actor at this time. */
  predicate OneEvent(r: Record, r': Record, activated: bool, actor: string, at: int) {
    && |r'.auditLog| == |r.auditLog| + 1 && r'.auditLog[..|r.auditLog|] == r.auditLog
    && var e := r'.auditLog[|r.auditLog|]; e.activated == activated && e.actor == actor && e.at == at
  }

  function LastEvent(r: Record): Event
    requires r.auditLog != []
  {
    r.auditLog[|r.auditLog| - 1]
  }

  /** activate takes every service down, and is refused only when all are down already. */
  lemma ActivateWrites(r: Record, actor: string, reason: Option<string>, at: int)
    ensures Apply(r, Activate(actor, reason, at)).Failure? <==> r.isActive && r.killedServices == []
    ensures Apply(r, Activate(actor, reason, at)).Success? ==>
              var r' := Apply(r, Activate(actor, reason, at)).value;
              && r'.isActive && r'.killedServices == [] && (forall s :: IsServiceKilled(r', s))
              && OneEvent(r, r', true, actor, at)
              && LastEvent(r').service == None && LastEvent(r').services == None && LastEvent(r').reason == reason
  {
  }

  /** deactivate brings every service back, and is refused only when the switch is off. */
  lemma DeactivateWrites(r: Record, actor: string, at: int)
    ensures Apply(r, Deactivate(actor, at)).Failure? <==> !r.isActive
    ensures Apply(r, Deactivate(actor, at)).Success? ==>
              var r' := Apply(r, Deactivate(actor, at)).value;
              && !r'.isActive && r'.killedServices == [] && (forall s :: !IsServiceKilled(r', s))
              && OneEvent(r, r', false, actor, at)
              && LastEvent(r').service == None && LastEvent(r').services == None && LastEvent(r').reason == None
  {
  }

  /** killService adds the one service and leaves the switch alone; without a reason it gives one. */
  lemma KillServiceWrites(r: Record, s: string, actor: string, reason: Option<string>, at: int)
    ensures Apply(r, KillService(s, actor, reason, at)).Failure? <==> s in r.killedServices
    ensures Apply(r, KillService(s, actor, reason, at)).Success? ==>
              var r' := Apply(r, KillService(s, actor, reason, at)).value;
              && r'.isActive == r.isActive && (forall x :: x in r'.killedServices <==> x in r.killedServices || x == s)
              && IsServiceKilled(r', s) && OneEvent(r, r', true, actor, at)
              && LastEvent(r').service == Some(s) && LastEvent(r').services == None
              && LastEvent(r').reason == (if reason.Some? then reason else Some("Service-level kill: " + s))
  {
    AddAllMembers([], r.killedServices);
  }

  /** restoreService removes the one service and leaves the switch alone. */
  lemma RestoreServiceWrites(r: Record, s: string, actor: string, at: int)
    ensures Apply(r, RestoreService(s, actor, at)).Failure? <==> s !in r.killedServices
    ensures Apply(r, RestoreService(s, actor, at)).Success? ==>
              var r' := Apply(r, RestoreService(s, actor, at)).value;
              && r'.isActive == r.isActive && (forall x :: x in r'.killedServices <==> x in r.killedServices && x != s)
              && OneEvent(r, r', false, actor, at)
              && LastEvent(r').service == Some(s) && LastEvent(r').services == None && LastEvent(r').reason == None
  {
    AddAllMembers([], r.killedServices);
  }

  /** killMultipleServices adds all the names, always. */
  lemma KillMultipleWrites(r: Record, names: seq<string>, actor: string, reason: Option<string>, at: int)
    ensures Apply(r, KillMultiple(names, actor, reason, at)).Success?
    ensures var r' := Apply(r, KillMultiple(names, actor, reason, at)).value;
            && r'.isActive == r.isActive
            && (forall x :: x in r'.killedServices <==> x in r.killedServices || x in names)
            && OneEvent(r, r', true, actor, at)
            && LastEvent(r').service == None && LastEvent(r').services == Some(names)
            && LastEvent(r').reason == (if reason.Some? then reason else Some("Bulk kill: [" + Join(names) + "]"))
  {
    AddAllMembers([], r.killedServices);
    AddAllMembers(AddAll([], r.killedServices), names);
  }
}
