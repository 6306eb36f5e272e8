/** agent.service.ts: referring a driver, and the capped commission an agent earns from that driver's trips. */
module Referrals {
  import opened Common
  import opened Tables
  import opened Sums

  datatype Agent = Agent(userId: Id, currentBalance: real, totalCommission: real, totalReferrals: int)

  datatype Referral = Referral(agentId: Id, driverId: Id, code: string, earnedAmount: real)

  datatype Settings = Settings(isActive: bool, earningPerTrip: real, maxEarningPerDriver: real)

  datatype Db = Db(agents: map<Id, Agent>, referrals: seq<Referral>)

  datatype Earning = Earning(agentId: Id, driverId: Id, increment: real, newEarnedAmount: real, capRemaining: real)

  function OfDriver(driver: Id): Referral -> bool { (r: Referral) => r.driverId == driver }

  function Min(a: real, b: real): real { if a <= b then a else b }

  // ---- The two calls ----

  /** `agent` is the agent row found for the user, driverExists whether the driver row was found. */
  function AddReferral(db: Db, agent: Option<Id>, driver: Id, driverExists: bool, code: string): (Db, Result<Referral, Fault>) {
    if IndexOf(db.referrals, OfDriver(driver)) >= 0 then (db, Failure(BadRequest))
    else if agent.None? || agent.value !in db.agents || !driverExists then (db, Failure(NotFound))
    else
      var a := db.agents[agent.value];
      var row := Referral(agent.value, driver, code, 0.0);
      (Db(db.agents[agent.value := a.(totalReferrals := a.totalReferrals + 1)], db.referrals + [row]), Success(row))
  }

  /** The trip's driver (None when the trip or its driver is missing) and its count of completed bookings. */
  function EarnFromTrip(db: Db, driver: Option<Id>, completed: nat, s: Settings): (Db, Option<Earning>) {
    if driver.None? || completed < 1 || !s.isActive then (db, None)
    else
      var i := IndexOf(db.referrals, OfDriver(driver.value));
      if i < 0 then (db, None)
      else
        var r := db.referrals[i];
        var remaining := s.maxEarningPerDriver - r.earnedAmount;
        var increment := Min(s.earningPerTrip, remaining);
        if r.earnedAmount >= s.maxEarningPerDriver || increment <= 0.0 then (db, None)
        else
          (Db(Credit(db.agents, r.agentId, increment),
              db.referrals[i := r.(earnedAmount := r.earnedAmount + increment)]),
           Some(Earning(r.agentId, driver.value, increment, r.earnedAmount + increment, remaining - increment)))
  }

  function Credit(agents: map<Id, Agent>, id: Id, amount: real): map<Id, Agent> {
    if id !in agents then agents
    else
      var a := agents[id];
      agents[id := a.(currentBalance := a.currentBalance + amount, totalCommission := a.totalCommission + amount)]
  }

  // ---- Runs ----

  datatype Call =
    | Refer(agent: Option<Id>, driver: Id, driverExists: bool, code: string)
    | Earn(tripDriver: Option<Id>, completed: nat, settings: Settings)

  function Step(db: Db, c: Call): Db {
    match c
    case Refer(a, d, e, code) => AddReferral(db, a, d, e, code).0
    case Earn(d, n, s) => EarnFromTrip(db, d, n, s).0
  }

  function Run(db: Db, calls: seq<Call>): Db {
    if calls == [] then db else Step(Run(db, calls[..|calls| - 1]), calls[|calls| - 1])
  }

  // ---- The agent ledger ----

  function EarnedFor(agent: Id): Referral -> real { (r: Referral) => if r.agentId == agent then r.earnedAmount else 0.0 }

  function CountFor(agent: Id): Referral -> int { (r: Referral) => if r.agentId == agent then 1 else 0 }

  ghost predicate OneReferralPerDriver(referrals: seq<Referral>) {
    forall i, j :: 0 <= i < j < |referrals| ==> referrals[i].driverId != referrals[j].driverId
  }

  /** Commission and referral counts are what the referral rows add up to. */
  ghost predicate Books(db: Db) {
    && OneReferralPerDriver(db.referrals)
    && (forall i :: 0 <= i < |db.referrals| ==> db.referrals[i].agentId in db.agents && db.referrals[i].earnedAmount >= 0.0)
    && (forall a <- db.agents ::
          && db.agents[a].totalCommission == SumReal(db.referrals, EarnedFor(a))
          && db.agents[a].totalReferrals == SumInt(db.referrals, CountFor(a)))
  }

  lemma ReferKeepsBooks(db: Db, agent: Option<Id>, driver: Id, driverExists: bool, code: string)
    requires Books(db)
    ensures Books(AddReferral(db, agent, driver, driverExists, code).0)
  {
    var (db', reply) := AddReferral(db, agent, driver, driverExists, code);
    if reply.Success? {
      var row := reply.value;
      forall i | 0 <= i < |db.referrals| ensures db.referrals[i].driverId != driver {
        assert !OfDriver(driver)(db.referrals[i]);
      }
      forall a | a in db'.agents
        ensures db'.agents[a].totalCommission == SumReal(db'.referrals, EarnedFor(a))
        ensures db'.agents[a].totalReferrals == SumInt(db'.referrals, CountFor(a))
      {
        SumRealAppend(db.referrals, row, EarnedFor(a));
        SumIntAppend(db.referrals, row, CountFor(a));
      }
    }
  }

  lemma EarnKeepsBooks(db: Db, driver: Option<Id>, completed: nat, s: Settings)
    requires Books(db)
    ensures Books(EarnFromTrip(db, driver, completed, s).0)
  {
    var (db', reply) := EarnFromTrip(db, driver, completed, s);
    if reply.Some? {
      var i := IndexOf(db.referrals, OfDriver(driver.value));
      forall a | a in db'.agents
        ensures db'.agents[a].totalCommission == SumReal(db'.referrals, EarnedFor(a))
        ensures db'.agents[a].totalReferrals == SumInt(db'.referrals, CountFor(a))
      {
        SumRealUpdate(db.referrals, i, db'.referrals[i], EarnedFor(a));
        SumIntUpdate(db.referrals, i, db'.referrals[i], CountFor(a));
      }
      forall j, k | 0 <= j < k < |db'.referrals| ensures db'.referrals[j].driverId != db'.referrals[k].driverId {
        assert db.referrals[j].driverId != db.referrals[k].driverId;
      }
    }
  }

  /** Agents as they register: nothing earned, nobody referred. */
  predicate Unused(db: Db) {
    db.referrals == [] && forall a <- db.agents :: db.agents[a].totalCommission == 0.0 && db.agents[a].totalReferrals == 0
  }

  /** Over every run: commission is the sum earned over the agent's referrals, the count is theirs, and no driver has two. */
  lemma {:induction false} RunKeepsBooks(db: Db, calls: seq<Call>)
    requires Unused(db)
    ensures Books(Run(db, calls))
  {
    if calls != [] {
      var before := Run(db, calls[..|calls| - 1]);
      RunKeepsBooks(db, calls[..|calls| - 1]);
      match calls[|calls| - 1]
      case Refer(a, d, e, code) => ReferKeepsBooks(before, a, d, e, code);
      case Earn(d, n, s) => EarnKeepsBooks(before, d, n, s);
    }
  }

  // ---- The cap ----

  predicate Cap(s: Settings) { s.isActive && s.earningPerTrip >= 0.0 && s.maxEarningPerDriver >= 0.0 }

  predicate EligibleFor(c: Call, driver: Id) { c.Earn? && c.tripDriver == Some(driver) && c.completed >= 1 }

  /**
   * How many of the calls are for a trip of the driver with a completed booking. The source keeps no record of the trips it
   * has paid for, so a trip reported twice counts twice.
   */
  function Eligible(calls: seq<Call>, driver: Id): nat {
    if calls == [] then 0
    else Eligible(calls[..|calls| - 1], driver) + if EligibleFor(calls[|calls| - 1], driver) then 1 else 0
  }

  lemma OnlyReferral(referrals: seq<Referral>, i: nat)
    requires OneReferralPerDriver(referrals) && i < |referrals|
    ensures IndexOf(referrals, OfDriver(referrals[i].driverId)) == i
  {
    forall j | 0 <= j < |referrals| && OfDriver(referrals[i].driverId)(referrals[j]) ensures j == i {
      assert referrals[if j < i then j else i].driverId == referrals[if j < i then i else j].driverId;
    }
    IndexOfOnly(referrals, OfDriver(referrals[i].driverId), i);
  }

  /** Any call moves row i by one capped step if it is an eligible call for its driver, and not at all otherwise. */
  lemma StepMovesRow(db: Db, c: Call, i: nat, s: Settings)
    requires OneReferralPerDriver(db.referrals) && i < |db.referrals| && Cap(s)
    requires db.referrals[i].earnedAmount <= s.maxEarningPerDriver && (c.Earn? ==> c.settings == s)
    ensures var r, rows := db.referrals[i], Step(db, c).referrals;
            && |rows| >= |db.referrals|
            && rows[i] == r.(earnedAmount := if EligibleFor(c, r.driverId)
                                             then Min(s.maxEarningPerDriver, r.earnedAmount + s.earningPerTrip)
                                             else r.earnedAmount)
  {
    OnlyReferral(db.referrals, i);
  }

  lemma StepKeepsDrivers(db: Db, c: Call)
    requires OneReferralPerDriver(db.referrals)
    ensures OneReferralPerDriver(Step(db, c).referrals)
  {
    match c
    case Refer(a, d, e, code) =>
      if Step(db, c) != db {
        forall i | 0 <= i < |db.referrals| ensures db.referrals[i].driverId != d {
          assert !OfDriver(d)(db.referrals[i]);
        }
      }
    case Earn(d, n, s) =>
      if Step(db, c) != db {
        var i := IndexOf(db.referrals, OfDriver(d.value));
        SameDrivers(db.referrals, i, Step(db, c).referrals[i].earnedAmount);
      }
  }

  function EarnedAfter(s: Settings, n: nat): real { Min(s.maxEarningPerDriver, n as real * s.earningPerTrip) }

  lemma OneMoreCall(s: Settings, n: nat)
    requires n > 0 && Cap(s)
    ensures EarnedAfter(s, n) == Min(s.maxEarningPerDriver, EarnedAfter(s, n - 1) + s.earningPerTrip)
    ensures EarnedAfter(s, n) <= s.maxEarningPerDriver
  {
    assert n as real * s.earningPerTrip == (n - 1) as real * s.earningPerTrip + s.earningPerTrip;
  }

  lemma SameDrivers(referrals: seq<Referral>, i: nat, amount: real)
    requires OneReferralPerDriver(referrals) && i < |referrals|
    ensures OneReferralPerDriver(referrals[i := referrals[i].(earnedAmount := amount)])
  {
    var referrals' := referrals[i := referrals[i].(earnedAmount := amount)];
    forall j, k | 0 <= j < k < |referrals'| ensures referrals'[j].driverId != referrals'[k].driverId {
      assert referrals[j].driverId != referrals[k].driverId;
    }
  }

  /**
   * Under fixed settings, whatever other calls are mixed in, a new referral has earned exactly
   * min(cap, n * earningPerTrip) after n eligible calls for its driver.
   */
  lemma {:induction false} CappedAccumulation(db: Db, i: nat, s: Settings, calls: seq<Call>)
    requires OneReferralPerDriver(db.referrals) && i < |db.referrals| && db.referrals[i].earnedAmount == 0.0 && Cap(s)
    requires forall k :: 0 <= k < |calls| && calls[k].Earn? ==> calls[k].settings == s
    ensures OneReferralPerDriver(Run(db, calls).referrals) && i < |Run(db, calls).referrals|
    ensures Run(db, calls).referrals[i]
            == db.referrals[i].(earnedAmount := EarnedAfter(s, Eligible(calls, db.referrals[i].driverId)))
  {
    if calls == [] {
      assert EarnedAfter(s, 0) == 0.0;
    } else {
      var before, last := calls[..|calls| - 1], calls[|calls| - 1];
      CappedAccumulation(db, i, s, before);
      StepMovesRow(Run(db, before), last, i, s);
      StepKeepsDrivers(Run(db, before), last);
      if EligibleFor(last, db.referrals[i].driverId) {
        OneMoreCall(s, Eligible(calls, db.referrals[i].driverId));
      }
    }
  }

  /** Every reported earning: the cap is split between earned and remaining, and both sides of the ledger move by the same amount. */
  lemma EarningReport(db: Db, driver: Option<Id>, completed: nat, s: Settings)
    requires Books(db)
    ensures var (db', e) := EarnFromTrip(db, driver, completed, s);
            e.Some? ==>
              && e.value.newEarnedAmount + e.value.capRemaining == s.maxEarningPerDriver
              && 0.0 < e.value.increment <= s.earningPerTrip && e.value.capRemaining >= 0.0
              && e.value.agentId in db.agents
              && db'.agents[e.value.agentId].currentBalance == db.agents[e.value.agentId].currentBalance + e.value.increment
              && db'.agents[e.value.agentId].totalCommission == db.agents[e.value.agentId].totalCommission + e.value.increment
  {
  }

  predicate FirstOf(referrals: seq<Referral>, i: int, driver: Id) {
    0 <= i < |referrals| && referrals[i].driverId == driver && forall j :: 0 <= j < i ==> referrals[j].driverId != driver
  }

  lemma FirstIndex(referrals: seq<Referral>, driver: Id)
    ensures var i := IndexOf(referrals, OfDriver(driver));
            && (i >= 0 ==> FirstOf(referrals, i, driver)) && (forall k :: FirstOf(referrals, k, driver) ==> k == i)
            && (i < 0 <==> forall j :: 0 <= j < |referrals| ==> referrals[j].driverId != driver)
  {
    var i := IndexOf(referrals, OfDriver(driver));
    forall j | 0 <= j < (if i < 0 then |referrals| else i) ensures referrals[j].driverId != driver {
      assert !OfDriver(driver)(referrals[j]);
    }
    forall k | FirstOf(referrals, k, driver) ensures k == i {
      assert OfDriver(driver)(referrals[k]);
    }
  }

  /** The trip earns for referral i: it has a completed booking, earning is switched on, and the cap leaves something. */
  predicate Earns(db: Db, driver: Option<Id>, completed: nat, s: Settings, i: int) {
    && driver.Some? && completed >= 1 && s.isActive && FirstOf(db.referrals, i, driver.value)
    && s.earningPerTrip > 0.0 && db.referrals[i].earnedAmount < s.maxEarningPerDriver
  }

  /**
   * Money moves exactly when the trip earns, and then by the earning per trip or what the cap leaves, whichever is less, on the
   * driver's referral alone. With earning switched off nothing moves.
   */
  lemma EarningMoves(db: Db, driver: Option<Id>, completed: nat, s: Settings)
    ensures var (db', e) := EarnFromTrip(db, driver, completed, s);
            && (e.None? ==> db' == db)
            && (!s.isActive ==> e == None && db' == db)
            && (e.Some? <==> exists i :: Earns(db, driver, completed, s, i))
            && (forall i :: Earns(db, driver, completed, s, i) && e.Some? ==>
                  var r, left := db.referrals[i], s.maxEarningPerDriver - db.referrals[i].earnedAmount;
                  && e.value.increment == (if s.earningPerTrip <= left then s.earningPerTrip else left)
                  && e.value.agentId == r.agentId && e.value.driverId == r.driverId
                  && db'.referrals == db.referrals[i := r.(earnedAmount := r.earnedAmount + e.value.increment)])
  {
    if driver.Some? {
      FirstIndex(db.referrals, driver.value);
      var i := IndexOf(db.referrals, OfDriver(driver.value));
      if i >= 0 {
        assert EarnFromTrip(db, driver, completed, s).1.Some? <==> Earns(db, driver, completed, s, i);
      }
    }
  }

  /** A referral is stored exactly for a driver without one, by a registered agent; it starts at nothing earned. */
  lemma ReferralStored(db: Db, agent: Option<Id>, driver: Id, driverExists: bool, code: string)
    ensures var (db', reply) := AddReferral(db, agent, driver, driverExists, code);
            && (reply.Success? <==> && (forall j :: 0 <= j < |db.referrals| ==> db.referrals[j].driverId != driver)
                                    && agent.Some? && agent.value in db.agents && driverExists)
            && (reply.Failure? ==> db' == db)
            && (reply.Success? ==>
                  && db'.referrals == db.referrals + [Referral(agent.value, driver, code, 0.0)]
                  && var a := db.agents[agent.value];
                     db'.agents == db.agents[agent.value := a.(totalReferrals := a.totalReferrals + 1)])
  {
    FirstIndex(db.referrals, driver);
  }

  // ---- In the source's own form ----

  class AgentService {
    var agents: map<Id, Agent>
    var referrals: seq<Referral>

    constructor (agents: map<Id, Agent>)
      ensures State() == Db(agents, [])
    {
      this.agents, referrals := agents, [];
    }

    function State(): Db
      reads this
    {
      Db(agents, referrals)
    }

    method ReferDriver(agent: Option<Id>, driver: Id, driverExists: bool, code: string) returns (reply: Result<Referral, Fault>)
      modifies this
      ensures (State(), reply) == AddReferral(old(State()), agent, driver, driverExists, code)
    {
      if IndexOf(referrals, OfDriver(driver)) >= 0 { return Failure(BadRequest); }
      if agent.None? || agent.value !in agents || !driverExists { return Failure(NotFound); }
      var referral := Referral(agent.value, driver, code, 0.0);
      referrals := referrals + [referral];
      agents := agents[agent.value := agents[agent.value].(totalReferrals := agents[agent.value].totalReferrals + 1)];
      return Success(referral);
    }

    method EarnFromDriversTrip(driver: Option<Id>, completed: nat, s: Settings) returns (reply: Option<Earning>)
      modifies this
      ensures (State(), reply) == EarnFromTrip(old(State()), driver, completed, s)
    {
      if driver.None? || completed < 1 || !s.isActive { return None; }
      var i := IndexOf(referrals, OfDriver(driver.value));
      if i < 0 { return None; }
      var referral := referrals[i];
      var currentEarned := referral.earnedAmount;
      if currentEarned >= s.maxEarningPerDriver { return None; }
      var remaining := s.maxEarningPerDriver - currentEarned;
      var increment := Min(s.earningPerTrip, remaining);
      if increment <= 0.0 { return None; }
      referrals := referrals[i := referral.(earnedAmount := currentEarned + increment)];
      if referral.agentId in agents {
        var a := agents[referral.agentId];
        agents := agents[referral.agentId := a.(currentBalance := a.currentBalance + increment)];
        a := agents[referral.agentId];
        agents := agents[referral.agentId := a.(totalCommission := a.totalCommission + increment)];
      }
      assert agents == Credit(old(agents), referral.agentId, increment);
      return Some(Earning(referral.agentId, driver.value, increment, currentEarned + increment, remaining - increment));
    }
  }
}
