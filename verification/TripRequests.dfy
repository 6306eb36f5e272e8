/** trip-request.repository.ts: date spelling, duplicate suppression and the admin's approve and decline. */
module TripRequests {
  import opened Common
  import opened Tables

  // ---- Dates ----

  predicate IsDigit(c: char) { '0' <= c <= '9' }

  /** The white space String.prototype.trim removes. */
  predicate IsSpace(c: char) {
    c in {' ', '\t', '\n', '\U{0B}', '\U{0C}', '\r', '\U{A0}', '\U{1680}', '\U{2028}', '\U{2029}', '\U{202F}', '\U{205F}',
          '\U{3000}', '\U{FEFF}'} || '\U{2000}' <= c <= '\U{200A}'
  }

  function TrimStart(s: string): string { if s != "" && IsSpace(s[0]) then TrimStart(s[1..]) else s }

  function TrimEnd(s: string): string { if s != "" && IsSpace(s[|s| - 1]) then TrimEnd(s[..|s| - 1]) else s }

  function Trim(s: string): string { TrimEnd(TrimStart(s)) }

  predicate Digits(s: string) { forall i :: 0 <= i < |s| ==> IsDigit(s[i]) }

  /** /^\d{4}-\d{2}-\d{2}$/ */
  predicate IsIso(s: string) {
    |s| == 10 && s[4] == '-' && s[7] == '-' && Digits(s[..4]) && Digits(s[5..7]) && Digits(s[8..])
  }

  /** /^(\d{2})[-\/](\d{2})[-\/](\d{4})$/ */
  predicate IsDayFirst(s: string) {
    |s| == 10 && s[2] in {'-', '/'} && s[5] in {'-', '/'} && Digits(s[..2]) && Digits(s[3..5]) && Digits(s[6..])
  }

  function Value(s: string): int
    requires Digits(s)
  {
    if s == "" then 0 else Value(s[..|s| - 1]) * 10 + (s[|s| - 1] - '0') as int
  }

  function NormalizeDate(input: string): Option<string> {
    var s := Trim(input);
    if IsIso(s) then Some(s)
    else if IsDayFirst(s) && 1 <= Value(s[3..5]) <= 12 && 1 <= Value(s[..2]) <= 31 then
      Some(Iso(s[6..], s[3..5], s[..2]))
    else None
  }

  lemma NothingToTrim(s: string)
    requires s != "" && IsDigit(s[0]) && IsDigit(s[|s| - 1])
    ensures Trim(s) == s
  {
    assert TrimStart(s) == s;
  }

  lemma IsoEnds(s: string)
    requires IsIso(s)
    ensures Trim(s) == s
  {
    assert IsDigit(s[..4][0]) && IsDigit(s[8..][1]);
    NothingToTrim(s);
  }

  function Iso(yyyy: string, mm: string, dd: string): string { yyyy + "-" + mm + "-" + dd }

  lemma IsoParts(yyyy: string, mm: string, dd: string)
    requires |dd| == 2 && |mm| == 2 && |yyyy| == 4 && Digits(dd) && Digits(mm) && Digits(yyyy)
    ensures IsIso(Iso(yyyy, mm, dd)) && NormalizeDate(Iso(yyyy, mm, dd)) == Some(Iso(yyyy, mm, dd))
  {
    var s := Iso(yyyy, mm, dd);
    assert s[..4] == yyyy && s[5..7] == mm && s[8..] == dd;
    IsoEnds(s);
  }

  /** What comes out is an ISO spelling, and normalising it again changes nothing. */
  lemma NormalizeIdempotent(input: string)
    ensures match NormalizeDate(input)
            case Some(iso) => IsIso(iso) && NormalizeDate(iso) == Some(iso)
            case None => true
  {
    var s := Trim(input);
    if IsIso(s) {
      IsoEnds(s);
    } else if NormalizeDate(input).Some? {
      IsoParts(s[6..], s[3..5], s[..2]);
    }
  }

  /**
   * A day-first spelling, with either separator, normalises to the ISO spelling of the same day exactly when month and
   * day are in range; the ISO spelling is taken as it stands, without a range check.
   */
  lemma SpellingsAgree(dd: string, mm: string, yyyy: string, a: char, b: char)
    requires |dd| == 2 && |mm| == 2 && |yyyy| == 4 && Digits(dd) && Digits(mm) && Digits(yyyy)
    requires a in {'-', '/'} && b in {'-', '/'}
    ensures NormalizeDate(Iso(yyyy, mm, dd)) == Some(Iso(yyyy, mm, dd))
    ensures NormalizeDate(dd + [a] + mm + [b] + yyyy)
            == if 1 <= Value(mm) <= 12 && 1 <= Value(dd) <= 31 then Some(Iso(yyyy, mm, dd)) else None
  {
    var s := dd + [a] + mm + [b] + yyyy;
    assert s[..2] == dd && s[3..5] == mm && s[6..] == yyyy && s[2] == a && s[5] == b;
    assert s[0] == dd[0] && s[9] == yyyy[3] && s[4] == mm[1];
    NothingToTrim(s);
    IsoParts(yyyy, mm, dd);
  }

  predicate Spaces(s: string) { forall i :: 0 <= i < |s| ==> IsSpace(s[i]) }

  lemma {:induction false} LeadingSpaces(pre: string, s: string)
    requires Spaces(pre)
    ensures TrimStart(pre + s) == TrimStart(s)
  {
    if pre == "" {
      assert pre + s == s;
    } else {
      assert (pre + s)[1..] == pre[1..] + s;
      LeadingSpaces(pre[1..], s);
    }
  }

  lemma {:induction false} TrailingSpaces(s: string, post: string)
    requires Spaces(post)
    ensures TrimEnd(s + post) == TrimEnd(s)
  {
    if post == "" {
      assert s + post == s;
    } else {
      var n := |post| - 1;
      assert (s + post)[..|s + post| - 1] == s + post[..n];
      TrailingSpaces(s, post[..n]);
    }
  }

  /** White space around a spelling does not matter. */
  lemma {:induction false} PaddingIgnored(pre: string, s: string, post: string)
    requires Spaces(pre) && Spaces(post)
    ensures NormalizeDate(pre + s + post) == NormalizeDate(s)
    decreases |s|
  {
    if s == "" {
      assert pre + s + post == (pre + post) + "";
      LeadingSpaces(pre + post, "");
    } else if IsSpace(s[0]) {
      assert pre + s + post == (pre + [s[0]]) + s[1..] + post;
      PaddingIgnored(pre + [s[0]], s[1..], post);
    } else {
      assert pre + s + post == pre + (s + post);
      LeadingSpaces(pre, s + post);
      assert TrimStart(s + post) == s + post && TrimStart(s) == s;
      TrailingSpaces(s, post);
    }
  }

  lemma Thirteen()
    ensures Value("13") == 13
  {
    assert Value("1") == Value("") * 10 + 1;
    assert "13"[..1] == "1" && Value("13") == Value("1") * 10 + 3;
  }

  /** A thirteenth month is taken in the ISO spelling and refused day-first. */
  lemma MonthThirteen()
    ensures NormalizeDate("2025-13-01") == Some("2025-13-01") && NormalizeDate("01-13-2025") == None
  {
    hide NormalizeDate, Value;
    Thirteen();
    SpellingsAgree("01", "13", "2025", '-', '-');
    assert Iso("2025", "13", "01") == "2025-13-01";
    assert "01" + ['-'] + "13" + ['-'] + "2025" == "01-13-2025";
  }

  // ---- Requests ----

  datatype Status = Pending | Approved | Declined | Fulfilled | Booked | Expired

  datatype PoolStatus = Matching | Board | Claimed | PoolFulfilled | PoolExpired

  datatype Request = Request(id: Id, requester: Id, origin: string, destination: string, date: string, seats: int,
                             status: Status, pool: Option<Id>, adminNote: Option<string>, linkedTrip: Option<Id>,
                             processedBy: Option<Id>, processedAt: Option<int>)

  datatype Db = Db(requests: seq<Request>, pools: map<Id, PoolStatus>)

  function Same(requester: Id, origin: string, destination: string, date: string): Request -> bool {
    (r: Request) => r.requester == requester && r.origin == origin && r.destination == destination && r.date == date
                    && r.status == Pending
  }

  function HasId(id: Id): Request -> bool { (r: Request) => r.id == id }

  /** The admin may act: no pool, a pool row that is gone, or an expired pool. */
  predicate Unpooled(db: Db, r: Request) {
    r.pool.None? || r.pool.value !in db.pools || db.pools[r.pool.value] == PoolExpired
  }

  /** `id` is the fresh row id; dateOk says whether the date column accepts the normalised day. */
  function Create(db: Db, id: Id, requester: Id, origin: string, destination: string, date: string, seats: Option<int>,
                  dateOk: bool)
    : (Db, Result<Request, Fault>)
  {
    var iso := NormalizeDate(date);
    if iso.None? then (db, Failure(BadRequest))
    else if !dateOk then (db, Failure(DatabaseError))
    else
      var i := IndexOf(db.requests, Same(requester, origin, destination, iso.value));
      if i >= 0 then (db, Success(db.requests[i]))
      else if IndexOf(db.requests, HasId(id)) >= 0 then (db, Failure(DatabaseError))
      else
        var row := Request(id, requester, origin, destination, iso.value, if seats.Some? then seats.value else 1,
                           Pending, None, None, None, None, None);
        (db.(requests := db.requests + [row]), Success(row))
  }

  /** approveRequest; trip is the requested link, tripExists whether that trip row was found. */
  function Approve(db: Db, admin: Id, id: Id, trip: Option<Id>, tripExists: bool, note: Option<string>, now: int)
    : (Db, Result<Request, Fault>)
  {
    var i := IndexOf(db.requests, HasId(id));
    if i < 0 then (db, Failure(NotFound))
    else if db.requests[i].status != Pending || !Unpooled(db, db.requests[i]) then (db, Failure(BadRequest))
    else if trip.Some? && !tripExists then (db, Failure(NotFound))
    else
      var r := db.requests[i].(status := Approved, linkedTrip := trip, adminNote := note, processedBy := Some(admin),
                               processedAt := Some(now));
      (db.(requests := db.requests[i := r]), Success(r))
  }

  function Decline(db: Db, admin: Id, id: Id, reason: string, now: int): (Db, Result<Request, Fault>) {
    var i := IndexOf(db.requests, HasId(id));
    if i < 0 then (db, Failure(NotFound))
    else if db.requests[i].status != Pending || !Unpooled(db, db.requests[i]) then (db, Failure(BadRequest))
    else
      var r := db.requests[i].(status := Declined, adminNote := Some(reason), processedBy := Some(admin), processedAt := Some(now));
      (db.(requests := db.requests[i := r]), Success(r))
  }

  /** A status a request can be moved to; nothing puts one back to PENDING. */
  type Outcome = s: Status | s != Pending witness Approved

  /**
   * Join, SetPool and Move stand for the matching pipeline and the payment: they group requests, move pools, and approve,
   * book or expire requests, without looking at what the request was (trip-matching.service.ts:614-619, :892, :1173).
   */
  datatype Call =
    | New(id: Id, requester: Id, origin: string, destination: string, date: string, seats: Option<int>, dateOk: bool)
    | Accept(admin: Id, request: Id, trip: Option<Id>, tripExists: bool, note: Option<string>, now: int)
    | Refuse(admin: Id, request: Id, reason: string, now: int)
    | Join(row: nat, pool: Id)
    | SetPool(pool: Id, poolStatus: PoolStatus)
    | Move(row: nat, to: Outcome, trip: Option<Id>, at: Option<int>)

  function Step(db: Db, c: Call): Db {
    match c
    case New(id, u, o, d, date, n, ok) => Create(db, id, u, o, d, date, n, ok).0
    case Accept(a, id, t, e, note, now) => Approve(db, a, id, t, e, note, now).0
    case Refuse(a, id, why, now) => Decline(db, a, id, why, now).0
    case Join(i, p) =>
      if i < |db.requests| then db.(requests := db.requests[i := db.requests[i].(pool := Some(p))]) else db
    case SetPool(p, s) => db.(pools := db.pools[p := s])
    case Move(i, to, trip, at) =>
      if i < |db.requests|
      then db.(requests := db.requests[i := db.requests[i].(status := to, linkedTrip := trip, processedAt := at)]) else db
  }

  function Run(db: Db, calls: seq<Call>): Db {
    if calls == [] then db else Step(Run(db, calls[..|calls| - 1]), calls[|calls| - 1])
  }

  const EMPTY := Db([], map[])

  // ---- De-duplication ----

  predicate Twins(a: Request, b: Request) { a.status == Pending && Same(a.requester, a.origin, a.destination, a.date)(b) }

  ghost predicate NoTwins(requests: seq<Request>) {
    && (forall i, j :: 0 <= i < j < |requests| ==> !Twins(requests[i], requests[j]) && requests[i].id != requests[j].id)
    && (forall i :: 0 <= i < |requests| ==> IsIso(requests[i].date))
  }

  /** A row may leave PENDING or join a pool, but keeps who asked for what. */
  predicate Aged(a: Request, b: Request) {
    b.id == a.id && b.requester == a.requester && b.origin == a.origin && b.destination == a.destination && b.date == a.date
    && (b.status == Pending ==> a.status == Pending)
  }

  lemma AgingKeeps(requests: seq<Request>, i: nat, r: Request)
    requires NoTwins(requests) && i < |requests| && Aged(requests[i], r)
    ensures NoTwins(requests[i := r])
  {
    var requests' := requests[i := r];
    forall j, k | 0 <= j < k < |requests'| ensures !Twins(requests'[j], requests'[k]) && requests'[j].id != requests'[k].id {
      assert !Twins(requests[j], requests[k]) && requests[j].id != requests[k].id;
    }
  }

  lemma CreateKeeps(db: Db, id: Id, requester: Id, origin: string, destination: string, date: string, seats: Option<int>,
                    dateOk: bool)
    requires NoTwins(db.requests)
    ensures NoTwins(Create(db, id, requester, origin, destination, date, seats, dateOk).0.requests)
  {
    hide NormalizeDate, IsIso;
    var db' := Create(db, id, requester, origin, destination, date, seats, dateOk).0;
    if db' != db {
      NormalizeIdempotent(date);
      var row := db'.requests[|db.requests|];
      forall j | 0 <= j < |db.requests| ensures !Twins(db.requests[j], row) && db.requests[j].id != id {
        assert !Same(requester, origin, destination, row.date)(db.requests[j]) && !HasId(id)(db.requests[j]);
      }
    }
  }

  lemma StepKeeps(db: Db, c: Call)
    requires NoTwins(db.requests)
    ensures NoTwins(Step(db, c).requests)
  {
    hide Create, NoTwins;
    var db' := Step(db, c);
    match c
    case New(id, u, o, d, date, n, ok) => CreateKeeps(db, id, u, o, d, date, n, ok);
    case Accept(_, id, _, _, _, _) =>
      if db' != db { AgingKeeps(db.requests, IndexOf(db.requests, HasId(id)), db'.requests[IndexOf(db.requests, HasId(id))]); }
    case Refuse(_, id, _, _) =>
      if db' != db { AgingKeeps(db.requests, IndexOf(db.requests, HasId(id)), db'.requests[IndexOf(db.requests, HasId(id))]); }
    case Join(i, p) =>
      if i < |db.requests| { AgingKeeps(db.requests, i, db'.requests[i]); }
    case SetPool(_, _) =>
    case Move(i, _, _, _) =>
      if i < |db.requests| { AgingKeeps(db.requests, i, db'.requests[i]); }
  }

  /** Over every run there is at most one pending request per requester, route and day. */
  lemma {:induction false} AtMostOnePending(calls: seq<Call>)
    ensures NoTwins(Run(EMPTY, calls).requests)
  {
    if calls != [] {
      AtMostOnePending(calls[..|calls| - 1]);
      StepKeeps(Run(EMPTY, calls[..|calls| - 1]), calls[|calls| - 1]);
    }
  }

  /** Asking again in another spelling of the day returns the pending request itself and stores nothing. */
  lemma OtherSpellingSameRequest(db: Db, i: nat, id: Id, date: string, seats: Option<int>)
    requires NoTwins(db.requests) && i < |db.requests| && db.requests[i].status == Pending
    requires NormalizeDate(date) == Some(db.requests[i].date)
    ensures var r := db.requests[i];
            Create(db, id, r.requester, r.origin, r.destination, date, seats, true) == (db, Success(r))
  {
    var r := db.requests[i];
    forall j | 0 <= j < |db.requests| && Same(r.requester, r.origin, r.destination, r.date)(db.requests[j]) ensures j == i {
      assert Twins(db.requests[if j < i then j else i], db.requests[if j < i then i else j]);
    }
    IndexOfOnly(db.requests, Same(r.requester, r.origin, r.destination, r.date), i);
  }

  /** No call but the pipeline's own changes a request whose existing pool has not expired. */
  lemma PooledUntouched(db: Db, c: Call, i: nat)
    requires i < |db.requests| && !Unpooled(db, db.requests[i]) && !c.Join? && !c.Move?
    ensures i < |Step(db, c).requests| && Step(db, c).requests[i] == db.requests[i]
  {
  }

  /** Row i is still the same request, and has left PENDING for good. */
  predicate Decided(db: Db, i: nat, id: Id) { i < |db.requests| && db.requests[i].id == id && db.requests[i].status != Pending }

  lemma DecidedStays(db: Db, c: Call, i: nat, id: Id)
    requires Decided(db, i, id)
    ensures Decided(Step(db, c), i, id)
  {
  }

  lemma DecidedIsRefused(db: Db, i: nat, admin: Id, id: Id, trip: Option<Id>, tripExists: bool, note: Option<string>,
                         reason: string, now: int)
    requires NoTwins(db.requests) && Decided(db, i, id)
    ensures Approve(db, admin, id, trip, tripExists, note, now) == (db, Failure(BadRequest))
    ensures Decline(db, admin, id, reason, now) == (db, Failure(BadRequest))
  {
    forall j | 0 <= j < |db.requests| && HasId(id)(db.requests[j]) ensures j == i {
      assert db.requests[if j < i then j else i].id == db.requests[if j < i then i else j].id;
    }
    IndexOfOnly(db.requests, HasId(id), i);
  }

  lemma {:induction false} RunKeeps(db: Db, calls: seq<Call>)
    requires NoTwins(db.requests)
    ensures NoTwins(Run(db, calls).requests)
  {
    if calls != [] {
      RunKeeps(db, calls[..|calls| - 1]);
      StepKeeps(Run(db, calls[..|calls| - 1]), calls[|calls| - 1]);
    }
  }

  lemma {:induction false} DecidedForGood(db: Db, calls: seq<Call>, i: nat, id: Id)
    requires Decided(db, i, id)
    ensures Decided(Run(db, calls), i, id)
  {
    if calls != [] {
      DecidedForGood(db, calls[..|calls| - 1], i, id);
      DecidedStays(Run(db, calls[..|calls| - 1]), calls[|calls| - 1], i, id);
    }
  }

  /** A request an admin has approved or declined is never approved or declined again, whatever happens in between. */
  lemma DecidedOnce(db: Db, decision: Call, calls: seq<Call>, again: Call)
    requires NoTwins(db.requests)
    requires (decision.Accept? || decision.Refuse?) && Step(db, decision) != db
    requires (again.Accept? || again.Refuse?) && again.request == decision.request
    ensures Step(Run(Step(db, decision), calls), again) == Run(Step(db, decision), calls)
  {
    var id := decision.request;
    var i := IndexOf(db.requests, HasId(id));
    var after := Run(Step(db, decision), calls);
    StepKeeps(db, decision);
    RunKeeps(Step(db, decision), calls);
    DecidedForGood(Step(db, decision), calls, i, id);
    match again
    case Accept(admin, _, trip, exists', note, now) => DecidedIsRefused(after, i, admin, id, trip, exists', note, "", now);
    case Refuse(admin, _, reason, now) => DecidedIsRefused(after, i, admin, id, None, false, None, reason, now);
  }

  // ---- What each call stores ----

  predicate FirstRequest(requests: seq<Request>, i: int, id: Id) {
    0 <= i < |requests| && requests[i].id == id && forall j :: 0 <= j < i ==> requests[j].id != id
  }

  lemma RequestIndex(requests: seq<Request>, id: Id)
    ensures var i := IndexOf(requests, HasId(id));
            && (i >= 0 ==> FirstRequest(requests, i, id)) && (forall k :: FirstRequest(requests, k, id) ==> k == i)
            && (i < 0 <==> forall j :: 0 <= j < |requests| ==> requests[j].id != id)
  {
    var i := IndexOf(requests, HasId(id));
    forall j | 0 <= j < (if i < 0 then |requests| else i) ensures requests[j].id != id {
      assert !HasId(id)(requests[j]);
    }
    forall k | FirstRequest(requests, k, id) ensures k == i {
      assert HasId(id)(requests[k]);
    }
  }

  /** The admin decides only a pending request that is in no pool, in one that is gone, or in an expired one. */
  predicate MayDecide(db: Db, r: Request) {
    r.status == Pending && (r.pool.Some? && r.pool.value in db.pools ==> db.pools[r.pool.value] == PoolExpired)
  }

  /** approveRequest stores Approved, the link, the note, and who decided when; a link must name a stored trip. */
  lemma ApproveStores(db: Db, admin: Id, id: Id, trip: Option<Id>, tripExists: bool, note: Option<string>, now: int)
    ensures var (db', reply) := Approve(db, admin, id, trip, tripExists, note, now);
            && (reply.Success? <==> (trip.Some? ==> tripExists)
                                    && exists i :: FirstRequest(db.requests, i, id) && MayDecide(db, db.requests[i]))
            && (reply.Failure? ==> db' == db)
            && db'.pools == db.pools
            && (forall i :: FirstRequest(db.requests, i, id) && reply.Success? ==>
                  && db'.requests == db.requests[i := reply.value]
                  && reply.value == db.requests[i].(status := Approved, linkedTrip := trip, adminNote := note,
                                                    processedBy := Some(admin), processedAt := Some(now)))
  {
    RequestIndex(db.requests, id);
    var i := IndexOf(db.requests, HasId(id));
    if i >= 0 {
      assert Approve(db, admin, id, trip, tripExists, note, now).1.Success?
        <==> MayDecide(db, db.requests[i]) && (trip.Some? ==> tripExists);
    }
  }

  /** declineRequest stores Declined, the reason as the note, and who decided when; a link already there stays. */
  lemma DeclineStores(db: Db, admin: Id, id: Id, reason: string, now: int)
    ensures var (db', reply) := Decline(db, admin, id, reason, now);
            && (reply.Success? <==> exists i :: FirstRequest(db.requests, i, id) && MayDecide(db, db.requests[i]))
            && (reply.Failure? ==> db' == db)
            && db'.pools == db.pools
            && (forall i :: FirstRequest(db.requests, i, id) && reply.Success? ==>
                  && db'.requests == db.requests[i := reply.value]
                  && reply.value == db.requests[i].(status := Declined, adminNote := Some(reason),
                                                    processedBy := Some(admin), processedAt := Some(now)))
  {
    RequestIndex(db.requests, id);
    var i := IndexOf(db.requests, HasId(id));
    if i >= 0 {
      assert Decline(db, admin, id, reason, now).1.Success? <==> MayDecide(db, db.requests[i]);
    }
  }

  /** The same wish: requester, route and day, still pending. */
  predicate SameWish(r: Request, requester: Id, origin: string, destination: string, day: string) {
    r.requester == requester && r.origin == origin && r.destination == destination && r.date == day && r.status == Pending
  }

  /** createRequest stores a new pending request for one seat unless told otherwise, if the same wish is not pending already. */
  lemma CreateStores(db: Db, id: Id, requester: Id, origin: string, destination: string, date: string, seats: Option<int>,
                     dateOk: bool)
    ensures var (db', reply) := Create(db, id, requester, origin, destination, date, seats, dateOk);
            && (NormalizeDate(date).None? || !dateOk ==> reply.Failure? && db' == db)
            && (reply.Success? ==>
                  NormalizeDate(date).Some? && SameWish(reply.value, requester, origin, destination, NormalizeDate(date).value))
            && (db' == db || (reply.Success? && db' == db.(requests := db.requests + [reply.value])))
            && (db' != db <==>
                  && NormalizeDate(date).Some? && dateOk
                  && (forall j :: 0 <= j < |db.requests| ==>
                        !SameWish(db.requests[j], requester, origin, destination, NormalizeDate(date).value))
                  && (forall j :: 0 <= j < |db.requests| ==> db.requests[j].id != id))
            && (db' != db ==>
                  && reply.value.id == id && reply.value.seats == (if seats.Some? then seats.value else 1)
                  && reply.value.pool == None && reply.value.linkedTrip == None && reply.value.adminNote == None
                  && reply.value.processedBy == None && reply.value.processedAt == None)
  {
    hide NormalizeDate;
    RequestIndex(db.requests, id);
    if NormalizeDate(date).Some? {
      var same := Same(requester, origin, destination, NormalizeDate(date).value);
      forall j | 0 <= j < |db.requests|
        ensures SameWish(db.requests[j], requester, origin, destination, NormalizeDate(date).value) <==> same(db.requests[j])
      {
      }
    }
  }

  // ---- In the source's own form ----

  lemma StaysDistinct(db: Db, c: Call)
    ensures NoTwins(db.requests) ==> NoTwins(Step(db, c).requests)
  {
    if NoTwins(db.requests) {
      StepKeeps(db, c);
    }
  }

  /** No row but the request's own is rewritten, and that one keeps who asked for what. */
  predicate OnlyRow(requests: seq<Request>, requests': seq<Request>, id: Id) {
    && |requests'| == |requests|
    && forall i :: 0 <= i < |requests| ==> Aged(requests[i], requests'[i]) && (requests[i].id != id ==> requests'[i] == requests[i])
  }

  class TripRequestRepository {
    var requests: seq<Request>
    var pools: map<Id, PoolStatus>

    constructor ()
      ensures State() == EMPTY
    {
      requests, pools := [], map[];
    }

    function State(): Db
      reads this
    {
      Db(requests, pools)
    }

    method CreateRequest(id: Id, requester: Id, origin: string, destination: string, date: string, seats: Option<int>, dateOk: bool)
      returns (reply: Result<Request, Fault>)
      modifies this`requests
      ensures (State(), reply) == Create(old(State()), id, requester, origin, destination, date, seats, dateOk)
      ensures NoTwins(old(requests)) ==> NoTwins(requests)
      ensures old(requests) <= requests
    {
      StaysDistinct(State(), New(id, requester, origin, destination, date, seats, dateOk));
      var iso := NormalizeDate(date);
      if iso.None? { return Failure(BadRequest); }
      if !dateOk { return Failure(DatabaseError); }
      var existing := IndexOf(requests, Same(requester, origin, destination, iso.value));
      if existing >= 0 { return Success(requests[existing]); }
      if IndexOf(requests, HasId(id)) >= 0 { return Failure(DatabaseError); }
      var entity := Request(id, requester, origin, destination, iso.value, if seats.Some? then seats.value else 1,
                            Pending, None, None, None, None, None);
      requests := requests + [entity];
      return Success(entity);
    }

    method ApproveRequest(admin: Id, id: Id, trip: Option<Id>, tripExists: bool, note: Option<string>, now: int)
      returns (reply: Result<Request, Fault>)
      modifies this`requests
      ensures (State(), reply) == Approve(old(State()), admin, id, trip, tripExists, note, now)
      ensures NoTwins(old(requests)) ==> NoTwins(requests)
      ensures OnlyRow(old(requests), requests, id)
    {
      StaysDistinct(State(), Accept(admin, id, trip, tripExists, note, now));
      var i := IndexOf(requests, HasId(id));
      if i < 0 { return Failure(NotFound); }
      var req := requests[i];
      if req.status != Pending { return Failure(BadRequest); }
      if !Unpooled(State(), req) { return Failure(BadRequest); }
      if trip.Some? && !tripExists { return Failure(NotFound); }
      req := req.(status := Approved);
      req := req.(linkedTrip := trip, adminNote := note, processedBy := Some(admin), processedAt := Some(now));
      requests := requests[i := req];
      return Success(req);
    }

    method DeclineRequest(admin: Id, id: Id, reason: string, now: int) returns (reply: Result<Request, Fault>)
      modifies this`requests
      ensures (State(), reply) == Decline(old(State()), admin, id, reason, now)
      ensures NoTwins(old(requests)) ==> NoTwins(requests)
      ensures OnlyRow(old(requests), requests, id)
    {
      StaysDistinct(State(), Refuse(admin, id, reason, now));
      var i := IndexOf(requests, HasId(id));
      if i < 0 { return Failure(NotFound); }
      var req := requests[i];
      if req.status != Pending { return Failure(BadRequest); }
      if !Unpooled(State(), req) { return Failure(BadRequest); }
      req := req.(status := Declined, adminNote := Some(reason), processedBy := Some(admin), processedAt := Some(now));
      requests := requests[i := req];
      return Success(req);
    }
  }
}
