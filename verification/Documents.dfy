/** admin.repository.ts: driver document review, with a per-type mirror on the driver row and two verification flags. */
module Documents {
  import opened Common
  import opened Tables
  import opened Text

  datatype Status = Pending | Approved | Rejected

  datatype Doc = Doc(id: Id, driver: Id, docType: string, url: string, data: Option<string>, status: Status, reason: Option<string>)

  /** One entry of licenseData.documents. */
  datatype Mirror = Mirror(url: string, data: Option<string>, status: Status, reason: Option<string>)

  datatype Driver = Driver(documents: map<string, Mirror>, license: Option<string>, licenseVerified: bool, kycCompleted: bool)

  const NEW_DRIVER := Driver(map[], None, false, false)

  datatype Db = Db(docs: seq<Doc>, drivers: map<Id, Driver>)

  /** The fields an update carries; an absent one is None and leaves the column alone. */
  datatype Changes = Changes(url: Option<string>, data: Option<string>, status: Option<Status>, reason: Option<string>)

  function HasId(id: Id): Doc -> bool { (d: Doc) => d.id == id }

  function Or<T>(a: Option<T>, b: T): T { if a.Some? then a.value else b }

  function OrElse<T>(a: Option<T>, b: Option<T>): Option<T> { if a.Some? then a else b }

  predicate IsLicense(docType: string) {
    Lower(docType) in {"license", "driverlicense", "document_front_side", "document_back_side"}
  }

  // ---- The calls ----

  function SetMirror(drivers: map<Id, Driver>, id: Id, docType: string, m: Mirror): map<Id, Driver> {
    if id in drivers then drivers[id := drivers[id].(documents := drivers[id].documents[docType := m])] else drivers
  }

  /** addDriverDocuments, default branch: a missing driver undoes the saved document. */
  function Add(db: Db, id: Id, driver: Id, docType: string, url: string, name: Option<string>): (Db, Option<Fault>) {
    if driver !in db.drivers || IndexOf(db.docs, HasId(id)) >= 0 then (db, Some(DatabaseError))
    else
      (Db(db.docs + [Doc(id, driver, docType, url, name, Pending, None)],
          SetMirror(db.drivers, driver, docType, Mirror(url, name, Pending, None))), None)
  }

  function Changed(d: Doc, c: Changes): Doc {
    d.(url := Or(c.url, d.url), data := OrElse(c.data, d.data), status := Or(c.status, d.status), reason := OrElse(c.reason, d.reason))
  }

  function Update(db: Db, id: Id, c: Changes): (Db, Option<Fault>) {
    var i := IndexOf(db.docs, HasId(id));
    if i < 0 then (db, Some(NotFound))
    else
      var d := Changed(db.docs[i], c);
      (Db(db.docs[i := d], SetMirror(db.drivers, d.driver, d.docType, Mirror(d.url, d.data, d.status, d.reason))), None)
  }

  function License(drivers: map<Id, Driver>, d: Doc, verified: bool): map<Id, Driver> {
    if d.driver !in drivers || !IsLicense(d.docType) then drivers
    else
      drivers[d.driver := drivers[d.driver].(
        licenseVerified := verified,
        license := if verified then Some(d.url) else drivers[d.driver].license)]
  }

  predicate AllApproved(docs: seq<Doc>, driver: Id) {
    && (exists i :: 0 <= i < |docs| && docs[i].driver == driver)
    && (forall i :: 0 <= i < |docs| && docs[i].driver == driver ==> docs[i].status == Approved)
  }

  function RecalculateKyc(db: Db, driver: Id): Db {
    if driver in db.drivers && AllApproved(db.docs, driver)
    then db.(drivers := db.drivers[driver := db.drivers[driver].(kycCompleted := true)])
    else db
  }

  function Approve(db: Db, id: Id): (Db, Option<Fault>) {
    var i := IndexOf(db.docs, HasId(id));
    if i < 0 then (db, Some(NotFound))
    else if db.docs[i].status == Approved then (db, Some(BadRequest))
    else
      var d := db.docs[i].(status := Approved);
      var mirrored := SetMirror(db.drivers, d.driver, d.docType, Mirror(d.url, d.data, Approved, None));
      (RecalculateKyc(Db(db.docs[i := d], License(mirrored, d, true)), d.driver), None)
  }

  function Reject(db: Db, id: Id, reason: string): (Db, Option<Fault>) {
    var i := IndexOf(db.docs, HasId(id));
    if i < 0 then (db, Some(NotFound))
    else
      var d := db.docs[i].(status := Rejected, reason := Some(reason));
      var mirrored := SetMirror(db.drivers, d.driver, d.docType, Mirror(d.url, d.data, Rejected, Some(reason)));
      (Db(db.docs[i := d], License(mirrored, d, false)), None)
  }

  datatype Call =
    | Upload(id: Id, driver: Id, docType: string, url: string, name: Option<string>)
    | Edit(id: Id, changes: Changes)
    | Accept(id: Id)
    | Refuse(id: Id, reason: string)

  function Step(db: Db, c: Call): (Db, Option<Fault>) {
    match c
    case Upload(id, d, t, url, name) => Add(db, id, d, t, url, name)
    case Edit(id, changes) => Update(db, id, changes)
    case Accept(id) => Approve(db, id)
    case Refuse(id, reason) => Reject(db, id, reason)
  }

  // ---- Runs, with their history ----

  /** A licence review outcome. */
  datatype Review = Review(driver: Id, approved: bool)

  /** The state, the positions of the rows touched so far, and the licence reviews so far, oldest first. */
  datatype Trace = Trace(db: Db, touched: seq<nat>, reviews: seq<Review>)

  /** The row a successful call touched. */
  function TouchedBy(db: Db, c: Call): int { if c.Upload? then |db.docs| else IndexOf(db.docs, HasId(c.id)) }

  function Advance(t: Trace, c: Call): Trace {
    var (db', fault) := Step(t.db, c);
    if fault.Some? then t
    else
      var i := TouchedBy(t.db, c);
      var reviewed := (c.Accept? || c.Refuse?) && IsLicense(db'.docs[i].docType);
      Trace(db', t.touched + [i], if reviewed then t.reviews + [Review(db'.docs[i].driver, c.Accept?)] else t.reviews)
  }

  function Run(drivers: set<Id>, calls: seq<Call>): Trace {
    if calls == [] then Trace(Db([], map d <- drivers :: NEW_DRIVER), [], [])
    else Advance(Run(drivers, calls[..|calls| - 1]), calls[|calls| - 1])
  }

  predicate IsOf(d: Doc, driver: Id, docType: string) { d.driver == driver && d.docType == docType }

  /** The row of that driver and type touched last, or -1. */
  function LastTouched(docs: seq<Doc>, touched: seq<nat>, driver: Id, docType: string): int {
    if touched == [] then -1
    else
      var i := touched[|touched| - 1];
      if i < |docs| && IsOf(docs[i], driver, docType) then i else LastTouched(docs, touched[..|touched| - 1], driver, docType)
  }

  function LastReview(reviews: seq<Review>, driver: Id): bool {
    if reviews == [] then false
    else if reviews[|reviews| - 1].driver == driver then reviews[|reviews| - 1].approved
    else LastReview(reviews[..|reviews| - 1], driver)
  }

  /** The mirror entry has the status and URL of the row of its type last touched, and exists only if there is one. */
  ghost predicate Mirrored(t: Trace, driver: Id, docType: string)
    requires driver in t.db.drivers
  {
    Agrees(t.db.drivers[driver].documents, t.db.docs, LastTouched(t.db.docs, t.touched, driver, docType), docType)
  }

  ghost predicate Inv(t: Trace) {
    && (forall k :: 0 <= k < |t.touched| ==> t.touched[k] < |t.db.docs|)
    && (forall i :: 0 <= i < |t.db.docs| ==> t.db.docs[i].driver in t.db.drivers)
    && (forall driver <- t.db.drivers, docType: string :: Mirrored(t, driver, docType))
    && (forall driver <- t.db.drivers :: t.db.drivers[driver].licenseVerified == LastReview(t.reviews, driver))
  }

  lemma {:induction false} LastTouchedIs(docs: seq<Doc>, touched: seq<nat>, driver: Id, docType: string)
    ensures var i := LastTouched(docs, touched, driver, docType);
            -1 <= i && (i >= 0 ==> i in touched && i < |docs| && IsOf(docs[i], driver, docType))
  {
    if touched != [] {
      LastTouchedIs(docs, touched[..|touched| - 1], driver, docType);
    }
  }

  /** Rows never change driver or type, so who was touched last does not depend on later edits. */
  lemma {:induction false} LastTouchedStable(docs: seq<Doc>, docs': seq<Doc>, touched: seq<nat>, driver: Id, docType: string)
    requires |docs| <= |docs'| && forall k :: 0 <= k < |touched| ==> touched[k] < |docs|
    requires forall i :: 0 <= i < |docs| ==> docs'[i].driver == docs[i].driver && docs'[i].docType == docs[i].docType
    ensures LastTouched(docs', touched, driver, docType) == LastTouched(docs, touched, driver, docType)
  {
    if touched != [] {
      LastTouchedStable(docs, docs', touched[..|touched| - 1], driver, docType);
    }
  }

  /** What a successful call does, seen from the mirror: row i is rewritten, and one entry copies it. */
  lemma CallEffect(db: Db, c: Call)
    requires Step(db, c).1.None?
    ensures var db' := Step(db, c).0;
            var i := TouchedBy(db, c);
            && 0 <= i < |db'.docs| && db'.drivers.Keys == db.drivers.Keys
            && |db'.docs| == (if c.Upload? then |db.docs| + 1 else |db.docs|)
            && (forall j :: 0 <= j < |db.docs| && j != i ==> db'.docs[j] == db.docs[j])
            && (!c.Upload? ==> db'.docs[i].driver == db.docs[i].driver && db'.docs[i].docType == db.docs[i].docType)
            && (c.Upload? ==> db'.docs[i].driver in db.drivers)
  {
  }

  /** The entry of the touched row's type copies the row; every other entry of the driver stays. */
  ghost predicate Copied(documents: map<string, Mirror>, documents': map<string, Mirror>, d: Doc) {
    && d.docType in documents'
    && documents'[d.docType].url == d.url && documents'[d.docType].status == d.status
    && documents' == documents[d.docType := documents'[d.docType]]
  }

  lemma MirrorEffect(db: Db, c: Call, driver: Id)
    requires Step(db, c).1.None? && driver in db.drivers
    ensures var db' := Step(db, c).0;
            var d := db'.docs[TouchedBy(db, c)];
            && driver in db'.drivers
            && (if d.driver == driver then Copied(db.drivers[driver].documents, db'.drivers[driver].documents, d)
                else db'.drivers[driver].documents == db.drivers[driver].documents)
  {
  }

  lemma LicenseEffect(db: Db, c: Call, driver: Id)
    requires Step(db, c).1.None? && driver in db.drivers
    ensures var db' := Step(db, c).0;
            var d := db'.docs[TouchedBy(db, c)];
            && driver in db'.drivers
            && db'.drivers[driver].licenseVerified ==
                 if d.driver == driver && IsLicense(d.docType) && (c.Accept? || c.Refuse?) then c.Accept?
                 else db.drivers[driver].licenseVerified
  {
  }

  /** LastTouched once one more row was touched. */
  lemma TouchOne(docs: seq<Doc>, touched: seq<nat>, i: nat, driver: Id, docType: string)
    requires i < |docs|
    ensures LastTouched(docs, touched + [i], driver, docType)
            == if IsOf(docs[i], driver, docType) then i else LastTouched(docs, touched, driver, docType)
  {
    assert (touched + [i])[..|touched|] == touched;
  }

  ghost predicate Agrees(documents: map<string, Mirror>, docs: seq<Doc>, i: int, docType: string) {
    && (docType in documents <==> i >= 0)
    && (i >= 0 ==> i < |docs| && documents[docType].url == docs[i].url && documents[docType].status == docs[i].status)
  }

  /** Seen from one driver and type: if its row was touched the entry copies it, else entry and row both stay. */
  lemma AgreesAfter(documents: map<string, Mirror>, documents': map<string, Mirror>, docs: seq<Doc>, docs': seq<Doc>,
                    i: nat, last: int, driver: Id, docType: string)
    requires i < |docs'| && |docs| <= |docs'| && forall j :: 0 <= j < |docs| && j != i ==> docs'[j] == docs[j]
    requires if docs'[i].driver == driver then Copied(documents, documents', docs'[i]) else documents' == documents
    requires Agrees(documents, docs, last, docType) && (last == i ==> IsOf(docs'[i], driver, docType))
    ensures Agrees(documents', docs', if IsOf(docs'[i], driver, docType) then i else last, docType)
  {
  }

  lemma MirroredStep(t: Trace, c: Call, driver: Id, docType: string)
    requires Inv(t) && Step(t.db, c).1.None? && driver in t.db.drivers
    ensures driver in Advance(t, c).db.drivers && Mirrored(Advance(t, c), driver, docType)
  {
    var db' := Step(t.db, c).0;
    var i := TouchedBy(t.db, c);
    var last := LastTouched(t.db.docs, t.touched, driver, docType);
    CallEffect(t.db, c);
    MirrorEffect(t.db, c, driver);
    LastTouchedStable(t.db.docs, db'.docs, t.touched, driver, docType);
    LastTouchedIs(db'.docs, t.touched, driver, docType);
    TouchOne(db'.docs, t.touched, i, driver, docType);
    assert Mirrored(t, driver, docType);
    AgreesAfter(t.db.drivers[driver].documents, db'.drivers[driver].documents, t.db.docs, db'.docs, i, last, driver, docType);
  }

  lemma LicenseStep(t: Trace, c: Call, driver: Id)
    requires Step(t.db, c).1.None? && driver in t.db.drivers
    requires t.db.drivers[driver].licenseVerified == LastReview(t.reviews, driver)
    ensures driver in Advance(t, c).db.drivers
    ensures Advance(t, c).db.drivers[driver].licenseVerified == LastReview(Advance(t, c).reviews, driver)
  {
    LicenseEffect(t.db, c, driver);
    var reviews' := Advance(t, c).reviews;
    assert reviews' != t.reviews ==> reviews'[..|t.reviews|] == t.reviews;
  }

  lemma AdvanceKeepsInv(t: Trace, c: Call)
    requires Inv(t)
    ensures Inv(Advance(t, c))
  {
    if Step(t.db, c).1.None? {
      var t' := Advance(t, c);
      CallEffect(t.db, c);
      AdvanceDb(t, c);
      forall driver, docType: string | driver in t'.db.drivers ensures Mirrored(t', driver, docType) {
        MirroredStep(t, c, driver, docType);
      }
      forall driver | driver in t'.db.drivers ensures t'.db.drivers[driver].licenseVerified == LastReview(t'.reviews, driver) {
        LicenseStep(t, c, driver);
      }
    }
  }

  /**
   * Over every run, licenseData.documents mirrors the row of each type last touched, and licenseVerified is the outcome
   * of the driver's last licence review (false before the first).
   */
  lemma {:induction false} MirrorAlways(drivers: set<Id>, calls: seq<Call>)
    ensures Inv(Run(drivers, calls)) && Run(drivers, calls).db.drivers.Keys == drivers
  {
    if calls != [] {
      MirrorAlways(drivers, calls[..|calls| - 1]);
      AdvanceKeepsInv(Run(drivers, calls[..|calls| - 1]), calls[|calls| - 1]);
      var t := Run(drivers, calls[..|calls| - 1]);
      if Step(t.db, calls[|calls| - 1]).1.None? { CallEffect(t.db, calls[|calls| - 1]); }
    }
  }

  /** A call changes the mirror entry of no other type and of no other driver. */
  lemma OtherEntriesUntouched(db: Db, c: Call, driver: Id, docType: string)
    requires Step(db, c).1.None? && driver in db.drivers
    requires !IsOf(Step(db, c).0.docs[TouchedBy(db, c)], driver, docType)
    ensures var documents, documents' := db.drivers[driver].documents, Step(db, c).0.drivers[driver].documents;
            (docType in documents' <==> docType in documents) && (docType in documents ==> documents'[docType] == documents[docType])
  {
    MirrorEffect(db, c, driver);
  }

  // ---- KYC ----

  /** The call approves a document of the driver, after which all the driver's documents are approved. */
  predicate Completes(db: Db, c: Call, driver: Id) {
    var (db', fault) := Step(db, c);
    c.Accept? && fault.None? && db'.docs[TouchedBy(db, c)].driver == driver && AllApproved(db'.docs, driver)
  }

  lemma KycStep(db: Db, c: Call, driver: Id)
    requires driver in db.drivers
    ensures driver in Step(db, c).0.drivers
    ensures Step(db, c).0.drivers[driver].kycCompleted <==> db.drivers[driver].kycCompleted || Completes(db, c, driver)
  {
  }

  predicate CompletesAt(drivers: set<Id>, calls: seq<Call>, k: int, driver: Id) {
    0 <= k < |calls| && Completes(Run(drivers, calls[..k]).db, calls[k], driver)
  }

  ghost predicate EverComplete(drivers: set<Id>, calls: seq<Call>, driver: Id) {
    exists k :: CompletesAt(drivers, calls, k, driver)
  }

  lemma EverCompleteSnoc(drivers: set<Id>, before: seq<Call>, c: Call, driver: Id)
    ensures EverComplete(drivers, before + [c], driver)
            <==> EverComplete(drivers, before, driver) || Completes(Run(drivers, before).db, c, driver)
  {
    var calls := before + [c];
    assert calls[..|before|] == before;
    forall k | 0 <= k < |before| ensures CompletesAt(drivers, calls, k, driver) <==> CompletesAt(drivers, before, k, driver) {
      assert calls[..k] == before[..k];
    }
    assert CompletesAt(drivers, calls, |before|, driver) <==> Completes(Run(drivers, before).db, c, driver);
    if EverComplete(drivers, before, driver) {
      var k :| CompletesAt(drivers, before, k, driver);
      assert CompletesAt(drivers, calls, k, driver);
    }
  }

  /** KYC is completed exactly when, after some approval so far, all documents then present were approved; it is never revoked. */
  lemma {:induction false} KycHistory(drivers: set<Id>, calls: seq<Call>, driver: Id)
    requires driver in drivers
    ensures driver in Run(drivers, calls).db.drivers
    ensures Run(drivers, calls).db.drivers[driver].kycCompleted <==> EverComplete(drivers, calls, driver)
  {
    if calls != [] {
      var before, c := calls[..|calls| - 1], calls[|calls| - 1];
      assert calls == before + [c];
      KycHistory(drivers, before, driver);
      KycStep(Run(drivers, before).db, c, driver);
      EverCompleteSnoc(drivers, before, c, driver);
      AdvanceDb(Run(drivers, before), c);
    }
  }

  lemma AdvanceDb(t: Trace, c: Call)
    ensures Advance(t, c).db == Step(t.db, c).0
  {
  }

  // ---- What each call writes ----

  predicate FirstDoc(docs: seq<Doc>, i: int, id: Id) {
    0 <= i < |docs| && docs[i].id == id && forall j :: 0 <= j < i ==> docs[j].id != id
  }

  lemma DocIndex(docs: seq<Doc>, id: Id)
    ensures var i := IndexOf(docs, HasId(id));
            && (i >= 0 ==> FirstDoc(docs, i, id)) && (forall k :: FirstDoc(docs, k, id) ==> k == i)
            && (i < 0 <==> forall j :: 0 <= j < |docs| ==> docs[j].id != id)
  {
    var i := IndexOf(docs, HasId(id));
    forall j | 0 <= j < (if i < 0 then |docs| else i) ensures docs[j].id != id {
      assert !HasId(id)(docs[j]);
    }
    forall k | FirstDoc(docs, k, id) ensures k == i {
      assert HasId(id)(docs[k]);
    }
  }

  /** The licence types, in any spelling of their case. */
  lemma LicenceTypes(docType: string, other: string)
    ensures IsLicense("license") && IsLicense("driverlicense") && IsLicense("document_front_side") && IsLicense("document_back_side")
    ensures SameLetters(docType, other) ==> (IsLicense(docType) <==> IsLicense(other))
    ensures IsLicense(docType) ==> |docType| in {7, 13, 18, 19}
  {
    Folding(docType, other);
    LowerAlready("license");
    LowerAlready("driverlicense");
    LowerAlready("document_front_side");
    LowerAlready("document_back_side");
  }

  lemma LowerAlready(s: string)
    requires forall i :: 0 <= i < |s| ==> !('A' <= s[i] <= 'Z')
    ensures Lower(s) == s
  {
  }

  /** After a review the driver's entry of the document's type says so; a licence also sets the flag, and once approved the URL. */
  predicate Reviewed(drivers: map<Id, Driver>, drivers': map<Id, Driver>, d: Doc, reason: Option<string>, approved: bool) {
    d.driver in drivers ==>
      && d.driver in drivers'
      && var a, b := drivers[d.driver], drivers'[d.driver];
         && b.documents == a.documents[d.docType := Mirror(d.url, d.data, if approved then Approved else Rejected, reason)]
         && (IsLicense(d.docType) ==> b.licenseVerified == approved && b.license == (if approved then Some(d.url) else a.license))
         && (!IsLicense(d.docType) ==> b.licenseVerified == a.licenseVerified && b.license == a.license)
  }

  predicate EveryApproved(docs: seq<Doc>, driver: Id) {
    forall j :: 0 <= j < |docs| && docs[j].driver == driver ==> docs[j].status == Approved
  }

  lemma KycMeaning(docs: seq<Doc>, i: nat, driver: Id)
    requires i < |docs| && docs[i].driver == driver
    ensures AllApproved(docs, driver) <==> EveryApproved(docs, driver)
  {
  }

  /** approveDocument: a document not yet approved becomes Approved, in its row and in the mirror, and no other row changes. */
  lemma ApproveWrites(db: Db, id: Id)
    ensures var (db', fault) := Approve(db, id);
            && (fault.None? <==> exists i :: FirstDoc(db.docs, i, id) && db.docs[i].status != Approved)
            && (fault.Some? ==> db' == db)
            && (forall i :: FirstDoc(db.docs, i, id) && fault.None? ==>
                  && db'.docs == db.docs[i := db.docs[i].(status := Approved)]
                  && Reviewed(db.drivers, db'.drivers, db.docs[i], None, true)
                  && (db.docs[i].driver in db.drivers ==>
                        && db.docs[i].driver in db'.drivers
                        && (db'.drivers[db.docs[i].driver].kycCompleted <==>
                              db.drivers[db.docs[i].driver].kycCompleted || EveryApproved(db'.docs, db.docs[i].driver)))
                  && (forall d <- db.drivers :: d != db.docs[i].driver ==> d in db'.drivers && db'.drivers[d] == db.drivers[d]))
  {
    hide IsLicense, AllApproved, EveryApproved;
    DocIndex(db.docs, id);
    var i := IndexOf(db.docs, HasId(id));
    if i >= 0 {
      KycMeaning(Approve(db, id).0.docs, i, db.docs[i].driver);
      assert Approve(db, id).1.None? <==> db.docs[i].status != Approved;
    }
  }

  /** rejectDocument: any stored document becomes Rejected for the reason given, and no other row changes. */
  lemma RejectWrites(db: Db, id: Id, reason: string)
    ensures var (db', fault) := Reject(db, id, reason);
            && (fault.None? <==> exists i :: FirstDoc(db.docs, i, id))
            && (fault.Some? ==> db' == db)
            && (forall i :: FirstDoc(db.docs, i, id) ==>
                  && db'.docs == db.docs[i := db.docs[i].(status := Rejected, reason := Some(reason))]
                  && Reviewed(db.drivers, db'.drivers, db.docs[i], Some(reason), false)
                  && (forall d <- db.drivers :: d != db.docs[i].driver ==> d in db'.drivers && db'.drivers[d] == db.drivers[d]))
  {
    hide IsLicense;
    DocIndex(db.docs, id);
  }

  /** A document is added as Pending, for a stored driver, with its entry. */
  lemma AddWrites(db: Db, id: Id, driver: Id, docType: string, url: string, name: Option<string>)
    ensures var (db', fault) := Add(db, id, driver, docType, url, name);
            && (fault.None? <==> driver in db.drivers && forall j :: 0 <= j < |db.docs| ==> db.docs[j].id != id)
            && (fault.Some? ==> db' == db)
            && (fault.None? ==>
                  && db'.docs == db.docs + [Doc(id, driver, docType, url, name, Pending, None)]
                  && db'.drivers == db.drivers[driver := db.drivers[driver].(
                       documents := db.drivers[driver].documents[docType := Mirror(url, name, Pending, None)])])
  {
    DocIndex(db.docs, id);
  }

  /** An update stores the fields it carries, in the row and in the entry alike. */
  lemma UpdateWrites(db: Db, id: Id, c: Changes)
    ensures var (db', fault) := Update(db, id, c);
            && (fault.None? <==> exists i :: FirstDoc(db.docs, i, id))
            && (fault.Some? ==> db' == db)
            && (forall i :: FirstDoc(db.docs, i, id) ==>
                  i < |db'.docs| && db'.docs == db.docs[i := db'.docs[i]] &&
                  var a, b := db.docs[i], db'.docs[i];
                  && b == a.(url := b.url, data := b.data, status := b.status, reason := b.reason)
                  && (match c.url case Some(u) => b.url == u case None => b.url == a.url)
                  && (if c.data.Some? then b.data == c.data else b.data == a.data)
                  && (match c.status case Some(s) => b.status == s case None => b.status == a.status)
                  && (if c.reason.Some? then b.reason == c.reason else b.reason == a.reason)
                  && (a.driver in db.drivers ==>
                        db'.drivers == db.drivers[a.driver := db.drivers[a.driver].(
                          documents := db.drivers[a.driver].documents[a.docType := Mirror(b.url, b.data, b.status, b.reason)])]))
  {
    DocIndex(db.docs, id);
  }

  // ---- In the source's own form ----

  class AdminRepository {
    var docs: seq<Doc>
    var drivers: map<Id, Driver>

    constructor (drivers: set<Id>)
      ensures State() == Run(drivers, []).db
    {
      docs := [];
      this.drivers := map d <- drivers :: NEW_DRIVER;
    }

    function State(): Db
      reads this
    {
      Db(docs, drivers)
    }

    /** Rebuilds licenseData.documents with one entry replaced and stores it. */
    method MirrorDocument(driver: Id, docType: string, m: Mirror)
      modifies this`drivers
      ensures drivers == SetMirror(old(drivers), driver, docType, m)
    {
      if driver in drivers {
        var existingDocs := drivers[driver].documents;
        existingDocs := existingDocs[docType := m];
        drivers := drivers[driver := drivers[driver].(documents := existingDocs)];
      }
    }

    method AddDriverDocuments(id: Id, driver: Id, docType: string, url: string, name: Option<string>) returns (fault: Option<Fault>)
      modifies this
      ensures (State(), fault) == Add(old(State()), id, driver, docType, url, name)
    {
      if driver !in drivers || IndexOf(docs, HasId(id)) >= 0 { return Some(DatabaseError); }
      docs := docs + [Doc(id, driver, docType, url, name, Pending, None)];
      MirrorDocument(driver, docType, Mirror(url, name, Pending, None));
      return None;
    }

    method UpdateDriverDocuments(id: Id, c: Changes) returns (fault: Option<Fault>)
      modifies this
      ensures (State(), fault) == Update(old(State()), id, c)
    {
      var i := IndexOf(docs, HasId(id));
      if i < 0 { return Some(NotFound); }
      var document := docs[i];
      docs := docs[i := Changed(document, c)];
      MirrorDocument(document.driver, document.docType,
                     Mirror(Or(c.url, document.url), OrElse(c.data, document.data), Or(c.status, document.status),
                            OrElse(c.reason, document.reason)));
      return None;
    }

    method ApproveDocument(id: Id) returns (fault: Option<Fault>)
      modifies this
      ensures (State(), fault) == Approve(old(State()), id)
    {
      var i := IndexOf(docs, HasId(id));
      if i < 0 { return Some(NotFound); }
      var doc := docs[i];
      if doc.status == Approved { return Some(BadRequest); }
      doc := doc.(status := Approved);
      docs := docs[i := doc];
      MirrorDocument(doc.driver, doc.docType, Mirror(doc.url, doc.data, Approved, None));
      if IsLicense(doc.docType) && doc.driver in drivers {
        drivers := drivers[doc.driver := drivers[doc.driver].(license := Some(doc.url), licenseVerified := true)];
      }
      RecalculateDriverKyc(doc.driver);
      return None;
    }

    method RecalculateDriverKyc(driver: Id)
      modifies this`drivers
      ensures State() == RecalculateKyc(old(State()), driver)
    {
      var allApproved := AllApproved(docs, driver);
      if allApproved && driver in drivers {
        drivers := drivers[driver := drivers[driver].(kycCompleted := true)];
      }
    }

    method RejectDocument(id: Id, reason: string) returns (fault: Option<Fault>)
      modifies this
      ensures (State(), fault) == Reject(old(State()), id, reason)
    {
      var i := IndexOf(docs, HasId(id));
      if i < 0 { return Some(NotFound); }
      var doc := docs[i].(status := Rejected, reason := Some(reason));
      docs := docs[i := doc];
      MirrorDocument(doc.driver, doc.docType, Mirror(doc.url, doc.data, Rejected, Some(reason)));
      if IsLicense(doc.docType) && doc.driver in drivers {
        drivers := drivers[doc.driver := drivers[doc.driver].(licenseVerified := false)];
      }
      return None;
    }
  }
}
