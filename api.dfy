/** The request handlers, each given the store explicitly. */
module Api {
  import opened Common
  import opened ObjectIds
  import opened Documents
  import opened Schemas
  import opened Database
  import opened Workflow

  datatype SubmitReply = SubmitReply(id: string, status: string)

  datatype ActReply = ActReply(id: string, status: string, currentStage: Value)

  /** An audit record names, by the string form of its id, a stored application. */
  predicate RefersToStored(u: Document, apps: map<ObjectId, Document>) {
    && "application_id" in u && u["application_id"].Str?
    && Parse(u["application_id"].s).Some? && Parse(u["application_id"].s).value in apps
  }

  /** No audit record without its application: every handler keeps this. */
  predicate AuditConsistent(updates: seq<Document>, apps: map<ObjectId, Document>) {
    forall i :: 0 <= i < |updates| ==> RefersToStored(updates[i], apps)
  }

  /** `pub` is the public form of `docs`, element by element. */
  predicate Published(docs: seq<Document>, pub: seq<Document>) {
    |pub| == |docs| && forall i :: 0 <= i < |docs| ==> ToPublic(docs[i]) == Ok(pub[i])
  }

  lemma PublishedMembers(docs: seq<Document>, pub: seq<Document>)
    requires Published(docs, pub)
    ensures forall d :: d in docs ==> ToPublic(d).Ok? && ToPublic(d).value in pub
  {
    forall d | d in docs ensures ToPublic(d).Ok? && ToPublic(d).value in pub {
      var i :| 0 <= i < |docs| && docs[i] == d;
      assert ToPublic(docs[i]) == Ok(pub[i]);
    }
  }

  /** Documents the store wrote all carry an ObjectId `_id`, so each has a public form. */
  lemma AssignedArePublishable(docs: seq<Document>, coll: seq<Document>)
    requires IdsAssigned(coll)
    requires forall d :: d in docs ==> d in coll
    ensures forall i :: 0 <= i < |docs| ==> ToPublic(docs[i]).Ok?
  {
    forall i | 0 <= i < |docs| ensures ToPublic(docs[i]).Ok? {
      assert docs[i] in coll;
      var j :| 0 <= j < |coll| && coll[j] == docs[i];
    }
  }

  /** `[to_public(d) for d in docs]`: stops at the first document without a public form. */
  method PublishAll(docs: seq<Document>) returns (r: Result<seq<Document>>)
    ensures r.Ok? <==> forall i :: 0 <= i < |docs| ==> ToPublic(docs[i]).Ok?
    ensures r.Ok? ==> Published(docs, r.value)
    ensures r.Err? ==> exists i :: 0 <= i < |docs| && ToPublic(docs[i]) == Err(r.error)
                                   && forall j :: 0 <= j < i ==> ToPublic(docs[j]).Ok?
  {
    var out: seq<Document> := [];
    var i := 0;
    while i < |docs|
      invariant 0 <= i <= |docs|
      invariant Published(docs[..i], out)
      invariant forall j :: 0 <= j < i ==> ToPublic(docs[j]).Ok?
    {
      var p := ToPublic(docs[i]);
      if p.Err? {
        return Err(p.error);
      }
      out := out + [p.value];
      i := i + 1;
    }
    assert docs[..i] == docs;
    return Ok(out);
  }

  // ---------- Reference data ----------

  method CreateDepartment(db: Store, dept: Department) returns (r: Result<string>)
    requires db.Valid()
    modifies db
    ensures db.Valid()
    ensures !db.connected ==> r == Err(Unavailable) && unchanged(db)
    ensures db.connected ==>
      && r == Ok(Render(ObjectId(old(db.clock)))) && db.clock == old(db.clock) + 1
      && db.departments == old(db.departments) + [Stamp(DumpDepartment(dept), ObjectId(old(db.clock)), old(db.clock))]
      && db.applications == old(db.applications) && db.statusUpdates == old(db.statusUpdates)
      && db.users == old(db.users) && db.notifications == old(db.notifications)
  {
    r := db.CreateDocument(Departments, DumpDepartment(dept));
  }

  method ListDepartments(db: Store) returns (r: Result<seq<Document>>)
    requires db.Valid()
    ensures !db.connected ==> r == Err(Unavailable)
    ensures db.connected ==> r.Ok? && Published(db.departments, r.value)
  {
    var docs := db.GetDocuments(Departments, map[]);
    if docs.Err? {
      return Err(docs.error);
    }
    FindEverything(db.departments);
    AssignedArePublishable(docs.value, db.departments);
    r := PublishAll(docs.value);
  }

  method CreateUser(db: Store, user: User) returns (r: Result<string>)
    requires db.Valid()
    modifies db
    ensures db.Valid()
    ensures !db.connected ==> r == Err(Unavailable) && unchanged(db)
    ensures db.connected ==>
      && r == Ok(Render(ObjectId(old(db.clock)))) && db.clock == old(db.clock) + 1
      && db.users == old(db.users) + [Stamp(DumpUser(user), ObjectId(old(db.clock)), old(db.clock))]
      && db.applications == old(db.applications) && db.statusUpdates == old(db.statusUpdates)
      && db.departments == old(db.departments) && db.notifications == old(db.notifications)
  {
    r := db.CreateDocument(Users, DumpUser(user));
  }

  method ListUsers(db: Store) returns (r: Result<seq<Document>>)
    requires db.Valid()
    ensures !db.connected ==> r == Err(Unavailable)
    ensures db.connected ==> r.Ok? && Published(db.users, r.value)
  {
    var docs := db.GetDocuments(Users, map[]);
    if docs.Err? {
      return Err(docs.error);
    }
    FindEverything(db.users);
    AssignedArePublishable(docs.value, db.users);
    r := PublishAll(docs.value);
  }

  /** A created department is listed last, with the id the creation returned and its own
      fields. */
  method DepartmentRoundTrip(db: Store, dept: Department) returns (id: Result<string>, listed: Result<seq<Document>>)
    requires db.Valid() && db.connected
    modifies db
    ensures id.Ok? && listed.Ok? && |listed.value| == |old(db.departments)| + 1
    ensures listed.value[|listed.value| - 1]
         == DumpDepartment(dept)["created_at" := Time(old(db.clock))]["id" := Str(id.value)]
  {
    id := CreateDepartment(db, dept);
    listed := ListDepartments(db);
    var last := |db.departments| - 1;
    PublicOfStamped(DumpDepartment(dept), ObjectId(old(db.clock)), old(db.clock));
    assert ToPublic(db.departments[last]) == Ok(listed.value[last]);
  }

  // ---------- Applications ----------

  /** The audit record a submission writes. */
  function SubmitRecord(id: string, studentName: string): StatusUpdate {
    StatusUpdate(id, Student, studentName, Submit, Some("Application submitted"), None, None)
  }

  /** A stored audit record reads back as the record written, stamped with its creation
      time. */
  lemma StoredStatusUpdate(su: StatusUpdate, o: ObjectId, t: nat)
    ensures LoadStatusUpdate(Stamp(DumpStatusUpdate(su), o, t)) == Some(su.(createdAt := Some(t)))
  {
    LoadDumpStatusUpdate(su.(createdAt := Some(t)));
    assert Stamp(DumpStatusUpdate(su), o, t) == DumpStatusUpdate(su.(createdAt := Some(t)))["_id" := Oid(o)];
  }

  method SubmitApplication(db: Store, app: Application) returns (r: Result<SubmitReply>)
    requires db.Valid() && AuditConsistent(db.statusUpdates, db.applications)
    modifies db
    ensures db.Valid() && AuditConsistent(db.statusUpdates, db.applications)
    ensures !db.connected ==> r == Err(Unavailable) && unchanged(db)
    ensures db.connected ==>
      var oid := ObjectId(old(db.clock));
      var id := Render(oid);
      var rec := Stamp(DumpStatusUpdate(SubmitRecord(id, app.studentName)), ObjectId(old(db.clock) + 1),
                       old(db.clock) + 1);
      && r == Ok(SubmitReply(id, "submitted"))
      && oid !in old(db.applications)
      && db.applications == old(db.applications)[oid := Stamp(DumpApplication(app), oid, old(db.clock))]
      && db.statusUpdates == old(db.statusUpdates) + [rec]
      && Timeline(db.statusUpdates, id) == [rec]
      && db.clock == old(db.clock) + 2
    ensures db.departments == old(db.departments) && db.users == old(db.users)
    ensures db.notifications == old(db.notifications)
  {
    var created := db.CreateDocument(Applications, DumpApplication(app));
    if created.Err? {
      return Err(created.error);
    }
    var id := created.value;
    ghost var oid := ObjectId(old(db.clock));
    var su := MakeStatusUpdate(id, "student", app.studentName, "submit", comments := Some("Application submitted"));
    SubmitRecordValid(id, app.studentName);
    var logged := db.CreateDocument(StatusUpdates, DumpStatusUpdate(su.value));
    SubmissionLogged(old(db.statusUpdates), old(db.applications), oid, Stamp(DumpApplication(app), oid, old(db.clock)),
                     db.statusUpdates[|db.statusUpdates| - 1], app.studentName, old(db.clock) + 1);
    r := Ok(SubmitReply(id, "submitted"));
  }

  /** The submission's audit record passes validation. */
  lemma SubmitRecordValid(id: string, studentName: string)
    ensures MakeStatusUpdate(id, "student", studentName, "submit", comments := Some("Application submitted"))
         == Ok(SubmitRecord(id, studentName))
  {
  }

  /** The audit record a submission writes names the new application, and it is the only
      record of that application's timeline. */
  lemma SubmissionLogged(before: seq<Document>, apps: map<ObjectId, Document>, oid: ObjectId,
                         doc: Document, rec: Document, studentName: string, t: nat)
    requires AuditConsistent(before, apps) && oid !in apps
    requires rec == Stamp(DumpStatusUpdate(SubmitRecord(Render(oid), studentName)), ObjectId(t), t)
    requires SortedByCreatedAt(before + [rec])
    ensures AuditConsistent(before + [rec], apps[oid := doc])
    ensures Timeline(before + [rec], Render(oid)) == [rec]
  {
    assert rec["application_id"] == Str(Render(oid));
    ParseRender(oid);
    ConsistentAfterLogging(before, apps, apps[oid := doc], rec);
    NoRecordsForUnknownId(before, apps, Render(oid));
    TimelineAppend(before, rec, Render(oid));
  }

  /** The listing's filter, built key by key from the non-empty parameters. */
  method BuildAppFilter(q: AppFilter) returns (filt: Document)
    ensures filt == AppQuery(q)
  {
    filt := map[];
    if Truthy(q.studentId) {
      filt := filt["student_id" := Str(q.studentId.value)];
    }
    if Truthy(q.departmentCode) {
      filt := filt["department_code" := Str(q.departmentCode.value)];
    }
    if Truthy(q.status) {
      filt := filt["status" := Str(q.status.value)];
    }
    if Truthy(q.category) {
      filt := filt["category" := Str(q.category.value)];
    }
  }

  method ListApplications(db: Store, q: AppFilter) returns (r: Result<seq<Document>>)
    requires db.Valid()
    ensures !db.connected ==> r == Err(Unavailable)
    ensures db.connected ==> r.Ok? && Published(Find(db.Contents(Applications), AppQuery(q)), r.value)
    ensures r.Ok? ==> forall i :: 0 <= i < |r.value| ==> Matches(r.value[i], AppQuery(q))
    ensures r.Ok? ==> forall o :: o in db.applications && Matches(db.applications[o], AppQuery(q))
                                  ==> ToPublic(db.applications[o]).Ok? && ToPublic(db.applications[o]).value in r.value
  {
    var filt := BuildAppFilter(q);
    var docs := db.GetDocuments(Applications, filt);
    if docs.Err? {
      return Err(docs.error);
    }
    assert docs.value == Find(InIdOrder(db.applications, db.clock), filt);
    AppsPublishable(db.applications, db.clock, filt);
    r := PublishAll(docs.value);
    AppListing(db.applications, db.clock, q, r.value);
  }

  /** Every application the listing selects has a public form. */
  lemma AppsPublishable(apps: map<ObjectId, Document>, clock: nat, filt: Document)
    requires AppsKeyed(apps, clock)
    ensures var found := Find(InIdOrder(apps, clock), filt);
      forall i :: 0 <= i < |found| ==> ToPublic(found[i]).Ok?
  {
    var found := Find(InIdOrder(apps, clock), filt);
    forall i | 0 <= i < |found| ensures ToPublic(found[i]).Ok? {
      assert found[i] in found;
      var o :| o in apps && o.n < clock && apps[o] == found[i];
    }
  }

  /** The listing holds exactly the public forms of the matching applications. */
  lemma AppListing(apps: map<ObjectId, Document>, clock: nat, q: AppFilter, pub: seq<Document>)
    requires AppsKeyed(apps, clock)
    requires Published(Find(InIdOrder(apps, clock), AppQuery(q)), pub)
    ensures forall i :: 0 <= i < |pub| ==> Matches(pub[i], AppQuery(q))
    ensures forall o :: o in apps && Matches(apps[o], AppQuery(q))
                        ==> ToPublic(apps[o]).Ok? && ToPublic(apps[o]).value in pub
  {
    var filt := AppQuery(q);
    AppQueryFields(q);
    var found := Find(InIdOrder(apps, clock), filt);
    forall i | 0 <= i < |pub| ensures Matches(pub[i], filt) {
      assert found[i] in found;
      PublicKeepsMatches(found[i], filt);
    }
    PublishedMembers(found, pub);
    forall o | o in apps && Matches(apps[o], filt) ensures apps[o] in found {
      assert apps[o] in InIdOrder(apps, clock);
    }
  }

  /** Applies a review action to a stored application and logs it. */
  method ActOnApplication(db: Store, appId: string, act: ReviewAction) returns (r: Result<ActReply>)
    requires db.Valid() && AuditConsistent(db.statusUpdates, db.applications)
    modifies db
    ensures db.Valid() && AuditConsistent(db.statusUpdates, db.applications)
    ensures db.departments == old(db.departments) && db.users == old(db.users)
    ensures db.notifications == old(db.notifications)
    ensures !db.connected ==> r == Err(Unavailable) && unchanged(db)
    ensures db.connected && Parse(appId).None? ==> r == Err(InvalidId) && unchanged(db)
    ensures db.connected && Parse(appId).Some? && Parse(appId).value !in old(db.applications) ==>
      r == Err(NotFound) && unchanged(db)
    ensures db.connected && Parse(appId).Some? && Parse(appId).value in old(db.applications) ==>
      var oid := Parse(appId).value;
      var stored := old(db.applications)[oid];
      var d := Decide(stored, act);
      var updated := ApplyUpdate(stored, d.update);
      var su := MakeStatusUpdate(appId, act.actorRole, act.actorName, act.action, act.comments, act.toDepartment);
      && (updated.Err? ==> r == Err(updated.error) && unchanged(db))
      && (updated.Ok? ==> db.applications == old(db.applications)[oid := updated.value])
      && (updated.Ok? && su.Err? ==>
            r == Err(su.error) && db.statusUpdates == old(db.statusUpdates) && db.clock == old(db.clock))
      && (updated.Ok? && su.Ok? ==>
            && r == Ok(ActReply(appId, d.status, d.stage))
            && db.statusUpdates
               == old(db.statusUpdates) + [Stamp(DumpStatusUpdate(su.value), ObjectId(old(db.clock)), old(db.clock))]
            && db.clock == old(db.clock) + 1)
  {
    if !db.connected {
      return Err(Unavailable);
    }
    var parsed := Parse(appId);
    if parsed.None? {
      return Err(InvalidId);
    }
    var oid := parsed.value;
    if oid !in db.applications {
      return Err(NotFound);
    }
    r := ActOnStored(db, oid, appId, act);
  }

  /** The part of the action handler after the application was found: the update, then the
      audit record. */
  method ActOnStored(db: Store, oid: ObjectId, appId: string, act: ReviewAction) returns (r: Result<ActReply>)
    requires db.Valid() && AuditConsistent(db.statusUpdates, db.applications)
    requires db.connected && Parse(appId) == Some(oid) && oid in db.applications
    modifies db
    ensures db.Valid() && AuditConsistent(db.statusUpdates, db.applications)
    ensures db.departments == old(db.departments) && db.users == old(db.users)
    ensures db.notifications == old(db.notifications)
    ensures
      var stored := old(db.applications)[oid];
      var d := Decide(stored, act);
      var updated := ApplyUpdate(stored, d.update);
      var su := MakeStatusUpdate(appId, act.actorRole, act.actorName, act.action, act.comments, act.toDepartment);
      && (updated.Err? ==> r == Err(updated.error) && unchanged(db))
      && (updated.Ok? ==> db.applications == old(db.applications)[oid := updated.value])
      && (updated.Ok? && su.Err? ==>
            r == Err(su.error) && db.statusUpdates == old(db.statusUpdates) && db.clock == old(db.clock))
      && (updated.Ok? && su.Ok? ==>
            && r == Ok(ActReply(appId, d.status, d.stage))
            && db.statusUpdates
               == old(db.statusUpdates) + [Stamp(DumpStatusUpdate(su.value), ObjectId(old(db.clock)), old(db.clock))]
            && db.clock == old(db.clock) + 1)
  {
    var stored := db.applications[oid];
    var d := Decide(stored, act);
    var written := db.UpdateOne(oid, d.update);
    if written.Err? {
      return Err(written.error);
    }
    var su := MakeStatusUpdate(appId, act.actorRole, act.actorName, act.action, act.comments, act.toDepartment);
    if su.Err? {
      return Err(su.error);
    }
    var logged := db.CreateDocument(StatusUpdates, DumpStatusUpdate(su.value));
    ActionLogged(old(db.statusUpdates), db.statusUpdates, old(db.applications), db.applications, appId, su.value,
                 old(db.clock));
    r := Ok(ActReply(appId, d.status, d.stage));
  }

  /** The record of an action on a stored application keeps the audit trail consistent. */
  lemma ActionLogged(before: seq<Document>, after: seq<Document>, apps: map<ObjectId, Document>,
                     apps': map<ObjectId, Document>, appId: string, su: StatusUpdate, t: nat)
    requires AuditConsistent(before, apps) && apps.Keys <= apps'.Keys
    requires Parse(appId).Some? && Parse(appId).value in apps' && su.applicationId == appId
    requires after == before + [Stamp(DumpStatusUpdate(su), ObjectId(t), t)]
    ensures AuditConsistent(after, apps')
  {
    var rec := Stamp(DumpStatusUpdate(su), ObjectId(t), t);
    assert rec["application_id"] == Str(appId);
    ConsistentAfterLogging(before, apps, apps', rec);
  }

  /** The audit records of one application id in ascending `created_at` order; the id is
      not checked against the applications. */
  method GetTimeline(db: Store, appId: string) returns (r: Result<seq<Document>>)
    requires db.Valid()
    ensures !db.connected ==> r == Err(Unavailable)
    ensures db.connected ==> r.Ok? && Published(Timeline(db.statusUpdates, appId), r.value)
  {
    if !db.connected {
      return Err(Unavailable);
    }
    var docs := Timeline(db.statusUpdates, appId);
    AssignedArePublishable(docs, db.statusUpdates);
    r := PublishAll(docs);
  }

  /** An action posted under another spelling of a stored id finds the application, but
      its record names that spelling: the timeline of the id the store returned does not
      show it, and the timeline of the spelling does. */
  lemma AliasedRecordSplitsTimeline(before: seq<Document>, su: StatusUpdate, o: ObjectId, t: nat)
    requires su.applicationId == "0" + Render(o)
    requires SortedByCreatedAt(before + [Stamp(DumpStatusUpdate(su), ObjectId(t), t)])
    ensures Parse(su.applicationId) == Some(o)
    ensures Timeline(before + [Stamp(DumpStatusUpdate(su), ObjectId(t), t)], Render(o)) == Timeline(before, Render(o))
    ensures Stamp(DumpStatusUpdate(su), ObjectId(t), t) in Timeline(before + [Stamp(DumpStatusUpdate(su), ObjectId(t), t)], su.applicationId)
  {
    var rec := Stamp(DumpStatusUpdate(su), ObjectId(t), t);
    SecondSpelling(o);
    assert rec["application_id"] == Str(su.applicationId);
    TimelineQueryMatches(rec, Render(o));
    TimelineAppend(before, rec, Render(o));
  }

  /** With no stored application behind an id, no audit record names it. */
  lemma NoRecordsForUnknownId(updates: seq<Document>, apps: map<ObjectId, Document>, appId: string)
    requires forall i :: 0 <= i < |updates| ==> RefersToStored(updates[i], apps)
    requires Parse(appId).None? || Parse(appId).value !in apps
    ensures Find(updates, TimelineQuery(appId)) == []
    ensures Timeline(updates, appId) == []
  {
    forall i | 0 <= i < |updates| ensures !Matches(updates[i], TimelineQuery(appId)) {
      assert RefersToStored(updates[i], apps);
    }
    FindNone(updates, TimelineQuery(appId));
  }

  /** Adding a record that names a stored application keeps the audit trail consistent. */
  lemma ConsistentAfterLogging(updates: seq<Document>, apps: map<ObjectId, Document>,
                               apps': map<ObjectId, Document>, rec: Document)
    requires forall i :: 0 <= i < |updates| ==> RefersToStored(updates[i], apps)
    requires apps.Keys <= apps'.Keys && RefersToStored(rec, apps')
    ensures forall i :: 0 <= i < |updates + [rec]| ==> RefersToStored((updates + [rec])[i], apps')
  {
    forall i | 0 <= i < |updates + [rec]| ensures RefersToStored((updates + [rec])[i], apps') {
      if i < |updates| {
        assert RefersToStored(updates[i], apps);
      }
    }
  }

  // ---------- Notifications ----------

  method Notify(db: Store, note: Notification) returns (r: Result<string>)
    requires db.Valid()
    modifies db
    ensures db.Valid()
    ensures !db.connected ==> r == Err(Unavailable) && unchanged(db)
    ensures db.connected ==>
      && r == Ok(Render(ObjectId(old(db.clock)))) && db.clock == old(db.clock) + 1
      && db.notifications == old(db.notifications) + [Stamp(DumpNotification(note), ObjectId(old(db.clock)), old(db.clock))]
      && db.applications == old(db.applications) && db.statusUpdates == old(db.statusUpdates)
      && db.departments == old(db.departments) && db.users == old(db.users)
  {
    r := db.CreateDocument(Notifications, DumpNotification(note));
  }

  method ListNotifications(db: Store, userEmail: Option<string>) returns (r: Result<seq<Document>>)
    requires db.Valid()
    ensures !db.connected ==> r == Err(Unavailable)
    ensures db.connected ==> r.Ok? && Published(Find(db.notifications, NotificationQuery(userEmail)), r.value)
    ensures r.Ok? ==> forall i :: 0 <= i < |r.value| ==> Matches(r.value[i], NotificationQuery(userEmail))
  {
    var filt := NotificationQuery(userEmail);
    var docs := db.GetDocuments(Notifications, filt);
    if docs.Err? {
      return Err(docs.error);
    }
    AssignedArePublishable(docs.value, db.notifications);
    r := PublishAll(docs.value);
    forall i | 0 <= i < |r.value| ensures Matches(r.value[i], filt) {
      assert docs.value[i] in docs.value;
      PublicKeepsMatches(docs.value[i], filt);
    }
  }
}
