/** A client session against the handlers: submit an application, forward it to "hod",
    approve it, and read its timeline. */
module Scenario {
  import opened Common
  import opened ObjectIds
  import opened Documents
  import opened Schemas
  import opened Database
  import opened Workflow
  import opened Api

  /** The `action` field of each document, `Null` where it has none. */
  function Actions(docs: seq<Document>): (r: seq<Value>)
    ensures |r| == |docs|
    ensures forall i :: 0 <= i < |docs| && "action" in docs[i] ==> r[i] == docs[i]["action"]
  {
    seq(|docs|, i requires 0 <= i < |docs| => Get(docs[i], "action", Null))
  }

  /** Publishing keeps every document's `action`. */
  lemma PublishedActions(docs: seq<Document>, pub: seq<Document>)
    requires Published(docs, pub)
    requires forall i :: 0 <= i < |docs| ==> "action" in docs[i]
    ensures Actions(pub) == Actions(docs)
  {
    forall i | 0 <= i < |docs| ensures Actions(pub)[i] == Actions(docs)[i] {
      assert ToPublic(docs[i]) == Ok(pub[i]);
      assert docs[i] != map[];
    }
  }

  /** The actions of the public forms of three documents, in order. */
  lemma ActionsOfThree(r1: Document, r2: Document, r3: Document, pub: seq<Document>)
    requires "action" in r1 && "action" in r2 && "action" in r3
    requires Published([r1] + [r2] + [r3], pub)
    ensures Actions(pub) == [r1["action"], r2["action"], r3["action"]]
  {
    var docs := [r1] + [r2] + [r3];
    assert docs[0] == r1 && docs[1] == r2 && docs[2] == r3;
    PublishedActions(docs, pub);
  }

  /** A stored audit record keeps its `application_id` and `action`. */
  lemma StampedRecordFields(su: StatusUpdate, o: ObjectId, t: nat)
    ensures var rec := Stamp(DumpStatusUpdate(su), o, t);
      && "application_id" in rec && rec["application_id"] == Str(su.applicationId)
      && "action" in rec && rec["action"] == Str(ActionName(su.action))
  {
    var rec := Stamp(DumpStatusUpdate(su), o, t);
    assert DumpStatusUpdate(su)["application_id"] == Str(su.applicationId);
    assert DumpStatusUpdate(su)["action"] == Str(ActionName(su.action));
  }

  /** The forward and the approval of the session pass validation. */
  lemma SessionRecordsValid(id: string)
    ensures MakeStatusUpdate(id, "coordinator", "Coordinator", "forward", None, Some("hod"))
         == Ok(StatusUpdate(id, Coordinator, "Coordinator", Forward, None, Some("hod"), None))
    ensures MakeStatusUpdate(id, "hod", "Head", "approve", None, None)
         == Ok(StatusUpdate(id, Hod, "Head", Approve, None, None, None))
  {
  }

  /** A stored application holds its route history as an array. */
  lemma StoredRouteHistory(app: Application, o: ObjectId, t: nat)
    ensures var doc := Stamp(DumpApplication(app), o, t);
      "route_history" in doc && doc["route_history"].List?
  {
    assert DumpApplication(app)["route_history"] == List(Strings(app.routeHistory));
  }

  /** A matching record selects itself. */
  lemma FindOne(r: Document, q: Document)
    requires Matches(r, q)
    ensures Find([r], q) == [r]
  {
    assert [r][..0] == [];
  }

  /** Two more matching records extend a one-record selection in write order. */
  lemma FindTwoMore(s1: seq<Document>, r1: Document, r2: Document, r3: Document, q: Document)
    requires Find(s1, q) == [r1] && Matches(r2, q) && Matches(r3, q)
    ensures Find(s1 + [r2] + [r3], q) == [r1] + [r2] + [r3]
  {
    calc {
      Find(s1 + [r2] + [r3], q);
      { FindAppend(s1 + [r2], [r3], q); FindOne(r3, q); }
      Find(s1 + [r2], q) + [r3];
      { FindAppend(s1, [r2], q); FindOne(r2, q); }
      [r1] + [r2] + [r3];
    }
  }

  /** Two more records of an id, written in stamp order, extend a one-record timeline in
      write order. */
  lemma TimelineOfThree(s1: seq<Document>, r1: Document, r2: Document, r3: Document, appId: string)
    requires SortedByCreatedAt(s1 + [r2] + [r3])
    requires Find(s1, TimelineQuery(appId)) == [r1]
    requires Matches(r2, TimelineQuery(appId)) && Matches(r3, TimelineQuery(appId))
    ensures Timeline(s1 + [r2] + [r3], appId) == [r1] + [r2] + [r3]
  {
    FindTwoMore(s1, r1, r2, r3, TimelineQuery(appId));
    TimelineInWriteOrder(s1 + [r2] + [r3], appId);
  }

  /** `updates` gained one record that names `id` and carries `action`. */
  predicate LoggedOne(before: seq<Document>, updates: seq<Document>, id: string, action: string) {
    && |updates| == |before| + 1
    && updates == before + [updates[|before|]]
    && "application_id" in updates[|before|] && updates[|before|]["application_id"] == Str(id)
    && "action" in updates[|before|] && updates[|before|]["action"] == Str(action)
  }

  /** The record a submission appends names the new id and the submit action, and is its
      only record. */
  lemma SubmissionRecord(before: seq<Document>, after: seq<Document>, id: string, name: string, t: nat)
    requires after == before + [Stamp(DumpStatusUpdate(SubmitRecord(id, name)), ObjectId(t), t)]
    requires SortedByCreatedAt(after)
    requires Timeline(after, id) == [Stamp(DumpStatusUpdate(SubmitRecord(id, name)), ObjectId(t), t)]
    ensures LoggedOne(before, after, id, "submit")
    ensures Find(after, TimelineQuery(id)) == [after[|before|]]
  {
    StampedRecordFields(SubmitRecord(id, name), ObjectId(t), t);
    TimelineInWriteOrder(after, id);
  }

  /** The student submits; the new application carries an array route history. */
  method SubmitStep(db: Store, app: Application) returns (sub: Result<SubmitReply>)
    requires db.Valid() && db.connected && AuditConsistent(db.statusUpdates, db.applications)
    modifies db
    ensures db.Valid() && AuditConsistent(db.statusUpdates, db.applications)
    ensures sub == Ok(SubmitReply(Render(ObjectId(old(db.clock))), "submitted"))
    ensures Parse(sub.value.id) == Some(ObjectId(old(db.clock))) && ObjectId(old(db.clock)) in db.applications
    ensures "route_history" in db.applications[ObjectId(old(db.clock))]
    ensures db.applications[ObjectId(old(db.clock))]["route_history"].List?
    ensures LoggedOne(old(db.statusUpdates), db.statusUpdates, sub.value.id, "submit")
    ensures Find(db.statusUpdates, TimelineQuery(sub.value.id)) == [db.statusUpdates[|old(db.statusUpdates)|]]
  {
    sub := SubmitApplication(db, app);
    SubmissionRecord(old(db.statusUpdates), db.statusUpdates, Render(ObjectId(old(db.clock))), app.studentName,
                     old(db.clock) + 1);
    StoredRouteHistory(app, ObjectId(old(db.clock)), old(db.clock));
    ParseRender(ObjectId(old(db.clock)));
  }

  /** The coordinator forwards a stored application to "hod". */
  method ForwardToHod(db: Store, ghost oid: ObjectId, id: string) returns (fwd: Result<ActReply>)
    requires db.Valid() && db.connected && AuditConsistent(db.statusUpdates, db.applications)
    requires Parse(id) == Some(oid) && oid in db.applications
    requires "route_history" in db.applications[oid] && db.applications[oid]["route_history"].List?
    modifies db
    ensures db.Valid() && AuditConsistent(db.statusUpdates, db.applications)
    ensures fwd == Ok(ActReply(id, "forwarded", Str("hod")))
    ensures oid in db.applications && "current_stage" in db.applications[oid]
    ensures db.applications[oid]["current_stage"] == Str("hod")
    ensures LoggedOne(old(db.statusUpdates), db.statusUpdates, id, "forward")
  {
    var forward := ReviewAction("coordinator", "Coordinator", "forward", toDepartment := Some("hod"));
    SessionRecordsValid(id);
    ForwardEffect(db.applications[oid], forward);
    StampedRecordFields(StatusUpdate(id, Coordinator, "Coordinator", Forward, None, Some("hod"), None),
                        ObjectId(db.clock), db.clock);
    fwd := ActOnApplication(db, id, forward);
  }

  /** The head of department approves a stored application whose stage is "hod". */
  method ApproveAtHod(db: Store, ghost oid: ObjectId, id: string) returns (appr: Result<ActReply>)
    requires db.Valid() && db.connected && AuditConsistent(db.statusUpdates, db.applications)
    requires Parse(id) == Some(oid) && oid in db.applications
    requires "current_stage" in db.applications[oid] && db.applications[oid]["current_stage"] == Str("hod")
    modifies db
    ensures db.Valid() && AuditConsistent(db.statusUpdates, db.applications)
    ensures appr == Ok(ActReply(id, "approved", Str("hod")))
    ensures LoggedOne(old(db.statusUpdates), db.statusUpdates, id, "approve")
  {
    var approve := ReviewAction("hod", "Head", "approve");
    SessionRecordsValid(id);
    OtherActionEffect(db.applications[oid], approve);
    StampedRecordFields(StatusUpdate(id, Hod, "Head", Approve, None, None, None), ObjectId(db.clock), db.clock);
    appr := ActOnApplication(db, id, approve);
  }

  /** Submitting, forwarding to "hod" and approving report the statuses and stages that
      `StatusFor` and `Decide` give, and the timeline then holds the three records in that
      order. */
  method SubmitForwardApprove(db: Store, app: Application)
    returns (sub: Result<SubmitReply>, fwd: Result<ActReply>, appr: Result<ActReply>,
             timeline: Result<seq<Document>>)
    requires db.Valid() && db.connected && AuditConsistent(db.statusUpdates, db.applications)
    modifies db
    ensures db.Valid() && AuditConsistent(db.statusUpdates, db.applications)
    ensures sub == Ok(SubmitReply(Render(ObjectId(old(db.clock))), "submitted"))
    ensures fwd == Ok(ActReply(sub.value.id, "forwarded", Str("hod")))
    ensures appr == Ok(ActReply(sub.value.id, "approved", Str("hod")))
    ensures timeline.Ok? && Actions(timeline.value) == [Str("submit"), Str("forward"), Str("approve")]
  {
    ghost var oid := ObjectId(db.clock);
    ghost var s0 := db.statusUpdates;
    sub := SubmitStep(db, app);
    var id := sub.value.id;
    ghost var s1 := db.statusUpdates;
    fwd := ForwardToHod(db, oid, id);
    ghost var s2 := db.statusUpdates;
    appr := ApproveAtHod(db, oid, id);
    ghost var s3 := db.statusUpdates;
    timeline := GetTimeline(db, id);
    ghost var r1, r2, r3 := s1[|s0|], s2[|s1|], s3[|s2|];
    TimelineQueryMatches(r2, id);
    TimelineQueryMatches(r3, id);
    TimelineOfThree(s1, r1, r2, r3, id);
    ActionsOfThree(r1, r2, r3, timeline.value);
  }
}
