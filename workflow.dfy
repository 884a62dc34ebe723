/** The decisions the request handlers make, as functions: the status and stage an action
    produces and the update it sends, the public form of a stored document, the listing
    filters, and the timeline selection. */
module Workflow {
  import opened Common
  import opened ObjectIds
  import opened Documents
  import opened Schemas
  import opened Database

  // ---------- Applying an action ----------

  /** The body of an action request. `actor_role` and `action` are free strings here;
      only the audit record restricts them to literals. */
  datatype ReviewAction = ReviewAction(
    actorRole: string,
    actorName: string,
    action: string,
    comments: Option<string> := None,
    toDepartment: Option<string> := None)

  /** The status an action string leads to. */
  function StatusFor(action: string): (s: string)
    ensures ParseStatus(s).Some?
    ensures s == "forwarded" <==> action == "forward"
    ensures s == "approved" <==> action == "approve"
    ensures s == "rejected" <==> action == "reject"
    ensures s == "under_review" <==> action != "forward" && action != "approve" && action != "reject"
  {
    if action == "forward" then "forwarded"
    else if action == "approve" then "approved"
    else if action == "reject" then "rejected"
    else "under_review"
  }

  /** What the handler decides from the stored application: the status and stage it
      reports, and the update it sends to the store. */
  datatype Decision = Decision(status: string, stage: Value, update: Update)

  function Decide(stored: Document, act: ReviewAction): (d: Decision)
    ensures d.status == StatusFor(act.action)
    ensures "status" in d.update.setFields && d.update.setFields["status"] == Str(d.status)
    ensures "_id" !in d.update.setFields
    ensures d.update.push.Some? <==> act.action == "forward"
    ensures d.update.push.Some? ==> d.update.push.value == ("route_history", d.stage)
  {
    var stage := Get(stored, "current_stage", Str("coordinator"));
    var status := StatusFor(act.action);
    if act.action == "forward" then
      var next := if Truthy(act.toDepartment) then Str(act.toDepartment.value) else stage;
      Decision(status, next,
               Update(map["status" := Str(status), "current_stage" := next], Some(("route_history", next))))
    else
      Decision(status, stage, Update(map["status" := Str(status)], None))
  }

  /** A forward sets status "forwarded", moves the stage to a non-empty `to_department`
      (otherwise keeps the stored one, "coordinator" when there is none), appends that stage
      to the route history and changes no other field; it fails only when the stored route
      history is not an array. */
  lemma ForwardEffect(stored: Document, act: ReviewAction)
    requires act.action == "forward"
    ensures var d := Decide(stored, act);
      var r := ApplyUpdate(stored, d.update);
      && d.status == "forwarded"
      && d.stage == (if Truthy(act.toDepartment) then Str(act.toDepartment.value)
                     else Get(stored, "current_stage", Str("coordinator")))
      && (r.Err? <==> "route_history" in stored && !stored["route_history"].List?)
      && (r.Ok? ==>
            && r.value.Keys == stored.Keys + {"status", "current_stage", "route_history"}
            && r.value["status"] == Str("forwarded")
            && r.value["current_stage"] == d.stage
            && r.value["route_history"] == List(ArrayAt(stored, "route_history") + [d.stage])
            && forall k :: k in stored && k != "status" && k != "current_stage" && k != "route_history"
                           ==> r.value[k] == stored[k])
  {
  }

  /** Every other action sets the status its name selects, reports the stored stage
      ("coordinator" when there is none) and leaves every other field, the stage and the
      route history included, as it was. */
  lemma OtherActionEffect(stored: Document, act: ReviewAction)
    requires act.action != "forward"
    ensures var d := Decide(stored, act);
      && d.status == StatusFor(act.action)
      && d.stage == Get(stored, "current_stage", Str("coordinator"))
      && ApplyUpdate(stored, d.update) == Ok(stored["status" := Str(d.status)])
  {
    var d := Decide(stored, act);
    var r := ApplyUpdate(stored, d.update);
    assert r.Ok?;
    assert r.value == stored["status" := Str(d.status)];
  }

  /** The handler writes `to_department` without validating it, so a stored stage can
      leave the four Stage literals. */
  lemma ForwardStageIsUnvalidated()
    ensures var stored := map["current_stage" := Str("hod")];
      var act := ReviewAction("hod", "Head", "forward", toDepartment := Some("library"));
      && Decide(stored, act).stage == Str("library")
      && ParseStage("library").None?
  {
  }

  /** The successive updates a sequence of actions makes to one stored application. */
  function Replay(doc: Document, acts: seq<ReviewAction>): Result<Document>
    decreases |acts|
  {
    if acts == [] then Ok(doc)
    else
      match Replay(doc, acts[..|acts| - 1])
      case Err(e) => Err(e)
      case Ok(d) => ApplyUpdate(d, Decide(d, acts[|acts| - 1]).update)
  }

  function Forwards(acts: seq<ReviewAction>): nat
    decreases |acts|
  {
    if acts == [] then 0
    else Forwards(acts[..|acts| - 1]) + (if acts[|acts| - 1].action == "forward" then 1 else 0)
  }

  /** The route history only grows: its old contents stay a prefix, and it gains one entry
      per forward. */
  lemma {:induction false} RouteHistoryOnlyGrows(doc: Document, acts: seq<ReviewAction>)
    requires Replay(doc, acts).Ok?
    ensures ArrayAt(doc, "route_history") <= ArrayAt(Replay(doc, acts).value, "route_history")
    ensures |ArrayAt(Replay(doc, acts).value, "route_history")|
         == |ArrayAt(doc, "route_history")| + Forwards(acts)
    decreases |acts|
  {
    if acts != [] {
      var p, a := acts[..|acts| - 1], acts[|acts| - 1];
      RouteHistoryOnlyGrows(doc, p);
      var d := Replay(doc, p).value;
      if a.action == "forward" {
        ForwardEffect(d, a);
      } else {
        OtherActionEffect(d, a);
      }
    }
  }

  /** After any non-empty sequence of actions the stored status is the one the last action
      selects, so it is always a Status literal. */
  lemma {:induction false} StatusFollowsLastAction(doc: Document, acts: seq<ReviewAction>)
    requires acts != [] && Replay(doc, acts).Ok?
    ensures "status" in Replay(doc, acts).value
    ensures Replay(doc, acts).value["status"] == Str(StatusFor(acts[|acts| - 1].action))
    ensures ParseStatus(Replay(doc, acts).value["status"].s).Some?
  {
    var d := Replay(doc, acts[..|acts| - 1]).value;
    var a := acts[|acts| - 1];
    if a.action == "forward" {
      ForwardEffect(d, a);
    } else {
      OtherActionEffect(d, a);
    }
  }

  // ---------- Public form of a document ----------

  /** `str()` of an `_id` value. */
  function IdText(v: Value): (r: Result<string>)
    ensures r.Ok? <==> v.Oid? || v.Str?
    ensures v.Oid? ==> r.Ok? && Parse(r.value) == Some(v.id)
    ensures v.Str? ==> r == Ok(v.s)
  {
    match v
    case Oid(o) => ParseRender(o); Ok(Render(o))
    case Str(s) => Ok(s)
    case _ => Err(UnsupportedId)
  }

  /** `to_public`: an empty document is returned as it is; otherwise `_id` is removed and
      its string form is stored under `id`, and every other field is kept. */
  function ToPublic(doc: Document): (r: Result<Document>)
    ensures doc == map[] ==> r == Ok(doc)
    ensures doc != map[] && "_id" !in doc ==> r == Err(MissingKey("_id"))
    ensures doc != map[] && "_id" in doc ==> (r.Ok? <==> IdText(doc["_id"]).Ok?)
    ensures r.Ok? && doc != map[] ==>
      && r.value.Keys == doc.Keys - {"_id"} + {"id"}
      && r.value["id"] == Str(IdText(doc["_id"]).value)
      && forall k :: k in doc && k != "_id" && k != "id" ==> r.value[k] == doc[k]
  {
    if doc == map[] then Ok(doc)
    else if "_id" !in doc then Err(MissingKey("_id"))
    else
      match IdText(doc["_id"])
      case Err(e) => Err(e)
      case Ok(s) => Ok((doc - {"_id"})["id" := Str(s)])
  }

  /** A stored record's public form is its fields, its stamp and `id`, the string the
      store returned when it was created. */
  lemma PublicOfStamped(data: Document, oid: ObjectId, t: nat)
    requires "_id" !in data && "id" !in data
    ensures ToPublic(Stamp(data, oid, t)) == Ok(data["created_at" := Time(t)]["id" := Str(Render(oid))])
  {
    var d := Stamp(data, oid, t);
    var want := data["created_at" := Time(t)]["id" := Str(Render(oid))];
    var got := ToPublic(d).value;
    assert ToPublic(d).Ok?;
    assert got.Keys == want.Keys;
    forall k | k in want ensures got[k] == want[k] {
    }
    assert got == want;
  }

  /** The public form still matches a filter that does not mention `_id` or `id`. */
  lemma PublicKeepsMatches(doc: Document, filter: Document)
    requires Matches(doc, filter) && ToPublic(doc).Ok?
    requires "_id" !in filter && "id" !in filter
    ensures Matches(ToPublic(doc).value, filter)
  {
  }

  // ---------- Listing filters ----------

  const APP_FILTER_KEYS: set<string> := {"student_id", "department_code", "status", "category"}

  /** The query parameter behind a filter key. */
  function FilterParam(q: AppFilter, key: string): Option<string> {
    if key == "student_id" then q.studentId
    else if key == "department_code" then q.departmentCode
    else if key == "status" then q.status
    else if key == "category" then q.category
    else None
  }

  /** Adds an exact-match key for a parameter when the parameter is non-empty. */
  function WithParam(f: Document, key: string, param: Option<string>): Document {
    if Truthy(param) then f[key := Str(param.value)] else f
  }

  /** The application listing's filter: one exact-match key for each non-empty parameter. */
  function AppQuery(q: AppFilter): (f: Document) {
    var f := WithParam(map[], "student_id", q.studentId);
    var f := WithParam(f, "department_code", q.departmentCode);
    var f := WithParam(f, "status", q.status);
    WithParam(f, "category", q.category)
  }

  /** Each listing parameter adds its own key, with the parameter's value, exactly when it
      is non-empty; nothing else is filtered on. */
  lemma AppQueryFields(q: AppFilter)
    ensures AppQuery(q).Keys <= APP_FILTER_KEYS
    ensures "student_id" in AppQuery(q) <==> Truthy(q.studentId)
    ensures "department_code" in AppQuery(q) <==> Truthy(q.departmentCode)
    ensures "status" in AppQuery(q) <==> Truthy(q.status)
    ensures "category" in AppQuery(q) <==> Truthy(q.category)
    ensures forall k :: k in AppQuery(q) ==> AppQuery(q)[k] == Str(FilterParam(q, k).value)
  {
  }

  /** With no parameter given, the listing filters on nothing. */
  lemma AppQueryEmpty()
    ensures AppQuery(AppFilter()) == map[]
  {
  }

  /** The notification listing's filter. */
  function NotificationQuery(userEmail: Option<string>): (f: Document)
    ensures "user_email" in f <==> Truthy(userEmail)
    ensures f.Keys <= {"user_email"}
    ensures "user_email" in f ==> f["user_email"] == Str(userEmail.value)
  {
    if Truthy(userEmail) then map["user_email" := Str(userEmail.value)] else map[]
  }

  // ---------- Timeline ----------

  function TimelineQuery(appId: string): Document {
    map["application_id" := Str(appId)]
  }

  /** A record matches the timeline filter of an id exactly when it names that id. */
  lemma TimelineQueryMatches(d: Document, appId: string)
    ensures Matches(d, TimelineQuery(appId)) <==> "application_id" in d && d["application_id"] == Str(appId)
  {
    assert "application_id" in TimelineQuery(appId);
  }

  /** The audit records of one application id, sorted ascending by `created_at`. */
  function Timeline(updates: seq<Document>, appId: string): (t: seq<Document>)
    ensures SortedByCreatedAt(t)
    ensures forall d :: d in t <==> d in updates && "application_id" in d && d["application_id"] == Str(appId)
  {
    var selected := Find(updates, TimelineQuery(appId));
    SortIsSorted(selected);
    var t := SortByCreatedAt(selected);
    SameElements(t, selected);
    t
  }

  /** In a collection kept in stamp order, the timeline is the records of that id in the
      order they were written. */
  lemma TimelineInWriteOrder(updates: seq<Document>, appId: string)
    requires SortedByCreatedAt(updates)
    ensures Timeline(updates, appId) == Find(updates, TimelineQuery(appId))
  {
    FindSorted(updates, TimelineQuery(appId));
    SortSortedIsIdentity(Find(updates, TimelineQuery(appId)));
  }

  /** Writing one record extends the timeline of the id it names by that record and leaves
      every other timeline as it was. */
  lemma TimelineAppend(updates: seq<Document>, rec: Document, appId: string)
    requires SortedByCreatedAt(updates + [rec])
    ensures Timeline(updates + [rec], appId)
         == Timeline(updates, appId) + (if Matches(rec, TimelineQuery(appId)) then [rec] else [])
  {
    var q := TimelineQuery(appId);
    assert SortedByCreatedAt(updates) by {
      forall i, j | 0 <= i < j < |updates| ensures CreatedAt(updates[i]) <= CreatedAt(updates[j]) {
        assert updates[i] == (updates + [rec])[i] && updates[j] == (updates + [rec])[j];
      }
    }
    TimelineInWriteOrder(updates + [rec], appId);
    TimelineInWriteOrder(updates, appId);
    FindAppend(updates, [rec], q);
    assert [rec][..0] == [];
    assert Find([rec], q) == Find([], q) + (if Matches(rec, q) then [rec] else []);
  }
}
