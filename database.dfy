/** The document store behind the handlers, modelled by the contracts its helpers are
    known to keep: `create_document` inserts the serialised record under a fresh `_id`
    and stamps an increasing `created_at`; listing is an exact-match conjunction in
    insertion order; `update_one` applies `$set` and `$push`. */
module Database {
  import opened Common
  import opened ObjectIds
  import opened Documents

  datatype Collection = Departments | Users | Applications | StatusUpdates | Notifications

  /** The stored form of a record: its serialised fields, the `created_at` stamp and the `_id`. */
  function Stamp(data: Document, oid: ObjectId, t: nat): (d: Document)
    ensures d.Keys == data.Keys + {"_id", "created_at"}
    ensures d["_id"] == Oid(oid) && CreatedAt(d) == t
    ensures forall k :: k in data && k != "_id" && k != "created_at" ==> d[k] == data[k]
  {
    data["created_at" := Time(t)]["_id" := Oid(oid)]
  }

  /** An update document: the `$set` fields and an optional `$push` of one value. */
  datatype Update = Update(setFields: Document, push: Option<(string, Value)>)

  /** The array a field holds, seen by `$push`: an absent field counts as an empty array. */
  function ArrayAt(doc: Document, field: string): seq<Value> {
    if field in doc && doc[field].List? then doc[field].items else []
  }

  /** What `update_one` does to the matched document. */
  function ApplyUpdate(doc: Document, u: Update): (r: Result<Document>)
    ensures r.Err? <==>
      || "_id" in u.setFields
      || (u.push.Some? && (u.push.value.0 == "_id" || u.push.value.0 in u.setFields
                           || (u.push.value.0 in doc && !doc[u.push.value.0].List?)))
    ensures r.Ok? ==> r.value.Keys == doc.Keys + u.setFields.Keys + (if u.push.Some? then {u.push.value.0} else {})
    ensures r.Ok? ==> forall k :: k in u.setFields ==> r.value[k] == u.setFields[k]
    ensures r.Ok? && u.push.Some? ==>
      r.value[u.push.value.0] == List(ArrayAt(doc, u.push.value.0) + [u.push.value.1])
    ensures r.Ok? ==> forall k :: k in doc && k !in u.setFields && (u.push.None? || k != u.push.value.0)
                                  ==> r.value[k] == doc[k]
  {
    if "_id" in u.setFields || (u.push.Some? && u.push.value.0 == "_id") then Err(ImmutableId)
    else if u.push.Some? && u.push.value.0 in u.setFields then Err(Conflict(u.push.value.0))
    else
      var d := doc + u.setFields;
      match u.push
      case None => Ok(d)
      case Some((field, v)) =>
        if field in doc && !doc[field].List? then Err(NotAnArray(field))
        else Ok(d[field := List(ArrayAt(doc, field) + [v])])
  }

  /** The stored applications with an id below `n`, in ascending id order (insertion order). */
  function InIdOrder(apps: map<ObjectId, Document>, n: nat): (r: seq<Document>)
    ensures forall d :: d in r <==> exists o :: o in apps && o.n < n && apps[o] == d
    decreases n
  {
    if n == 0 then []
    else
      var o := ObjectId(n - 1);
      InIdOrder(apps, n - 1) + (if o in apps then [apps[o]] else [])
  }

  /** Every stored application sits under its own `_id`, which the clock has passed. */
  predicate AppsKeyed(apps: map<ObjectId, Document>, clock: nat) {
    forall o :: o in apps ==> o.n < clock && "_id" in apps[o] && apps[o]["_id"] == Oid(o)
  }

  predicate IdsAssigned(coll: seq<Document>) {
    forall i :: 0 <= i < |coll| ==> "_id" in coll[i] && coll[i]["_id"].Oid?
  }

  class Store {
    /** False stands for a database handle that is None. */
    const connected: bool
    var applications: map<ObjectId, Document>
    var statusUpdates: seq<Document>
    var departments: seq<Document>
    var users: seq<Document>
    var notifications: seq<Document>
    /** Source of fresh ids and increasing `created_at` stamps. */
    var clock: nat

    ghost predicate Valid()
      reads this
    {
      && AppsKeyed(applications, clock)
      && IdsAssigned(statusUpdates) && IdsAssigned(departments)
      && IdsAssigned(users) && IdsAssigned(notifications)
      && (forall i :: 0 <= i < |statusUpdates| ==> 0 <= CreatedAt(statusUpdates[i]) < clock)
      && SortedByCreatedAt(statusUpdates)
    }

    constructor (connected: bool)
      ensures Valid() && this.connected == connected && clock == 0
      ensures applications == map[] && statusUpdates == [] && departments == []
      ensures users == [] && notifications == []
    {
      this.connected := connected;
      applications, statusUpdates, departments, users, notifications := map[], [], [], [], [];
      clock := 0;
    }

    /** The documents of a collection in insertion order. */
    function Contents(c: Collection): seq<Document>
      reads this
    {
      match c
      case Departments => departments
      case Users => users
      case Applications => InIdOrder(applications, clock)
      case StatusUpdates => statusUpdates
      case Notifications => notifications
    }

    /** `create_document(collection, data)`: returns the string form of the new `_id`. */
    method CreateDocument(c: Collection, data: Document) returns (r: Result<string>)
      requires Valid()
      modifies this
      ensures Valid()
      ensures !connected ==> r == Err(Unavailable) && unchanged(this)
      ensures connected ==>
        var oid := ObjectId(old(clock));
        var doc := Stamp(data, oid, old(clock));
        && r == Ok(Render(oid)) && clock == old(clock) + 1 && oid !in old(applications)
        && applications == (if c == Applications then old(applications)[oid := doc] else old(applications))
        && statusUpdates == (if c == StatusUpdates then old(statusUpdates) + [doc] else old(statusUpdates))
        && departments == (if c == Departments then old(departments) + [doc] else old(departments))
        && users == (if c == Users then old(users) + [doc] else old(users))
        && notifications == (if c == Notifications then old(notifications) + [doc] else old(notifications))
    {
      if !connected {
        return Err(Unavailable);
      }
      var oid := ObjectId(clock);
      var doc := Stamp(data, oid, clock);
      match c {
        case Applications => applications := applications[oid := doc];
        case StatusUpdates =>
          SortedSnoc(statusUpdates, doc);
          statusUpdates := statusUpdates + [doc];
        case Departments => departments := departments + [doc];
        case Users => users := users + [doc];
        case Notifications => notifications := notifications + [doc];
      }
      clock := clock + 1;
      r := Ok(Render(oid));
    }

    /** `update_one({"_id": oid}, u)` on the applications; true when a document matched. */
    method UpdateOne(oid: ObjectId, u: Update) returns (r: Result<bool>)
      requires Valid()
      modifies this`applications
      ensures Valid()
      ensures !connected ==> r == Err(Unavailable) && applications == old(applications)
      ensures connected && oid !in old(applications) ==> r == Ok(false) && applications == old(applications)
      ensures connected && oid in old(applications) ==>
        var res := ApplyUpdate(old(applications)[oid], u);
        && (res.Err? ==> r == Err(res.error) && applications == old(applications))
        && (res.Ok? ==> r == Ok(true) && applications == old(applications)[oid := res.value])
    {
      if !connected {
        return Err(Unavailable);
      }
      if oid !in applications {
        return Ok(false);
      }
      var res := ApplyUpdate(applications[oid], u);
      if res.Err? {
        return Err(res.error);
      }
      applications := applications[oid := res.value];
      r := Ok(true);
    }

    /** `get_documents(collection, filter)`. */
    method GetDocuments(c: Collection, filter: Document) returns (r: Result<seq<Document>>)
      ensures !connected ==> r == Err(Unavailable)
      ensures connected ==> r == Ok(Find(Contents(c), filter))
    {
      if !connected {
        return Err(Unavailable);
      }
      r := Ok(Find(Contents(c), filter));
    }
  }
}
