/** The entity schemas: literal enumerations, records with their field defaults, schema
    validation of the literal fields, and the serialisation of each record into a
    stored document. */
module Schemas {
  import opened Common
  import opened Documents

  // ---------- Literal enumerations ----------

  datatype DepartmentType = Academic | Administrative

  datatype Role = Student | Coordinator | Hod | Registrar | Admin | Superadmin

  datatype Category = BonafideCertificate | LeaveRequest | LabAccess | ProjectApproval | General

  datatype Status = Submitted | UnderReview | Approved | Rejected | Forwarded

  datatype Stage = AtCoordinator | AtHod | AtRegistrar | AtAdmin

  datatype ActionKind = Submit | Review | Forward | Approve | Reject | Comment

  function DepartmentTypeName(t: DepartmentType): string {
    match t
    case Academic => "academic"
    case Administrative => "administrative"
  }

  function ParseDepartmentType(s: string): (r: Option<DepartmentType>)
    ensures r.Some? ==> DepartmentTypeName(r.value) == s
    ensures r.None? ==> forall t: DepartmentType :: DepartmentTypeName(t) != s
  {
    if s == "academic" then Some(Academic)
    else if s == "administrative" then Some(Administrative)
    else None
  }

  function RoleName(r: Role): string {
    match r
    case Student => "student"
    case Coordinator => "coordinator"
    case Hod => "hod"
    case Registrar => "registrar"
    case Admin => "admin"
    case Superadmin => "superadmin"
  }

  function ParseRole(s: string): (r: Option<Role>)
    ensures r.Some? ==> RoleName(r.value) == s
    ensures r.None? ==> forall x: Role :: RoleName(x) != s
  {
    if s == "student" then Some(Student)
    else if s == "coordinator" then Some(Coordinator)
    else if s == "hod" then Some(Hod)
    else if s == "registrar" then Some(Registrar)
    else if s == "admin" then Some(Admin)
    else if s == "superadmin" then Some(Superadmin)
    else None
  }

  function CategoryName(c: Category): string {
    match c
    case BonafideCertificate => "bonafide_certificate"
    case LeaveRequest => "leave_request"
    case LabAccess => "lab_access"
    case ProjectApproval => "project_approval"
    case General => "general"
  }

  function ParseCategory(s: string): (r: Option<Category>)
    ensures r.Some? ==> CategoryName(r.value) == s
    ensures r.None? ==> forall c: Category :: CategoryName(c) != s
  {
    if s == "bonafide_certificate" then Some(BonafideCertificate)
    else if s == "leave_request" then Some(LeaveRequest)
    else if s == "lab_access" then Some(LabAccess)
    else if s == "project_approval" then Some(ProjectApproval)
    else if s == "general" then Some(General)
    else None
  }

  function StatusName(s: Status): string {
    match s
    case Submitted => "submitted"
    case UnderReview => "under_review"
    case Approved => "approved"
    case Rejected => "rejected"
    case Forwarded => "forwarded"
  }

  function ParseStatus(s: string): (r: Option<Status>)
    ensures r.Some? ==> StatusName(r.value) == s
    ensures r.None? ==> forall x: Status :: StatusName(x) != s
  {
    if s == "submitted" then Some(Submitted)
    else if s == "under_review" then Some(UnderReview)
    else if s == "approved" then Some(Approved)
    else if s == "rejected" then Some(Rejected)
    else if s == "forwarded" then Some(Forwarded)
    else None
  }

  function StageName(s: Stage): string {
    match s
    case AtCoordinator => "coordinator"
    case AtHod => "hod"
    case AtRegistrar => "registrar"
    case AtAdmin => "admin"
  }

  function ParseStage(s: string): (r: Option<Stage>)
    ensures r.Some? ==> StageName(r.value) == s
    ensures r.None? ==> forall x: Stage :: StageName(x) != s
  {
    if s == "coordinator" then Some(AtCoordinator)
    else if s == "hod" then Some(AtHod)
    else if s == "registrar" then Some(AtRegistrar)
    else if s == "admin" then Some(AtAdmin)
    else None
  }

  function ActionName(a: ActionKind): string {
    match a
    case Submit => "submit"
    case Review => "review"
    case Forward => "forward"
    case Approve => "approve"
    case Reject => "reject"
    case Comment => "comment"
  }

  function ParseAction(s: string): (r: Option<ActionKind>)
    ensures r.Some? ==> ActionName(r.value) == s
    ensures r.None? ==> forall x: ActionKind :: ActionName(x) != s
  {
    if s == "submit" then Some(Submit)
    else if s == "review" then Some(Review)
    else if s == "forward" then Some(Forward)
    else if s == "approve" then Some(Approve)
    else if s == "reject" then Some(Reject)
    else if s == "comment" then Some(Comment)
    else None
  }

  // ---------- Records ----------

  datatype Department = Department(name: string, code: string, kind: DepartmentType, isActive: bool)

  datatype User = User(fullName: string, email: string, role: Role, departmentCode: Option<string>, isActive: bool)

  datatype Application = Application(
    studentId: string,
    studentName: string,
    studentEmail: string,
    departmentCode: string,
    category: Category,
    title: string,
    description: string,
    attachments: seq<string>,
    status: Status,
    currentStage: Stage,
    routeHistory: seq<string>)

  datatype StatusUpdate = StatusUpdate(
    applicationId: string,
    actorRole: Role,
    actorName: string,
    action: ActionKind,
    comments: Option<string>,
    toDepartment: Option<string>,
    createdAt: Option<nat>)

  /** A notification; `read` defaults to false. */
  datatype Notification = Notification(userEmail: string, title: string, message: string, read: bool := false)

  /** The optional query parameters of the application listing; each defaults to None. */
  datatype AppFilter = AppFilter(
    studentId: Option<string> := None,
    departmentCode: Option<string> := None,
    status: Option<string> := None,
    category: Option<string> := None)

  // ---------- Construction with validation and defaults ----------

  /** Builds a Department; `type` must be one of its two literals. */
  function MakeDepartment(name: string, code: string, deptType: string := "academic", isActive: bool := true)
    : (r: Result<Department>)
    ensures r.Ok? <==> ParseDepartmentType(deptType).Some?
    ensures r.Ok? ==> r.value.name == name && r.value.code == code && r.value.isActive == isActive
                      && DepartmentTypeName(r.value.kind) == deptType
    ensures r.Err? ==> r.error == Invalid({"type"})
  {
    match ParseDepartmentType(deptType)
    case Some(t) => Ok(Department(name, code, t, isActive))
    case None => Err(Invalid({"type"}))
  }

  /** Builds a User; `role` must be one of the six role literals. */
  function MakeUser(fullName: string, email: string, role: string,
                    departmentCode: Option<string> := None, isActive: bool := true)
    : (r: Result<User>)
    ensures r.Ok? <==> ParseRole(role).Some?
    ensures r.Ok? ==> r.value.fullName == fullName && r.value.email == email && RoleName(r.value.role) == role
                      && r.value.departmentCode == departmentCode && r.value.isActive == isActive
    ensures r.Err? ==> r.error == Invalid({"role"})
  {
    match ParseRole(role)
    case Some(x) => Ok(User(fullName, email, x, departmentCode, isActive))
    case None => Err(Invalid({"role"}))
  }

  /** Builds an Application; the three literal fields are validated, and the error names
      every one of them that is out of its enumeration. */
  function MakeApplication(studentId: string, studentName: string, studentEmail: string,
                           departmentCode: string, title: string, description: string,
                           category: string := "general", attachments: seq<string> := [],
                           status: string := "submitted", currentStage: string := "coordinator",
                           routeHistory: seq<string> := [])
    : (r: Result<Application>)
    ensures r.Ok? <==> ParseCategory(category).Some? && ParseStatus(status).Some? && ParseStage(currentStage).Some?
    ensures r.Ok? ==>
      && r.value.studentId == studentId && r.value.studentName == studentName
      && r.value.studentEmail == studentEmail && r.value.departmentCode == departmentCode
      && r.value.title == title && r.value.description == description
      && CategoryName(r.value.category) == category && r.value.attachments == attachments
      && StatusName(r.value.status) == status && StageName(r.value.currentStage) == currentStage
      && r.value.routeHistory == routeHistory
    ensures r.Err? ==>
      && r.error.Invalid?
      && ("category" in r.error.fields <==> ParseCategory(category).None?)
      && ("status" in r.error.fields <==> ParseStatus(status).None?)
      && ("current_stage" in r.error.fields <==> ParseStage(currentStage).None?)
      && r.error.fields <= {"category", "status", "current_stage"}
  {
    var c, s, g := ParseCategory(category), ParseStatus(status), ParseStage(currentStage);
    if c.Some? && s.Some? && g.Some? then
      Ok(Application(studentId, studentName, studentEmail, departmentCode, c.value, title, description,
                     attachments, s.value, g.value, routeHistory))
    else
      Err(Invalid((if c.None? then {"category"} else {})
                  + (if s.None? then {"status"} else {})
                  + (if g.None? then {"current_stage"} else {})))
  }

  /** Builds a StatusUpdate; `actor_role` and `action` are validated against their literals,
      and the error names every one of them that is out of its enumeration. */
  function MakeStatusUpdate(applicationId: string, actorRole: string, actorName: string, action: string,
                            comments: Option<string> := None, toDepartment: Option<string> := None,
                            createdAt: Option<nat> := None)
    : (r: Result<StatusUpdate>)
    ensures r.Ok? <==> ParseRole(actorRole).Some? && ParseAction(action).Some?
    ensures r.Ok? ==>
      && r.value.applicationId == applicationId && RoleName(r.value.actorRole) == actorRole
      && r.value.actorName == actorName && ActionName(r.value.action) == action
      && r.value.comments == comments && r.value.toDepartment == toDepartment
      && r.value.createdAt == createdAt
    ensures r.Err? ==>
      && r.error.Invalid?
      && ("actor_role" in r.error.fields <==> ParseRole(actorRole).None?)
      && ("action" in r.error.fields <==> ParseAction(action).None?)
      && r.error.fields <= {"actor_role", "action"}
  {
    var role, act := ParseRole(actorRole), ParseAction(action);
    if role.Some? && act.Some? then
      Ok(StatusUpdate(applicationId, role.value, actorName, act.value, comments, toDepartment, createdAt))
    else
      Err(Invalid((if role.None? then {"actor_role"} else {}) + (if act.None? then {"action"} else {})))
  }

  // ---------- Defaults ----------

  lemma DepartmentDefaults(name: string, code: string)
    ensures MakeDepartment(name, code) == Ok(Department(name, code, Academic, true))
  {
  }

  lemma UserDefaults(fullName: string, email: string, role: Role)
    ensures MakeUser(fullName, email, RoleName(role)) == Ok(User(fullName, email, role, None, true))
  {
  }

  lemma ApplicationDefaults(studentId: string, studentName: string, studentEmail: string,
                            departmentCode: string, title: string, description: string)
    ensures MakeApplication(studentId, studentName, studentEmail, departmentCode, title, description)
         == Ok(Application(studentId, studentName, studentEmail, departmentCode, General, title, description,
                           [], Submitted, AtCoordinator, []))
  {
  }

  lemma StatusUpdateDefaults(applicationId: string, role: Role, actorName: string, action: ActionKind)
    ensures MakeStatusUpdate(applicationId, RoleName(role), actorName, ActionName(action))
         == Ok(StatusUpdate(applicationId, role, actorName, action, None, None, None))
  {
  }

  lemma NotificationDefault(userEmail: string, title: string, message: string)
    ensures !Notification(userEmail, title, message).read
  {
  }

  lemma AppFilterDefaults()
    ensures AppFilter() == AppFilter(None, None, None, None)
  {
  }

  // ---------- Serialisation into stored documents ----------

  function Strings(xs: seq<string>): (r: seq<Value>)
    ensures |r| == |xs| && forall i :: 0 <= i < |xs| ==> r[i] == Str(xs[i])
  {
    seq(|xs|, i requires 0 <= i < |xs| => Str(xs[i]))
  }

  function Nullable(s: Option<string>): Value {
    match s
    case Some(v) => Str(v)
    case None => Null
  }

  function DumpDepartment(d: Department): (doc: Document)
    ensures doc.Keys == {"name", "code", "type", "is_active"}
  {
    map["name" := Str(d.name), "code" := Str(d.code), "type" := Str(DepartmentTypeName(d.kind)),
        "is_active" := Bool(d.isActive)]
  }

  function DumpUser(u: User): (doc: Document)
    ensures doc.Keys == {"full_name", "email", "role", "department_code", "is_active"}
  {
    map["full_name" := Str(u.fullName), "email" := Str(u.email), "role" := Str(RoleName(u.role)),
        "department_code" := Nullable(u.departmentCode), "is_active" := Bool(u.isActive)]
  }

  function DumpApplication(a: Application): (doc: Document)
    ensures doc.Keys == {"student_id", "student_name", "student_email", "department_code", "category", "title",
                         "description", "attachments", "status", "current_stage", "route_history"}
  {
    map["student_id" := Str(a.studentId), "student_name" := Str(a.studentName),
        "student_email" := Str(a.studentEmail), "department_code" := Str(a.departmentCode),
        "category" := Str(CategoryName(a.category)), "title" := Str(a.title),
        "description" := Str(a.description), "attachments" := List(Strings(a.attachments)),
        "status" := Str(StatusName(a.status)), "current_stage" := Str(StageName(a.currentStage)),
        "route_history" := List(Strings(a.routeHistory))]
  }

  function DumpStatusUpdate(u: StatusUpdate): (doc: Document)
    ensures doc.Keys == {"application_id", "actor_role", "actor_name", "action", "comments", "to_department",
                         "created_at"}
  {
    map["application_id" := Str(u.applicationId), "actor_role" := Str(RoleName(u.actorRole)),
        "actor_name" := Str(u.actorName), "action" := Str(ActionName(u.action)),
        "comments" := Nullable(u.comments), "to_department" := Nullable(u.toDepartment),
        "created_at" := match u.createdAt case Some(t) => Time(t) case None => Null]
  }

  function DumpNotification(n: Notification): (doc: Document)
    ensures doc.Keys == {"user_email", "title", "message", "read"}
  {
    map["user_email" := Str(n.userEmail), "title" := Str(n.title), "message" := Str(n.message),
        "read" := Bool(n.read)]
  }

  // ---------- Reading stored documents back ----------

  function StrAt(doc: Document, key: string): Option<string> {
    if key in doc && doc[key].Str? then Some(doc[key].s) else None
  }

  function BoolAt(doc: Document, key: string): Option<bool> {
    if key in doc && doc[key].Bool? then Some(doc[key].b) else None
  }

  /** An optional string field: a string, or `Null` for None. */
  function NullableAt(doc: Document, key: string): Option<Option<string>> {
    if key in doc && doc[key].Str? then Some(Some(doc[key].s))
    else if key in doc && doc[key].Null? then Some(None)
    else None
  }

  /** An optional stamp field: a time, or `Null` for None. */
  function TimeAt(doc: Document, key: string): Option<Option<nat>> {
    if key in doc && doc[key].Time? then Some(Some(doc[key].t))
    else if key in doc && doc[key].Null? then Some(None)
    else None
  }

  /** A list field whose elements are all strings. */
  function StringsAt(doc: Document, key: string): Option<seq<string>> {
    if key in doc && doc[key].List? && forall i :: 0 <= i < |doc[key].items| ==> doc[key].items[i].Str?
    then Some(seq(|doc[key].items|, i requires 0 <= i < |doc[key].items| => doc[key].items[i].s))
    else None
  }

  /** A literal field, read through the parser of its enumeration. */
  function LiteralAt<T>(doc: Document, key: string, parse: string -> Option<T>): Option<T> {
    if StrAt(doc, key).Some? then parse(StrAt(doc, key).value) else None
  }

  /** The department a stored document holds, if it holds one. */
  function LoadDepartment(doc: Document): Option<Department> {
    var name, code, kind, active := StrAt(doc, "name"), StrAt(doc, "code"),
      LiteralAt(doc, "type", ParseDepartmentType), BoolAt(doc, "is_active");
    if name.Some? && code.Some? && kind.Some? && active.Some?
    then Some(Department(name.value, code.value, kind.value, active.value))
    else None
  }

  function LoadUser(doc: Document): Option<User> {
    var name, email, role, dept, active := StrAt(doc, "full_name"), StrAt(doc, "email"),
      LiteralAt(doc, "role", ParseRole), NullableAt(doc, "department_code"), BoolAt(doc, "is_active");
    if name.Some? && email.Some? && role.Some? && dept.Some? && active.Some?
    then Some(User(name.value, email.value, role.value, dept.value, active.value))
    else None
  }

  function LoadApplication(doc: Document): Option<Application> {
    var sid, sname, email, dept := StrAt(doc, "student_id"), StrAt(doc, "student_name"),
      StrAt(doc, "student_email"), StrAt(doc, "department_code");
    var cat, title, desc, att := LiteralAt(doc, "category", ParseCategory), StrAt(doc, "title"),
      StrAt(doc, "description"), StringsAt(doc, "attachments");
    var status, stage, route := LiteralAt(doc, "status", ParseStatus),
      LiteralAt(doc, "current_stage", ParseStage), StringsAt(doc, "route_history");
    if && sid.Some? && sname.Some? && email.Some? && dept.Some? && cat.Some? && title.Some?
       && desc.Some? && att.Some? && status.Some? && stage.Some? && route.Some?
    then Some(Application(sid.value, sname.value, email.value, dept.value, cat.value, title.value,
                          desc.value, att.value, status.value, stage.value, route.value))
    else None
  }

  function LoadStatusUpdate(doc: Document): Option<StatusUpdate> {
    var app, role, name, act := StrAt(doc, "application_id"), LiteralAt(doc, "actor_role", ParseRole),
      StrAt(doc, "actor_name"), LiteralAt(doc, "action", ParseAction);
    var comments, dept, created := NullableAt(doc, "comments"), NullableAt(doc, "to_department"),
      TimeAt(doc, "created_at");
    if app.Some? && role.Some? && name.Some? && act.Some? && comments.Some? && dept.Some? && created.Some?
    then Some(StatusUpdate(app.value, role.value, name.value, act.value, comments.value, dept.value,
                           created.value))
    else None
  }

  function LoadNotification(doc: Document): Option<Notification> {
    var email, title, message, read := StrAt(doc, "user_email"), StrAt(doc, "title"), StrAt(doc, "message"),
      BoolAt(doc, "read");
    if email.Some? && title.Some? && message.Some? && read.Some?
    then Some(Notification(email.value, title.value, message.value, read.value))
    else None
  }

  // ---------- Each literal name parses back ----------

  lemma ParseDepartmentTypeName(t: DepartmentType)
    ensures ParseDepartmentType(DepartmentTypeName(t)) == Some(t)
  {
  }

  lemma ParseRoleName(r: Role)
    ensures ParseRole(RoleName(r)) == Some(r)
  {
  }

  lemma ParseCategoryName(c: Category)
    ensures ParseCategory(CategoryName(c)) == Some(c)
  {
  }

  lemma ParseStatusName(s: Status)
    ensures ParseStatus(StatusName(s)) == Some(s)
  {
  }

  lemma ParseStageName(s: Stage)
    ensures ParseStage(StageName(s)) == Some(s)
  {
  }

  lemma ParseActionName(a: ActionKind)
    ensures ParseAction(ActionName(a)) == Some(a)
  {
  }

  // ---------- A stored record reads back as the record ----------

  lemma StringsRoundTrip(doc: Document, key: string, xs: seq<string>)
    requires key in doc && doc[key] == List(Strings(xs))
    ensures StringsAt(doc, key) == Some(xs)
  {
    var items := doc[key].items;
    assert seq(|items|, i requires 0 <= i < |items| => items[i].s) == xs;
  }

  lemma LoadDumpDepartment(d: Department)
    ensures LoadDepartment(DumpDepartment(d)) == Some(d)
  {
    ParseDepartmentTypeName(d.kind);
  }

  lemma LoadDumpUser(u: User)
    ensures LoadUser(DumpUser(u)) == Some(u)
  {
    ParseRoleName(u.role);
  }

  lemma LoadDumpApplication(a: Application)
    ensures LoadApplication(DumpApplication(a)) == Some(a)
  {
    var doc := DumpApplication(a);
    ParseCategoryName(a.category);
    ParseStatusName(a.status);
    ParseStageName(a.currentStage);
    StringsRoundTrip(doc, "attachments", a.attachments);
    StringsRoundTrip(doc, "route_history", a.routeHistory);
  }

  lemma LoadDumpStatusUpdate(u: StatusUpdate)
    ensures LoadStatusUpdate(DumpStatusUpdate(u)) == Some(u)
  {
    ParseRoleName(u.actorRole);
    ParseActionName(u.action);
  }

  lemma LoadDumpNotification(n: Notification)
    ensures LoadNotification(DumpNotification(n)) == Some(n)
  {
  }
}
