# College application workflow: a Dafny model

This project models the backend of a college's digital application system. Students
submit applications. Reviewers (coordinator, head of department, registrar, admin) act on
them: they forward them to another stage, approve, reject or review. Every step is written
to an audit trail of status updates, and a timeline shows that trail for one application.
Departments, users and notifications are stored and listed beside the applications.

The model has these parts:

- `common.dfy`: `Option`, `Result`, the handlers' error cases, and Python truthiness of an
  optional string.
- `objectids.dfy`: document identifiers. An identifier is a counter value, and its string
  form is the canonical decimal rendering. Parsing accepts every numeral, leading zeros
  included. An identifier therefore has many spellings that parse to it but only one
  string form, as an ObjectId parses from upper-case hexadecimal but prints in lower case.
- `documents.dfy`: stored documents as maps from field name to value. It defines
  exact-match filtering, selection in collection order and a stable ascending sort on
  `created_at`.
- `schemas.dfy`: the record schemas of `schemas.py`. Each literal enumeration becomes a
  datatype with a name and parse pair. Each record has a constructor function that
  validates its literal fields and fills the defaults. Each record has a serialisation
  into a stored document and a reading of a stored document back into the record.
- `database.dfy`: the document store as a class `Store`. It holds:
  - the applications as a map from id to document;
  - the other four collections as sequences in insertion order;
  - a counter that issues fresh ids and increasing `created_at` stamps;
  - a `connected` flag; false stands for a database handle that is `None`.

  Its methods `CreateDocument`, `UpdateOne` (`$set` and `$push`) and `GetDocuments` carry
  the contracts the handlers rely on.
- `workflow.dfy`: the decisions `main.py` makes, written as functions:
  - the status and stage an action leads to, and the update it sends;
  - `to_public`;
  - the listing filters;
  - the timeline selection and sort.

  Lemmas about replaying a sequence of actions sit beside them.
- `api.dfy`: one method per request handler, each taking the store as a parameter. An
  audit-trail invariant says that every status update names a stored application.
- `scenario.dfy`: one client session. It submits an application, forwards it to "hod",
  approves it, and reads the timeline, which then holds the three records in order.

The action handler's literal checks are reproduced as the code has them. `ReviewAction`
takes `action` and `actor_role` as free strings, but the audit record restricts both to
their enumerations. An out-of-enum action therefore stores the status change first and
then fails before any audit record is written. `Api.ActOnApplication` states this case
(`updated.Ok? && su.Err?`).

## Model

| member | source | states |
|---|---|---|
| ObjectIds.Render | main.py:69 | the string form of an id is a canonical decimal numeral |
| ObjectIds.Parse | main.py:142 | a string is accepted as an id exactly when it is a non-empty string of digits; leading zeros are accepted |
| ObjectIds.ParseRender | main.py:142 | the id string a handler returned is accepted back and names the same document |
| ObjectIds.RenderParse | main.py:142 | an accepted id string is the string form of the id it denotes exactly when it is canonical |
| ObjectIds.SecondSpelling | main.py:142 | every id has a second spelling that is accepted and denotes it but is not its string form |
| ObjectIds.RenderInjective | main.py:69 | distinct documents get distinct `id` strings |
| ObjectIds.Decimal | main.py:69 | the rendering is canonical, and starts with 0 only for the number 0 |
| Documents.Get | main.py:147-148 | `doc.get(key, default)` yields the stored value when the key is present, the default otherwise |
| Documents.Find | main.py:125 | a document is selected exactly when it is in the collection and matches every filter key; nothing is added |
| Documents.FindAppend | main.py:179 | selection distributes over appending records: old selections are kept in order and new matches follow them |
| Documents.FindNone | main.py:179 | a filter no document matches selects nothing |
| Documents.FindEverything | main.py:82 | the empty filter lists the whole collection in order |
| Documents.SameElements | main.py:179 | a reordering keeps exactly the same documents |
| Documents.SortedSnoc | main.py:179 | appending a record stamped no earlier than the others keeps the order ascending |
| Documents.FindSorted | main.py:179 | selecting from a collection in `created_at` order keeps that order |
| Documents.InsertByCreatedAt | main.py:179 | insertion adds exactly the one document to the multiset |
| Documents.InsertSorted | main.py:179 | insertion into an ascending sequence keeps it ascending |
| Documents.SortByCreatedAt | main.py:179 | `.sort("created_at", 1)` is a permutation of its input |
| Documents.SortIsSorted | main.py:179 | the sort's result is ascending by `created_at` |
| Documents.SortSortedIsIdentity | main.py:179 | sorting a sequence already in `created_at` order leaves it unchanged |
| Schemas.ParseDepartmentType | schemas.py:23 | exactly "academic" and "administrative" are department types, and parsing inverts the name |
| Schemas.ParseRole | schemas.py:56 | exactly the six role literals are roles, and parsing inverts the name |
| Schemas.ParseCategory | schemas.py:39-45 | exactly the five category literals are categories |
| Schemas.ParseStatus | schemas.py:50 | exactly the five status literals are statuses |
| Schemas.ParseStage | schemas.py:51 | exactly the four stage literals are stages |
| Schemas.ParseAction | schemas.py:58 | exactly the six action literals are actions |
| Schemas.MakeDepartment | schemas.py:20-24 | validation succeeds exactly when `type` is a literal; the result carries the given fields; the error names `type` |
| Schemas.MakeUser | schemas.py:26-31 | validation succeeds exactly when `role` is a literal; the fields are kept; the error names `role` |
| Schemas.MakeApplication | schemas.py:34-52 | validation succeeds exactly when category, status and current_stage are literals; every field is kept; the error names exactly the offending fields |
| Schemas.MakeStatusUpdate | schemas.py:54-61 | validation succeeds exactly when actor_role and action are literals; every field is kept; the error names exactly the offending fields |
| Schemas.DepartmentDefaults | schemas.py:23-24 | the type defaults to academic and is_active to true |
| Schemas.UserDefaults | schemas.py:30-31 | department_code defaults to None and is_active to true |
| Schemas.ApplicationDefaults | schemas.py:39-52 | the defaults are category general, no attachments, status submitted, stage coordinator and an empty route history |
| Schemas.StatusUpdateDefaults | schemas.py:59-61 | comments, to_department and created_at default to None |
| Schemas.NotificationDefault | schemas.py:67 | a new notification is unread |
| Schemas.AppFilterDefaults | schemas.py:70-74 | every filter parameter defaults to None |
| Schemas.Strings | schemas.py:48 | a list of strings is stored element by element |
| Schemas.DumpDepartment | schemas.py:20-24 | the stored form holds exactly the department's four fields |
| Schemas.DumpUser | schemas.py:26-31 | the stored form holds exactly the user's five fields |
| Schemas.DumpApplication | schemas.py:34-52 | the stored form holds exactly the application's eleven fields |
| Schemas.DumpStatusUpdate | schemas.py:54-61 | the stored form holds exactly the status update's seven fields |
| Schemas.DumpNotification | schemas.py:63-67 | the stored form holds exactly the notification's four fields |
| Schemas.ParseDepartmentTypeName | schemas.py:23 | each department type's literal parses back to it |
| Schemas.ParseRoleName | schemas.py:29 | each role's literal parses back to it |
| Schemas.ParseCategoryName | schemas.py:39-45 | each category's literal parses back to it |
| Schemas.ParseStatusName | schemas.py:50 | each status's literal parses back to it |
| Schemas.ParseStageName | schemas.py:51 | each stage's literal parses back to it |
| Schemas.ParseActionName | schemas.py:58 | each action's literal parses back to it |
| Schemas.StringsRoundTrip | schemas.py:48 | a stored list of strings reads back as the list |
| Schemas.LoadDumpDepartment | schemas.py:20-24 | a stored department reads back as the department: every field keeps its value |
| Schemas.LoadDumpUser | schemas.py:26-31 | a stored user reads back as the user: every field keeps its value |
| Schemas.LoadDumpApplication | schemas.py:34-52 | a stored application reads back as the application: every field keeps its value, the lists element by element |
| Schemas.LoadDumpStatusUpdate | schemas.py:54-61 | a stored status update reads back as the status update: every field keeps its value |
| Schemas.LoadDumpNotification | schemas.py:63-67 | a stored notification reads back as the notification: every field keeps its value |
| Database.Stamp | main.py:101 | a created document holds its serialised fields, a `created_at` stamp and its `_id` |
| Database.ApplyUpdate | main.py:153 | `$set` overwrites its fields; `$push` appends one value to an array (an absent field counts as empty); other fields are kept; it fails on `_id`, on a field both set and pushed, and on a push onto a non-array |
| Database.InIdOrder | main.py:125 | the applications listing holds exactly the stored applications |
| Database.Store.constructor | main.py:8 | an empty, consistent store |
| Database.Store.CreateDocument | main.py:101 | inserts into the one named collection under a fresh id, which it returns as a string; nothing else changes; fails with Unavailable when disconnected |
| Database.Store.UpdateOne | main.py:153-162 | applies the update to the matched application only; no match changes nothing |
| Database.Store.GetDocuments | main.py:125 | returns the exact-match selection of the named collection |
| Workflow.Decide | main.py:147-162 | the reported status is the action's status; the update always sets that status and never `_id`; it pushes, and then pushes the reported stage onto route_history, exactly on a forward |
| Workflow.StatusFor | main.py:150-162 | forward gives forwarded, approve gives approved, reject gives rejected, and every other string gives under_review; the result is always a Status literal |
| Workflow.ForwardEffect | main.py:150-153 | a forward sets status forwarded; it moves the stage to a non-empty to_department, otherwise keeps the stored stage (coordinator when absent); it appends that stage to the route history and keeps every other field; it fails only on a non-array route history |
| Workflow.OtherActionEffect | main.py:147-162 | any other action sets only the status; the reported stage is the stored one, or coordinator when absent |
| Workflow.ForwardStageIsUnvalidated | main.py:152-153 | a forward can store a stage outside the four Stage literals |
| Workflow.RouteHistoryOnlyGrows | main.py:150-162 | over any sequence of actions the route history keeps its old entries as a prefix and gains exactly one entry per forward |
| Workflow.StatusFollowsLastAction | main.py:150-162 | after any non-empty sequence of actions the stored status is the last action's status, a Status literal |
| Workflow.IdText | main.py:69 | `str()` of an ObjectId is a string that parses back to that id; a string `_id` is kept; any other kind fails |
| Workflow.ToPublic | main.py:66-70 | an empty document is returned as given; otherwise `_id` is removed, `id` holds its string form and every other field is kept; a missing `_id` fails |
| Workflow.PublicOfStamped | main.py:69 | a stored record's public `id` is the string its creation returned |
| Workflow.PublicKeepsMatches | main.py:126 | the public form still matches a filter that does not mention `_id` or `id` |
| Workflow.AppQuery | main.py:116-124 | the listing filter; its keys and values are stated by AppQueryFields and AppQueryEmpty |
| Workflow.AppQueryFields | main.py:116-124 | the listing filter holds a key exactly when its parameter is non-empty, with the parameter's value, and no other key |
| Workflow.AppQueryEmpty | main.py:116 | with no parameters the listing filters on nothing |
| Workflow.NotificationQuery | main.py:192 | the filter holds user_email exactly when the parameter is non-empty |
| Workflow.TimelineQuery | main.py:179 | the timeline filter; TimelineQueryMatches states which records it selects |
| Workflow.TimelineQueryMatches | main.py:179 | a record matches the timeline filter exactly when it names the id |
| Workflow.Timeline | main.py:179 | the timeline holds exactly the records naming the id, in ascending `created_at` order |
| Workflow.TimelineInWriteOrder | main.py:179 | in a store kept in stamp order the timeline is the records of the id in write order |
| Workflow.TimelineAppend | main.py:170 | writing one record extends the timeline of the id it names by that record and leaves every other timeline unchanged |
| Api.PublishedMembers | main.py:126 | every selected document appears in the listing in its public form |
| Api.AssignedArePublishable | main.py:83 | documents the store wrote all have a public form |
| Api.PublishAll | main.py:126 | the listing succeeds exactly when every document has a public form, element by element; otherwise it reports the first failure |
| Api.CreateDepartment | main.py:74-77 | appends the stored department and returns its id, which is fresh: the counter moves past it; other collections are unchanged |
| Api.ListDepartments | main.py:80-83 | lists every stored department in its public form |
| Api.CreateUser | main.py:86-89 | appends the stored user and returns its id, which is fresh: the counter moves past it; other collections are unchanged |
| Api.ListUsers | main.py:92-95 | lists every stored user in its public form |
| Api.DepartmentRoundTrip | main.py:74-83 | a created department is listed last, with its fields, its stamp and the returned id |
| Api.SubmitRecord | main.py:103-109 | the submission's audit record; SubmitRecordValid states that it is what validation builds |
| Api.StoredStatusUpdate | main.py:165-170 | a stored audit record reads back as the record written, stamped with its creation time |
| Api.SubmitApplication | main.py:99-111 | stores the application under a fresh id; appends exactly one record (that id, student, the student's name, submit, "Application submitted"), which is then the whole timeline of the id; replies "submitted" |
| Api.SubmitRecordValid | main.py:103-109 | the submission's audit record passes validation |
| Api.SubmissionLogged | main.py:101-110 | the submission record keeps the audit trail consistent and is the only record of the new id |
| Api.BuildAppFilter | main.py:116-124 | the filter built key by key is the listing filter |
| Api.ListApplications | main.py:114-126 | lists, in id order, exactly the public forms of the stored applications matching every non-empty parameter |
| Api.AppsPublishable | main.py:126 | every selected application has a public form |
| Api.AppListing | main.py:125-126 | every listed application matches the filter, and every matching stored application is listed |
| Api.ActOnApplication | main.py:137-172 | fails with Unavailable, InvalidId or NotFound and changes nothing; otherwise updates the stored application by the decision and then appends exactly one record carrying the request's fields; an out-of-enum action or role keeps the update and appends nothing; replies with the new status and stage |
| Api.ActOnStored | main.py:146-172 | the update and then the audit record, for an application that exists |
| Api.ActionLogged | main.py:165-170 | the record of an action on a stored application keeps the audit trail consistent |
| Api.GetTimeline | main.py:175-180 | returns the public forms of the timeline records; an unknown id is not an error |
| Api.NoRecordsForUnknownId | main.py:179 | an id without a stored application has no records |
| Api.AliasedRecordSplitsTimeline | main.py:165-179 | an action under another spelling of a stored id records that spelling, so the timeline of the returned id does not show the record and the timeline of the spelling does |
| Api.ConsistentAfterLogging | main.py:170 | adding a record that names a stored application keeps the audit trail consistent |
| Api.Notify | main.py:184-187 | appends the stored notification and returns its id, which is fresh: the counter moves past it; other collections are unchanged |
| Api.ListNotifications | main.py:190-194 | lists exactly the public forms of the notifications for the given user, or all when none is given |
| Scenario.Actions | main.py:180 | one entry per listed record, its action |
| Scenario.PublishedActions | main.py:180 | the public forms keep every record's action |
| Scenario.ActionsOfThree | main.py:180 | the actions of three published records, in order |
| Scenario.StampedRecordFields | main.py:165-170 | a stored audit record keeps the application id and action of the request |
| Scenario.SessionRecordsValid | main.py:165-169 | the forward and the approval of the session pass validation |
| Scenario.StoredRouteHistory | main.py:101 | a stored application holds its route history as an array |
| Scenario.FindOne | main.py:179 | a matching record selects itself |
| Scenario.FindTwoMore | main.py:179 | two more matching records extend a selection in write order |
| Scenario.TimelineOfThree | main.py:179 | two more records of an id, in stamp order, extend its timeline in write order |
| Scenario.SubmissionRecord | main.py:103-110 | the submission record names the new id and the submit action, and is selected alone |
| Scenario.SubmitStep | main.py:99-111 | a submission replies with the new id and "submitted" and logs one submit record |
| Scenario.ForwardToHod | main.py:150-153 | a forward to hod replies forwarded and hod, moves the stored stage to hod and logs one forward record |
| Scenario.ApproveAtHod | main.py:154-156 | an approval at hod replies approved and hod and logs one approve record |
| Scenario.SubmitForwardApprove | main.py:99-180 | submit, forward and approve report the status and stage that `Workflow.StatusFor` and `Workflow.Decide` give, and the timeline then lists submit, forward and approve in that order |

## Left out

- The FastAPI application, CORS middleware, routing and the uvicorn start-up
  (main.py:11-19, 197-200) are HTTP plumbing and are not modelled. The `/` and `/test`
  diagnostic endpoints (main.py:22-58) are not modelled either: they depend on the live
  handle and on environment variables.
- `database.py` is not part of this model. `create_document`, `get_documents` and the
  driver calls are modelled by the `Store` methods' contracts:
  - insertion under a fresh id, returned as a string;
  - an increasing `created_at` stamp;
  - exact-match conjunction in insertion order.
- An absent database handle is one `Unavailable` error: the `connected` flag.
- A store failure between the two writes of one handler is not modelled (main.py:101/110,
  153/170). `connected` is fixed for the store's lifetime, so the store answers either
  every call or none. The model therefore never shows an application without its submit
  record, or a stored action without its record because the store failed. The one failure
  after a write that is modelled is the audit record's validation error in
  `Api.ActOnApplication`.
- Concurrent requests on the same application are not modelled. The handlers take no
  locks, and the model runs requests one after another.
- Identifiers are a counter with a decimal string form, not the 12-byte hexadecimal
  ObjectId layout. The properties the handlers depend on are kept: freshness, distinct
  string forms for distinct ids, and the parse of a string form giving back its id. The
  many spellings of one id are kept as leading zeros, in place of upper-case hexadecimal.
  A malformed `app_id` is an `InvalidId` error where the driver raises an exception.
- Workflow.ToPublic: `to_public` rewrites the document in place. The model returns the
  new document as a value, so aliasing of the driver's dicts is not captured. `str()` of
  an `_id` that is neither an ObjectId nor a string is an `UnsupportedId` error; the store
  never holds such an `_id`.
- Schemas.MakeUser: does not check the email format (`EmailStr`); emails are opaque strings.
- Schemas.MakeApplication: does not check the email format either. Only the literal fields
  of the schemas are validated.
- Serialisation writes every field of a record, with unset optional fields as `Null`, as
  pydantic's default dump does. A helper that dropped unset optional fields would store no
  key for them; the model does not cover that form.
- Queries match a field only by equality with a scalar value. MongoDB's matching of an
  array field by its elements, and its ordering across different BSON types, are left
  out. Neither arises for the string filters and the `created_at` stamps used here.
- The `doc.get("status", "submitted")` read (main.py:147) has no effect on any result,
  since every branch overwrites the status. It is not modelled as a separate step.
- The `if not doc` test (main.py:143) is modelled as "no application under that id". A
  stored document is never empty.
