/** The request shaping of salesforce_functions.py: the SOQL lookup of a
    Contact or Lead by e-mail or phone, the defaults filled in before a Lead
    is created, and the Task record written to log an activity. The
    Salesforce client is abstracted: `sf.query` is a function from a SOQL
    string to the returned records, `sf.Lead.create` and `sf.Task.create`
    are functions from the field map to the vendor's answer, and the clock
    is an input. */
module Salesforce {
  import opened Wrappers
  import opened Text

  // ---------------------------------------------------------------------
  // find_contact_or_lead

  /** A value in a returned record: the key missing, JSON null, or a string. */
  datatype Field = Absent | Null | Str(s: string)

  /** The part of a Contact or Lead query record the lookup reads. */
  datatype SfRecord = SfRecord(id: string, firstName: Field)

  datatype PersonKind = Contact | Lead

  /** `{'type': kind, 'id': id, 'first_name': firstName}`; a `firstName`
      of `None` is Python's `None`. */
  datatype Person = Person(kind: PersonKind, id: string, firstName: Option<string>)

  /** What the lookup asks of the vendor, in order. */
  datatype VendorCall = Connect | Query(soql: string)

  /** `value and value.strip()` is truthy. */
  predicate Present(value: Option<string>) {
    value.Some? && Strip(value.value) != ""
  }

  function EmailCondition(email: string): string {
    "Email = '" + Strip(email) + "'"
  }

  function PhoneCondition(phone: string): string {
    "Phone = '" + Strip(phone) + "'"
  }

  /** The WHERE clause, by cases on which search keys are present. */
  function WhereClause(email: Option<string>, phone: Option<string>): (w: string)
    ensures w == "" <==> !Present(email) && !Present(phone)
  {
    if Present(email) && Present(phone) then
      EmailCondition(email.value) + " OR " + PhoneCondition(phone.value)
    else if Present(email) then EmailCondition(email.value)
    else if Present(phone) then PhoneCondition(phone.value)
    else ""
  }

  function ContactQuery(where: string): string {
    "SELECT Id, Email, FirstName FROM Contact WHERE " + where + " LIMIT 1"
  }

  function LeadQuery(where: string): string {
    "SELECT Id, Email, FirstName FROM Lead WHERE " + where + " LIMIT 1"
  }

  /** `record.get('FirstName', '')`. */
  function FirstNameOf(f: Field): Option<string> {
    match f
    case Absent => Some("")
    case Null => None
    case Str(s) => Some(s)
  }

  function PersonOf(kind: PersonKind, r: SfRecord): Person {
    Person(kind, r.id, FirstNameOf(r.firstName))
  }

  /** The list of SOQL conditions, one per present search key, e-mail
      first, each on the stripped value interpolated verbatim. */
  method BuildConditions(email: Option<string>, phone: Option<string>) returns (conditions: seq<string>)
    ensures |conditions| == (if Present(email) then 1 else 0) + (if Present(phone) then 1 else 0)
    ensures Present(email) ==> conditions[0] == EmailCondition(email.value)
    ensures Present(phone) ==> conditions[|conditions| - 1] == PhoneCondition(phone.value)
    ensures Join(conditions, " OR ") == WhereClause(email, phone)
  {
    conditions := [];
    if email.Some? && Strip(email.value) != "" {
      conditions := conditions + [EmailCondition(email.value)];
    }
    if phone.Some? && Strip(phone.value) != "" {
      conditions := conditions + [PhoneCondition(phone.value)];
    }
  }

  /** Looks the search keys up among Contacts and then, only if no Contact
      matched, among Leads. `query` stands for `sf.query(...)['records']`.
      `calls` lists the vendor interactions in the order they happen. */
  method FindContactOrLead(email: Option<string>, phone: Option<string>, query: string -> seq<SfRecord>)
    returns (result: Option<Person>, calls: seq<VendorCall>)
    ensures !Present(email) && !Present(phone) ==> result == None && calls == []
    ensures Present(email) || Present(phone) ==>
      var contacts := query(ContactQuery(WhereClause(email, phone)));
      var leads := query(LeadQuery(WhereClause(email, phone)));
      && calls == [Connect, Query(ContactQuery(WhereClause(email, phone)))]
                  + (if contacts == [] then [Query(LeadQuery(WhereClause(email, phone)))] else [])
      && (contacts != [] ==> result == Some(PersonOf(Contact, contacts[0])))
      && (contacts == [] && leads != [] ==> result == Some(PersonOf(Lead, leads[0])))
      && (contacts == [] && leads == [] ==> result == None)
  {
    var conditions := BuildConditions(email, phone);
    if conditions == [] {
      return None, [];
    }
    var whereClause := Join(conditions, " OR ");
    calls := [Connect];
    var contactQuery := ContactQuery(whereClause);
    var contacts := query(contactQuery);
    calls := calls + [Query(contactQuery)];
    if |contacts| > 0 {
      return Some(PersonOf(Contact, contacts[0])), calls;
    }
    var leadQuery := LeadQuery(whereClause);
    var leads := query(leadQuery);
    calls := calls + [Query(leadQuery)];
    if |leads| > 0 {
      return Some(PersonOf(Lead, leads[0])), calls;
    }
    return None, calls;
  }

  /** Surrounding whitespace of a search key never reaches the query. */
  lemma ConditionIgnoresPadding(lead: string, u: string, trail: string)
    requires AllSpace(lead) && AllSpace(trail) && NoEdgeSpace(u)
    ensures EmailCondition(lead + u + trail) == "Email = '" + u + "'"
    ensures PhoneCondition(lead + u + trail) == "Phone = '" + u + "'"
    ensures Present(Some(lead + u + trail)) <==> u != ""
  {
    StripOfPadded(lead, u, trail);
  }

  // ---------------------------------------------------------------------
  // create_lead

  /** The caller's `fields` dictionary, which `create_lead` updates in place. */
  class LeadFields {
    var entries: map<string, string>

    constructor (entries: map<string, string>)
      ensures this.entries == entries
    {
      this.entries := entries;
    }
  }

  const Unknown := "Unknown"

  /** The field map with `LastName` and `Company` set to "Unknown" where
      they are missing. */
  function WithLeadDefaults(m: map<string, string>): (r: map<string, string>)
    ensures r.Keys == m.Keys + {"LastName", "Company"}
    ensures forall k :: k in m ==> r[k] == m[k]
    ensures forall k :: k in r && k !in m ==> r[k] == Unknown
  {
    map k | k in m.Keys + {"LastName", "Company"} :: if k in m then m[k] else Unknown
  }

  /** Fills in the two defaults on the caller's own dictionary, then hands
      that same dictionary to `sf.Lead.create` and returns its answer. */
  method CreateLead<R>(fields: LeadFields, leadCreate: map<string, string> -> R) returns (response: R)
    modifies fields
    ensures fields.entries == WithLeadDefaults(old(fields.entries))
    ensures response == leadCreate(fields.entries)
  {
    if "LastName" !in fields.entries {
      fields.entries := fields.entries["LastName" := Unknown];
    }
    if "Company" !in fields.entries {
      fields.entries := fields.entries["Company" := Unknown];
    }
    response := leadCreate(fields.entries);
  }

  /** A value already present survives, even the empty string, and filling
      the defaults a second time changes nothing. */
  lemma LeadDefaultsKeepValues(m: map<string, string>)
    ensures "LastName" in m ==> WithLeadDefaults(m)["LastName"] == m["LastName"]
    ensures "Company" in m ==> WithLeadDefaults(m)["Company"] == m["Company"]
    ensures WithLeadDefaults(WithLeadDefaults(m)) == WithLeadDefaults(m)
  {
  }

  /** `create_lead({})` sends `{LastName: "Unknown", Company: "Unknown"}`. */
  lemma LeadDefaultsOfEmpty()
    ensures WithLeadDefaults(map[]) == map["LastName" := Unknown, "Company" := Unknown]
  {
  }

  // ---------------------------------------------------------------------
  // log_sfdc_task

  const TaskRecordTypeId := "012f100000116jjAAA"
  const TaskOwnerId := "005Qk000001pqtdIAA"
  const TaskStatus := "Completed"
  const TaskType := "Call"
  const DefaultDirection := "Inbound"

  /** `{'success': True, 'id': id}` or `{'success': False, 'error': error}`. */
  datatype TaskResult = Logged(id: string) | NotLogged(error: string)

  const TaskKeys: set<string> := {
    "RecordTypeId", "WhoId", "Subject", "ActivityDate", "Status",
    "OwnerId", "Description", "Type", "TaskSubType", "Task_Direction__c"
  }

  /** The Task record sent to `sf.Task.create`; `activityDate` is today's
      date as `YYYY-MM-DD`. */
  function TaskFields(personId: string, subject: string, body: string, direction: string, activityDate: string)
    : (f: map<string, string>)
    ensures f.Keys == TaskKeys
    ensures f["RecordTypeId"] == TaskRecordTypeId && f["OwnerId"] == TaskOwnerId
    ensures f["Status"] == TaskStatus && f["Type"] == TaskType && f["TaskSubType"] == TaskType
    ensures f["WhoId"] == personId && f["Subject"] == subject && f["Description"] == body
    ensures f["Task_Direction__c"] == direction && f["ActivityDate"] == activityDate
  {
    map[
      "RecordTypeId" := TaskRecordTypeId,
      "WhoId" := personId,
      "Subject" := subject,
      "ActivityDate" := activityDate,
      "Status" := TaskStatus,
      "OwnerId" := TaskOwnerId,
      "Description" := body,
      "Type" := TaskType,
      "TaskSubType" := TaskType,
      "Task_Direction__c" := direction
    ]
  }

  /** `response['id']`, where a response without the key raises `KeyError`,
      whose `str()` is `'id'` with the quotes. */
  function TaskOutcome(created: Call<map<string, string>>): TaskResult {
    match created
    case Raised(message) => NotLogged(message)
    case Returned(response) =>
      if "id" in response then Logged(response["id"]) else NotLogged("'id'")
  }

  /** Logs an activity. `connection` is the outcome of `sfdc_connection()`,
      which is not guarded; `taskCreate` is `sf.Task.create`, which is.
      `direction` comes last so that, as in the source, it can be left out
      and then defaults to "Inbound". */
  function LogSfdcTask(personId: string, subject: string, body: string, today: string,
                       connection: Call<()>, taskCreate: map<string, string> -> Call<map<string, string>>,
                       direction: string := DefaultDirection)
    : (r: Call<TaskResult>)
    ensures connection.Raised? ==> r == Raised(connection.message)
    ensures connection.Returned? ==> r.Returned?
    ensures connection.Returned? ==>
      var created := taskCreate(TaskFields(personId, subject, body, direction, today));
      && (r.value.Logged? <==> created.Returned? && "id" in created.value)
      && (r.value.Logged? ==> r.value.id == created.value["id"])
      && (created.Raised? ==> r.value == NotLogged(created.message))
      && (created.Returned? && "id" !in created.value ==> r.value == NotLogged("'id'"))
  {
    match connection
    case Raised(message) => Raised(message)
    case Returned(_) =>
      Returned(TaskOutcome(taskCreate(TaskFields(personId, subject, body, direction, today))))
  }
}
