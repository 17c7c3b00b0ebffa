/**
 * The server side (functions/src/index.ts): the callable `createTask` endpoint,
 * which authenticates, authorises, validates and normalises a task payload before
 * adding it to the `tasks` collection, and the `setUserRole` trigger, which
 * provisions a new identity with a role claim and a profile document.
 */
module Functions {
  import opened Wrappers
  import opened Json
  import opened Lists
  import opened Text
  import opened Skills

  /** The error kinds the endpoint raises. */
  datatype ErrorCode = Unauthenticated | PermissionDenied | InvalidArgument | Internal

  /** An error returned to the caller: its kind and the human-readable message. */
  datatype HttpsError = HttpsError(code: ErrorCode, message: string)

  /** `context.auth`: the verified caller and the custom claims in its token. */
  datatype CallerAuth = CallerAuth(uid: string, token: Object)

  /** The success response `{status: "success", taskId}`. */
  datatype CreateResponse = CreateResponse(status: string, taskId: string)

  /** What the store does with an `add`: it generates an id, or the write fails with a cause. */
  datatype WriteOutcome = Written(id: string) | WriteFailed(cause: string)

  const UnauthenticatedMessage: string := "The function must be called while authenticated."
  const PermissionDeniedMessage: string := "You do not have permission to create a task."
  const MissingFieldsPrefix: string := "Missing required fields: "
  const ServicesMessage: string := "The 'services' field must be a non-empty array."
  const InternalMessage: string := "An unexpected error occurred while writing to the database."

  /** The roles allowed to create a task. */
  const CreatorRoles: seq<string> := ["Admin", "Manager"]

  /** The fields a payload must carry, in the order they are reported. */
  const RequiredFields: seq<string> :=
    ["clientName", "services", "jobTitle", "education", "experienceYears", "skills", "paymentMethod", "paymentStatus"]

  /** The role claim every new identity receives. */
  const DefaultRole: string := "designer"

  /** The keys the endpoint writes itself, over whatever the payload held for them. */
  const WrittenKeys: set<string> :=
    {"clientName", "birthdate", "contactInfo", "jobTitle", "education", "experienceYears", "skills",
     "services", "paymentMethod", "paymentStatus", "status", "createdAt", "updatedAt", "creatorUid", "attachments"}

  /** `['Admin', 'Manager'].includes(role)`: the claim is exactly one of the two strings. */
  predicate MayCreate(role: Option<Value>)
  {
    role.Some? && role.value.Str? && role.value.s in CreatorRoles
  }

  /** A field is missing when it is `undefined` or `null`; any other value, `""` included, is present. */
  predicate IsMissing(data: Object, field: string)
  {
    field !in data || data[field] == Null
  }

  function MissingIn(data: Object): string -> bool
  {
    field => IsMissing(data, field)
  }

  /** `requiredFields.filter(...)`: the required fields the payload lacks, in list order. */
  function MissingFields(data: Object): seq<string>
  {
    Filter(RequiredFields, MissingIn(data))
  }

  /** Every required field is present. */
  predicate HasRequired(data: Object)
  {
    forall f :: f in RequiredFields ==> f in data && data[f] != Null
  }

  /** The missing-field list names exactly the required fields that are missing, in list order. */
  lemma MissingFieldsExact(data: Object)
    ensures forall f :: f in MissingFields(data) <==> f in RequiredFields && IsMissing(data, f)
    ensures IsSubsequence(MissingFields(data), RequiredFields)
    ensures MissingFields(data) == [] <==> HasRequired(data)
  {
    FilterMembers(RequiredFields, MissingIn(data));
    FilterIsSubsequence(RequiredFields, MissingIn(data));
    if MissingFields(data) == [] {
      forall f | f in RequiredFields
        ensures f in data && data[f] != Null
      {
        var i :| 0 <= i < |RequiredFields| && RequiredFields[i] == f;
        assert f !in MissingFields(data);
      }
    } else {
      assert MissingFields(data)[0] in MissingFields(data);
    }
  }

  /** `Array.isArray(data.services) && data.services.length !== 0`. */
  predicate ServicesValid(data: Object)
  {
    "services" in data && data["services"].Arr? && |data["services"].items| > 0
  }

  /** An array is kept as it is, a string is split into skills, anything else becomes `[]`. */
  function NormalizeSkills(v: Value): Value
  {
    match v
    case Arr(items) => Arr(items)
    case Str(s) => Arr(Strings(SplitSkills(s)))
    case _ => Arr([])
  }

  /** `Number(x) || 0`: NaN and zero become 0, every other number passes through. */
  function ExperienceYears(v: Value, parseNumber: string -> Option<real>): real
  {
    match ValueToNumber(v, parseNumber)
    case None => 0.0
    case Some(n) => if n == 0.0 then 0.0 else n
  }

  /** `data.birthdate ? new Date(data.birthdate) : null`. */
  function Birthdate(v: Option<Value>): Value
  {
    if Truthy(v) then DateOf(v.value) else Null
  }

  /** `data.contactInfo || {}`. */
  function ContactInfo(v: Option<Value>): Value
  {
    if Truthy(v) then v.value else Obj(map[])
  }

  /**
   * The document written for a task: the payload's own keys that the endpoint does
   * not set (`rest`), and one field per key it sets.
   */
  datatype TaskDocument = TaskDocument(
    rest: Object,
    clientName: Value,
    birthdate: Value,
    contactInfo: Value,
    jobTitle: Value,
    education: Value,
    experienceYears: Value,
    skills: Value,
    services: Value,
    paymentMethod: Value,
    paymentStatus: Value,
    status: Value,
    createdAt: Value,
    updatedAt: Value,
    creatorUid: Value,
    attachments: Value)

  /** `{...data, clientName: ..., ..., attachments: []}`: the payload spread, then the endpoint's own keys. */
  function TaskData(data: Object, uid: string, parseNumber: string -> Option<real>): TaskDocument
    requires HasRequired(data)
  {
    TaskDocument(
      data - WrittenKeys,
      data["clientName"],
      Birthdate(Get(data, "birthdate")),
      ContactInfo(Get(data, "contactInfo")),
      data["jobTitle"],
      data["education"],
      Num(ExperienceYears(data["experienceYears"], parseNumber)),
      NormalizeSkills(data["skills"]),
      data["services"],
      data["paymentMethod"],
      data["paymentStatus"],
      Str("not_started"),
      ServerTimestamp,
      ServerTimestamp,
      Str(uid),
      Arr([]))
  }

  /**
   * Steps 1 to 4 of `createTask`: the document to write, or the error raised
   * before anything is written.
   */
  function Prepare(auth: Option<CallerAuth>, data: Object, parseNumber: string -> Option<real>): Result<TaskDocument, HttpsError>
  {
    if auth.None? then
      Failure(HttpsError(Unauthenticated, UnauthenticatedMessage))
    else if !MayCreate(Get(auth.value.token, "role")) then
      Failure(HttpsError(PermissionDenied, PermissionDeniedMessage))
    else if MissingFields(data) != [] then
      Failure(HttpsError(InvalidArgument, MissingFieldsPrefix + Join(MissingFields(data), ", ")))
    else if !ServicesValid(data) then
      Failure(HttpsError(InvalidArgument, ServicesMessage))
    else
      MissingFieldsExact(data);
      Success(TaskData(data, auth.value.uid, parseNumber))
  }

  /** With no caller identity the answer is `unauthenticated`, whatever the payload. */
  lemma UnauthenticatedFirst(data: Object, parseNumber: string -> Option<real>)
    ensures Prepare(None, data, parseNumber) == Failure(HttpsError(Unauthenticated, UnauthenticatedMessage))
  {
  }

  /**
   * An identified caller is refused with `permission-denied`, whatever the payload,
   * exactly when its role claim is not the string "Admin" or "Manager".
   */
  lemma PermissionDeniedExactly(auth: CallerAuth, data: Object, parseNumber: string -> Option<real>)
    ensures Prepare(Some(auth), data, parseNumber).Failure?
      && Prepare(Some(auth), data, parseNumber).error.code == PermissionDenied
      <==> Get(auth.token, "role") !in {Some(Str("Admin")), Some(Str("Manager"))}
  {
  }

  /** The default claim "designer", like every spelling other than the two exact strings, is refused. */
  lemma DefaultRoleMayNotCreate()
    ensures !MayCreate(Some(Str(DefaultRole)))
    ensures !MayCreate(Some(Str("Designer"))) && !MayCreate(Some(Str("admin")))
  {
  }

  /**
   * A permitted caller with fields missing gets `invalid-argument` naming every
   * missing field, in list order, separated by ", ".
   */
  lemma MissingFieldsReported(auth: CallerAuth, data: Object, parseNumber: string -> Option<real>)
    requires MayCreate(Get(auth.token, "role"))
    requires !HasRequired(data)
    ensures Prepare(Some(auth), data, parseNumber)
      == Failure(HttpsError(InvalidArgument, MissingFieldsPrefix + Join(MissingFields(data), ", ")))
    ensures forall f :: f in MissingFields(data) <==> f in RequiredFields && (f !in data || data[f] == Null)
  {
    MissingFieldsExact(data);
  }

  /** An empty string is a present value: it never appears in the missing-field list. */
  lemma EmptyStringIsPresent(data: Object, field: string)
    requires field in data && data[field] == Str("")
    ensures field !in MissingFields(data)
  {
    MissingFieldsExact(data);
  }

  /**
   * With every field present, a `services` value that is not a non-empty array is
   * refused with `invalid-argument`; otherwise the document is prepared.
   */
  lemma ServicesChecked(auth: CallerAuth, data: Object, parseNumber: string -> Option<real>)
    requires MayCreate(Get(auth.token, "role"))
    requires HasRequired(data)
    ensures !ServicesValid(data) ==>
      Prepare(Some(auth), data, parseNumber) == Failure(HttpsError(InvalidArgument, ServicesMessage))
    ensures ServicesValid(data) ==> Prepare(Some(auth), data, parseNumber).Success?
  {
    MissingFieldsExact(data);
  }

  /** A document is prepared exactly when every check passes. */
  lemma PrepareSucceedsIff(auth: Option<CallerAuth>, data: Object, parseNumber: string -> Option<real>)
    ensures Prepare(auth, data, parseNumber).Success? <==>
      auth.Some? && MayCreate(Get(auth.value.token, "role")) && HasRequired(data) && ServicesValid(data)
  {
    MissingFieldsExact(data);
  }

  /** A prepared document is the payload normalised for the caller. */
  lemma PreparedIsTaskData(auth: CallerAuth, data: Object, parseNumber: string -> Option<real>)
    requires Prepare(Some(auth), data, parseNumber).Success?
    ensures HasRequired(data) && ServicesValid(data)
    ensures Prepare(Some(auth), data, parseNumber).value == TaskData(data, auth.uid, parseNumber)
  {
    MissingFieldsExact(data);
  }

  /**
   * The written document always has `status == "not_started"`, `attachments == []`,
   * server timestamps and `creatorUid` the caller's uid, whatever the payload held
   * for those keys; the required fields other than the normalised ones are copied;
   * every other key of the payload passes through unchanged, and nothing else is added.
   */
  lemma ServerOwnedFields(data: Object, uid: string, parseNumber: string -> Option<real>)
    requires HasRequired(data)
    ensures var doc := TaskData(data, uid, parseNumber);
      && doc.status == Str("not_started")
      && doc.attachments == Arr([])
      && doc.creatorUid == Str(uid)
      && doc.createdAt == ServerTimestamp && doc.updatedAt == ServerTimestamp
      && doc.clientName == data["clientName"] && doc.services == data["services"]
      && doc.jobTitle == data["jobTitle"] && doc.education == data["education"]
      && doc.paymentMethod == data["paymentMethod"] && doc.paymentStatus == data["paymentStatus"]
      && doc.contactInfo == (if Truthy(Get(data, "contactInfo")) then data["contactInfo"] else Obj(map[]))
      && ("contactInfo" in data && data["contactInfo"].Obj? ==> doc.contactInfo == data["contactInfo"])
      && (forall k :: k in doc.rest <==> k in data && k !in WrittenKeys)
      && (forall k :: k in doc.rest ==> doc.rest[k] == data[k])
  {
  }

  /** An array of skills is kept, a string is split into trimmed non-empty skills, anything else is `[]`. */
  lemma SkillsNormalized(v: Value)
    ensures v.Arr? ==> NormalizeSkills(v) == v
    ensures v.Str? ==> (NormalizeSkills(v) == Arr(Strings(SplitSkills(v.s)))
      && forall k :: 0 <= k < |SplitSkills(v.s)| ==> IsSkill(SplitSkills(v.s)[k]))
    ensures !v.Arr? && !v.Str? ==> NormalizeSkills(v) == Arr([])
  {
    if v.Str? {
      SplitSkillsAreSkills(v.s);
    }
  }

  /**
   * A value with no numeric reading gives 0 years; a numeric one passes through
   * unchanged, a negative one included.
   */
  lemma ExperienceYearsCoerced(v: Value, parseNumber: string -> Option<real>)
    ensures ValueToNumber(v, parseNumber).None? ==> ExperienceYears(v, parseNumber) == 0.0
    ensures ValueToNumber(v, parseNumber).Some? ==> ExperienceYears(v, parseNumber) == ValueToNumber(v, parseNumber).value
    ensures v.Num? ==> ExperienceYears(v, parseNumber) == v.n
  {
  }

  /**
   * The stored birthdate is a date built from the payload's birthdate when that is
   * truthy, and `null` otherwise: a non-empty string (the client's ISO string) gives
   * a date, while a missing, null or empty birthdate gives `null`.
   */
  lemma BirthdateNormalized(data: Object, uid: string, parseNumber: string -> Option<real>)
    requires HasRequired(data)
    ensures var doc := TaskData(data, uid, parseNumber);
      doc.birthdate == (if Truthy(Get(data, "birthdate")) then DateOf(data["birthdate"]) else Null)
    ensures "birthdate" in data && data["birthdate"].Str? && data["birthdate"].s != "" ==>
      TaskData(data, uid, parseNumber).birthdate == DateOf(data["birthdate"])
    ensures "birthdate" !in data || data["birthdate"] in {Null, Str("")} ==>
      TaskData(data, uid, parseNumber).birthdate == Null
  {
  }

  /** A new identity's profile document. */
  datatype NewUser = NewUser(uid: string, email: Option<string>, displayName: Option<string>)

  function ProfileOf(user: NewUser): Object
    requires user.email.Some?
  {
    map[
      "name" := Str(if user.displayName.Some? && user.displayName.value != "" then user.displayName.value else "New User"),
      "email" := Str(user.email.value),
      "role" := Str(DefaultRole),
      "status" := Str("available"),
      "createdAt" := ServerTimestamp
    ]
  }

  /** `user.email && user.uid`: the trigger acts only on an identity with both. */
  predicate Provisionable(user: NewUser)
  {
    user.email.Some? && user.email.value != "" && user.uid != ""
  }

  /** The Firebase project: identity claims and the two collections the core touches. */
  class Backend {
    /** The custom claims of each identity, by uid. */
    var claims: map<string, Object>
    /** The `users` collection: profile documents by uid. */
    var users: map<string, Object>
    /** The `tasks` collection: task documents by generated id. */
    var tasks: map<string, TaskDocument>

    constructor()
      ensures claims == map[] && users == map[] && tasks == map[]
    {
      claims, users, tasks := map[], map[], map[];
    }

    /** The identity has a role claim and a profile, and both name the same role. */
    predicate RoleInSync(uid: string)
      reads this
    {
      uid in claims && uid in users && "role" in claims[uid] && "role" in users[uid]
      && claims[uid]["role"] == users[uid]["role"]
    }

    /** `db.collection("tasks").add(doc)`: stores the document under a fresh id, or fails. */
    method AddTask(doc: TaskDocument, outcome: WriteOutcome) returns (r: Result<string, string>)
      requires outcome.Written? ==> outcome.id !in tasks
      modifies this
      ensures outcome.Written? ==> r == Success(outcome.id) && tasks == old(tasks)[outcome.id := doc]
      ensures outcome.WriteFailed? ==> r == Failure(outcome.cause) && tasks == old(tasks)
      ensures claims == old(claims) && users == old(users)
    {
      if outcome.Written? {
        tasks := tasks[outcome.id := doc];
        r := Success(outcome.id);
      } else {
        r := Failure(outcome.cause);
      }
    }

    /**
     * `createTask`: the checks and normalisation of `Prepare`, then one write. A
     * failed write is reported as `internal` with a fixed message, whatever its
     * cause; nothing is written unless the whole call succeeds.
     */
    method CreateTask(auth: Option<CallerAuth>, data: Object, parseNumber: string -> Option<real>, outcome: WriteOutcome)
      returns (r: Result<CreateResponse, HttpsError>)
      requires outcome.Written? ==> outcome.id !in tasks
      modifies this
      ensures claims == old(claims) && users == old(users)
      ensures Prepare(auth, data, parseNumber).Failure? ==>
        r == Failure(Prepare(auth, data, parseNumber).error) && tasks == old(tasks)
      ensures Prepare(auth, data, parseNumber).Success? && outcome.WriteFailed? ==>
        r == Failure(HttpsError(Internal, InternalMessage)) && tasks == old(tasks)
      ensures Prepare(auth, data, parseNumber).Success? && outcome.Written? ==>
        r == Success(CreateResponse("success", outcome.id))
        && tasks == old(tasks)[outcome.id := Prepare(auth, data, parseNumber).value]
      ensures r.Success? <==> tasks != old(tasks)
    {
      var prepared := Prepare(auth, data, parseNumber);
      if prepared.Failure? {
        return Failure(prepared.error);
      }
      var written := AddTask(prepared.value, outcome);
      if written.Failure? {
        return Failure(HttpsError(Internal, InternalMessage));
      }
      r := Success(CreateResponse("success", written.value));
      assert outcome.id in tasks && outcome.id !in old(tasks);
    }

    /**
     * `setUserRole`: for an identity with an email and a uid, set the role claim
     * "designer", then write a profile with the same role. A failure in either step
     * is swallowed; when the second fails the claim stays without a profile.
     */
    method SetUserRole(user: NewUser, claimSucceeds: bool, profileSucceeds: bool)
      modifies this
      ensures tasks == old(tasks)
      ensures claims == if Provisionable(user) && claimSucceeds
        then old(claims)[user.uid := map["role" := Str(DefaultRole)]] else old(claims)
      ensures users == if Provisionable(user) && claimSucceeds && profileSucceeds
        then old(users)[user.uid := ProfileOf(user)] else old(users)
      ensures Provisionable(user) && claimSucceeds && profileSucceeds ==> RoleInSync(user.uid)
      ensures Provisionable(user) && claimSucceeds && !profileSucceeds && user.uid !in old(users) ==>
        user.uid in claims && user.uid !in users
    {
      if Provisionable(user) {
        if claimSucceeds {
          claims := claims[user.uid := map["role" := Str(DefaultRole)]];
          if profileSucceeds {
            users := users[user.uid := ProfileOf(user)];
          }
        }
      }
    }
  }

  /** An identity carrying only the claim the trigger sets is refused task creation. */
  lemma ProvisionedIdentityMayNotCreate(uid: string, data: Object, parseNumber: string -> Option<real>)
    ensures Prepare(Some(CallerAuth(uid, map["role" := Str(DefaultRole)])), data, parseNumber)
      == Failure(HttpsError(PermissionDenied, PermissionDeniedMessage))
  {
  }
}
