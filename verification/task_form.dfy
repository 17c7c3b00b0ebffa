/**
 * The new-task form (src/components/tasks/task-form.tsx): the field constraints the
 * form enforces before submitting, the service picker's toggle, the payload it
 * sends to the creation endpoint, and the submit handler around that call.
 */
module Form {
  import opened Wrappers
  import opened Json
  import opened Lists
  import opened Skills
  import opened Auth
  import Data

  /** A day picked in the calendar; its ISO rendering is a parameter of the payload. */
  datatype Date = Date(millis: int)

  datatype Contact = Contact(phone: Option<string>, email: Option<string>)

  /**
   * The form's values. An optional field that is `undefined` is `None`;
   * `experienceYears` is the number the input coerces to, `None` when that is NaN.
   */
  datatype FormValues = FormValues(
    clientName: string,
    birthdate: Option<Date>,
    contactInfo: Contact,
    address: Option<string>,
    jobTitle: string,
    education: string,
    experienceYears: Option<real>,
    skills: string,
    services: seq<string>,
    designerNotes: Option<string>,
    reviewerNotes: Option<string>,
    paymentMethod: string,
    paymentStatus: string)

  const PaymentMethods: seq<string> := ["instapay", "paysky", "other"]
  const PaymentStatuses: seq<string> := ["paid", "unpaid", "pending"]

  /** The values a fresh form starts with. */
  const DefaultValues: FormValues :=
    FormValues("", None, Contact(Some(""), Some("")), Some(""), "", "", Some(0.0), "", [], Some(""), Some(""), "instapay", "unpaid")

  /** The e-mail rule applies to any given e-mail, the empty string included; the format check itself is a parameter. */
  predicate EmailValid(c: Contact, isEmail: string -> bool)
  {
    c.email.None? || isEmail(c.email.value)
  }

  /** `formSchema`: every constraint the form checks before it calls the submit handler. */
  predicate SchemaValid(v: FormValues, isEmail: string -> bool)
  {
    && |v.clientName| >= 2
    && EmailValid(v.contactInfo, isEmail)
    && |v.jobTitle| >= 1
    && |v.education| >= 1
    && v.experienceYears.Some? && v.experienceYears.value >= 0.0
    && |v.skills| >= 1
    && |v.services| >= 1
    && v.paymentMethod in PaymentMethods
    && v.paymentStatus in PaymentStatuses
  }

  /** A failed constraint: the field's path and the message shown under it. */
  datatype FieldError = FieldError(path: string, message: string)

  function Check(ok: bool, path: string, message: string): seq<FieldError>
  {
    if ok then [] else [FieldError(path, message)]
  }

  /**
   * The validation library's own messages for the rules the schema gives none:
   * a coerced value that is not a number, a number below the minimum, and an
   * enum value outside its options (given the options and the value received).
   */
  datatype LibraryMessages = LibraryMessages(
    notANumber: string,
    belowMinimum: string,
    invalidEnum: (seq<string>, string) -> string)

  /** `z.coerce.number().min(0)`: NaN fails the type check, a negative number the minimum. */
  function YearsCheck(years: Option<real>, library: LibraryMessages): seq<FieldError>
  {
    match years
    case None => [FieldError("experienceYears", library.notANumber)]
    case Some(n) => Check(n >= 0.0, "experienceYears", library.belowMinimum)
  }

  /** `z.enum(options)`: a value outside the options fails with the library's message. */
  function EnumCheck(value: string, options: seq<string>, path: string, library: LibraryMessages): seq<FieldError>
  {
    Check(value in options, path, library.invalidEnum(options, value))
  }

  /** Each field's rule in schema order, with the errors it reports: none or one. */
  function FieldErrors(v: FormValues, isEmail: string -> bool, library: LibraryMessages): seq<seq<FieldError>>
  {
    [ Check(|v.clientName| >= 2, "clientName", "Client name is required"),
      Check(EmailValid(v.contactInfo, isEmail), "contactInfo.email", "Invalid email format"),
      Check(|v.jobTitle| >= 1, "jobTitle", "Job title is required"),
      Check(|v.education| >= 1, "education", "Education is required"),
      YearsCheck(v.experienceYears, library),
      Check(|v.skills| >= 1, "skills", "Please list at least one skill."),
      Check(|v.services| >= 1, "services", "Please select at least one service."),
      EnumCheck(v.paymentMethod, PaymentMethods, "paymentMethod", library),
      EnumCheck(v.paymentStatus, PaymentStatuses, "paymentStatus", library) ]
  }

  /** The paths of the schema's fields, in schema order. */
  const FieldPaths: seq<string> := [
    "clientName", "contactInfo.email", "jobTitle", "education", "experienceYears",
    "skills", "services", "paymentMethod", "paymentStatus"
  ]

  /** The errors the schema reports, field by field in schema order. */
  function SchemaErrors(v: FormValues, isEmail: string -> bool, library: LibraryMessages): seq<FieldError>
  {
    Concat(FieldErrors(v, isEmail, library))
  }

  /** The schema reports no error exactly when every constraint holds, and never more than one per field. */
  lemma SchemaErrorsEmptyIff(v: FormValues, isEmail: string -> bool, library: LibraryMessages)
    ensures SchemaErrors(v, isEmail, library) == [] <==> SchemaValid(v, isEmail)
    ensures |SchemaErrors(v, isEmail, library)| <= 9
    ensures PathsApart(SchemaErrors(v, isEmail, library))
    ensures v.experienceYears.None? ==> FieldError("experienceYears", library.notANumber) in SchemaErrors(v, isEmail, library)
    ensures v.paymentMethod !in PaymentMethods ==>
      FieldError("paymentMethod", library.invalidEnum(PaymentMethods, v.paymentMethod)) in SchemaErrors(v, isEmail, library)
  {
    NoSchemaErrorsIff(v, isEmail, library);
    AtMostOneErrorEach(v, isEmail, library);
    LibraryMessagesReported(v, isEmail, library);
  }

  /** The schema reports nothing exactly when every field's rule reports nothing, which is when the form satisfies it. */
  lemma NoSchemaErrorsIff(v: FormValues, isEmail: string -> bool, library: LibraryMessages)
    ensures SchemaErrors(v, isEmail, library) == [] <==> SchemaValid(v, isEmail)
  {
    ConcatEmptyIff(FieldErrors(v, isEmail, library));
    NoFieldErrorsIff(v, isEmail, library);
  }

  /** A years value that is not a number and a payment method outside its options carry the library's messages. */
  lemma LibraryMessagesReported(v: FormValues, isEmail: string -> bool, library: LibraryMessages)
    ensures v.experienceYears.None? ==> FieldError("experienceYears", library.notANumber) in SchemaErrors(v, isEmail, library)
    ensures v.paymentMethod !in PaymentMethods ==>
      FieldError("paymentMethod", library.invalidEnum(PaymentMethods, v.paymentMethod)) in SchemaErrors(v, isEmail, library)
  {
    var g := FieldErrors(v, isEmail, library);
    ConcatHolds(g);
    if v.experienceYears.None? {
      assert FieldError("experienceYears", library.notANumber) in g[4];
    }
    if v.paymentMethod !in PaymentMethods {
      assert FieldError("paymentMethod", library.invalidEnum(PaymentMethods, v.paymentMethod)) in g[7];
    }
  }

  /** Every field's rule reports nothing exactly when the form satisfies the schema. */
  lemma NoFieldErrorsIff(v: FormValues, isEmail: string -> bool, library: LibraryMessages)
    ensures (forall i :: 0 <= i < |FieldErrors(v, isEmail, library)| ==> FieldErrors(v, isEmail, library)[i] == [])
      <==> SchemaValid(v, isEmail)
  {
    var g := FieldErrors(v, isEmail, library);
    if SchemaValid(v, isEmail) {
      forall i | 0 <= i < |g|
        ensures g[i] == []
      {
      }
    } else {
      assert g[0] != [] || g[1] != [] || g[2] != [] || g[3] != [] || g[4] != []
        || g[5] != [] || g[6] != [] || g[7] != [] || g[8] != [];
    }
  }

  /** No two errors are about the same field. */
  predicate PathsApart(errors: seq<FieldError>)
  {
    forall i, j :: 0 <= i < j < |errors| ==> errors[i].path != errors[j].path
  }

  /** Groups of at most one error each, each about its own field, join into errors one per field. */
  lemma {:induction false} ConcatPathsApart(groups: seq<seq<FieldError>>, paths: seq<string>)
    requires |groups| == |paths|
    requires forall i :: 0 <= i < |groups| ==> AboutField(groups[i], paths[i])
    requires forall i, j :: 0 <= i < j < |paths| ==> paths[i] != paths[j]
    ensures PathsApart(Concat(groups))
    ensures forall k :: 0 <= k < |Concat(groups)| ==> Concat(groups)[k].path in paths
  {
    if groups != [] {
      var rest := Concat(groups[1..]);
      ConcatPathsApart(groups[1..], paths[1..]);
      forall k | 0 <= k < |rest|
        ensures rest[k].path != paths[0] && rest[k].path in paths
      {
        var j :| 0 <= j < |paths[1..]| && paths[1..][j] == rest[k].path;
        assert paths[j + 1] == rest[k].path;
      }
    }
  }

  /** The schema reports each field at most once, so at most nine errors in all. */
  lemma AtMostOneErrorEach(v: FormValues, isEmail: string -> bool, library: LibraryMessages)
    ensures PathsApart(SchemaErrors(v, isEmail, library))
    ensures |SchemaErrors(v, isEmail, library)| <= 9
  {
    FieldErrorsAboutTheirFields(v, isEmail, library);
    FieldPathsDistinct();
    ConcatPathsApart(FieldErrors(v, isEmail, library), FieldPaths);
    ConcatHolds(FieldErrors(v, isEmail, library));
  }

  /** At most one error, and only about the field at `path`. */
  predicate AboutField(errors: seq<FieldError>, path: string)
  {
    |errors| <= 1 && forall k :: 0 <= k < |errors| ==> errors[k].path == path
  }

  /** Each field's rule reports at most one error, about that field. */
  lemma FieldErrorsAboutTheirFields(v: FormValues, isEmail: string -> bool, library: LibraryMessages)
    ensures |FieldErrors(v, isEmail, library)| == |FieldPaths|
    ensures forall i :: 0 <= i < |FieldPaths| ==> AboutField(FieldErrors(v, isEmail, library)[i], FieldPaths[i])
  {
    var g := FieldErrors(v, isEmail, library);
    assert AboutField(g[0], FieldPaths[0]) && AboutField(g[1], FieldPaths[1]) && AboutField(g[2], FieldPaths[2]);
    assert AboutField(g[3], FieldPaths[3]) && AboutField(g[4], FieldPaths[4]) && AboutField(g[5], FieldPaths[5]);
    assert AboutField(g[6], FieldPaths[6]) && AboutField(g[7], FieldPaths[7]) && AboutField(g[8], FieldPaths[8]);
  }

  /** No two of the schema's fields share a path. */
  lemma FieldPathsDistinct()
    ensures forall i, j :: 0 <= i < j < |FieldPaths| ==> FieldPaths[i] != FieldPaths[j]
  {
    assert FieldPaths[7][7] != FieldPaths[8][7];
  }

  /** A fresh form does not pass: the client name, job title, education, skills and services are empty. */
  lemma DefaultValuesRejected(isEmail: string -> bool, library: LibraryMessages)
    ensures !SchemaValid(DefaultValues, isEmail)
    ensures FieldError("clientName", "Client name is required") in SchemaErrors(DefaultValues, isEmail, library)
  {
    ConcatHolds(FieldErrors(DefaultValues, isEmail, library));
  }

  /** A service the picker offers: its label key and the value stored. */
  datatype ServiceOption = ServiceOption(labelKey: string, value: string)

  const ServiceCatalog: seq<ServiceOption> := [
    ServiceOption("cvWriting", "CV Writing"),
    ServiceOption("coverLetter", "Cover Letter"),
    ServiceOption("linkedInProfile", "LinkedIn Profile")
  ]

  function ServiceValues(): seq<string>
  {
    Map(ServiceCatalog, (o: ServiceOption) => o.value)
  }

  /** The picker offers exactly the services the task records use, in the same order. */
  lemma CatalogMatchesTaskServices()
    ensures ServiceValues() == Data.ServiceNames
  {
  }

  function Without(value: string): string -> bool
  {
    v => v != value
  }

  /** The picker's `onSelect`: a selected value is removed, every copy of it; an unselected one is appended. */
  function Toggle(current: seq<string>, value: string): seq<string>
  {
    if value in current then Filter(current, Without(value)) else current + [value]
  }

  /** Selecting toggles exactly the chosen value: it is selected afterwards iff it was not before, and no other value changes. */
  lemma ToggleFlipsMembership(current: seq<string>, value: string)
    ensures value in Toggle(current, value) <==> value !in current
    ensures forall x :: x != value ==> (x in Toggle(current, value) <==> x in current)
  {
    var p := Without(value);
    if value in current {
      FilterCount(current, p, value);
      assert multiset(Toggle(current, value))[value] == 0;
      forall x | x != value
        ensures x in Toggle(current, value) <==> x in current
      {
        FilterCount(current, p, x);
      }
    }
  }

  /** The other selected values keep their order: dropping the toggled value before or after gives the same list. */
  lemma ToggleKeepsOthersInOrder(current: seq<string>, value: string)
    ensures Filter(Toggle(current, value), Without(value)) == Filter(current, Without(value))
  {
    var p := Without(value);
    if value in current {
      var kept := Filter(current, p);
      FilterMembers(current, p);
      FilterKeepsAll(kept, p);
    } else {
      FilterAppend(current, [value], p);
      assert Filter([value], p) == [];
    }
  }

  /** Toggling an unselected value twice gives back the selection. */
  lemma ToggleTwiceRestores(current: seq<string>, value: string)
    requires value !in current
    ensures Toggle(Toggle(current, value), value) == current
  {
    var p := Without(value);
    FilterAppend(current, [value], p);
    assert Filter([value], p) == [];
    FilterKeepsAll(current, p);
  }

  /** Toggling a selected value twice moves it to the end. */
  lemma ToggleTwiceMovesToEnd(current: seq<string>, value: string)
    requires value in current
    ensures Toggle(Toggle(current, value), value) == Filter(current, Without(value)) + [value]
  {
    FilterCount(current, Without(value), value);
    assert multiset(Filter(current, Without(value)))[value] == 0;
  }

  /** No value is selected twice. */
  ghost predicate NoDuplicates(s: seq<string>)
  {
    forall x :: multiset(s)[x] <= 1
  }

  /** The toggle keeps a selection free of duplicates and within the catalog. */
  lemma TogglePreservesSelection(current: seq<string>, value: string)
    requires NoDuplicates(current)
    requires forall k :: 0 <= k < |current| ==> current[k] in ServiceValues()
    requires value in ServiceValues()
    ensures NoDuplicates(Toggle(current, value))
    ensures forall k :: 0 <= k < |Toggle(current, value)| ==> Toggle(current, value)[k] in ServiceValues()
  {
    var p := Without(value);
    if value in current {
      forall x
        ensures multiset(Toggle(current, value))[x] <= 1
      {
        FilterCount(current, p, x);
      }
      FilterMembers(current, p);
    } else {
      forall x
        ensures multiset(Toggle(current, value))[x] <= 1
      {
        assert multiset(current + [value]) == multiset(current) + multiset{value};
      }
    }
  }

  /** An optional string field: present as a string, or absent when `undefined`. */
  function Optional(key: string, v: Option<string>): Object
  {
    if v.Some? then map[key := Str(v.value)] else map[]
  }

  function ContactObject(c: Contact): Value
  {
    Obj(Optional("phone", c.phone) + Optional("email", c.email))
  }

  /** The optional text values that are defined. */
  function Optionals(v: FormValues): Object
  {
    Optional("address", v.address) + Optional("designerNotes", v.designerNotes) + Optional("reviewerNotes", v.reviewerNotes)
  }

  /** The values every form has, with the two converted fields given. */
  function Required(v: FormValues, skills: Value, birthdate: Value): Object
    requires v.experienceYears.Some?
  {
    map[
      "clientName" := Str(v.clientName),
      "contactInfo" := ContactObject(v.contactInfo),
      "jobTitle" := Str(v.jobTitle),
      "education" := Str(v.education),
      "experienceYears" := Num(v.experienceYears.value),
      "services" := Arr(Strings(v.services)),
      "paymentMethod" := Str(v.paymentMethod),
      "paymentStatus" := Str(v.paymentStatus),
      "skills" := skills,
      "birthdate" := birthdate
    ]
  }

  /** `{...values}` with the two converted fields given: every other form value copied as it is. */
  function Spread(v: FormValues, skills: Value, birthdate: Value): Object
    requires v.experienceYears.Some?
  {
    Optionals(v) + Required(v, skills, birthdate)
  }

  /** None of the optional fields is among the values every form has. */
  lemma OptionalsApart(v: FormValues, skills: Value, birthdate: Value)
    requires v.experienceYears.Some?
    ensures "address" !in Required(v, skills, birthdate)
    ensures "designerNotes" !in Required(v, skills, birthdate)
    ensures "reviewerNotes" !in Required(v, skills, birthdate)
  {
  }

  /** The skills text split into a list, as sent. */
  function SkillsSent(skills: string): Value
  {
    Arr(Strings(SplitSkills(skills)))
  }

  /** `values.birthdate ? values.birthdate.toISOString() : null`. */
  function BirthdateSent(birthdate: Option<Date>, iso: Date -> string): Value
  {
    if birthdate.Some? then Str(iso(birthdate.value)) else Null
  }

  /**
   * The object sent to the endpoint: every form value, with `skills` split into a
   * list and `birthdate` rendered by `iso` or `null`.
   */
  function Payload(v: FormValues, iso: Date -> string): Object
    requires v.experienceYears.Some?
  {
    Spread(v, SkillsSent(v.skills), BirthdateSent(v.birthdate, iso))
  }

  lemma RequiredText(v: FormValues, skills: Value, birthdate: Value)
    requires v.experienceYears.Some?
    ensures var r := Required(v, skills, birthdate);
      && "clientName" in r && r["clientName"] == Str(v.clientName)
      && "jobTitle" in r && r["jobTitle"] == Str(v.jobTitle)
      && "education" in r && r["education"] == Str(v.education)
  {
  }

  lemma RequiredPayment(v: FormValues, skills: Value, birthdate: Value)
    requires v.experienceYears.Some?
    ensures var r := Required(v, skills, birthdate);
      && "paymentMethod" in r && r["paymentMethod"] == Str(v.paymentMethod)
      && "paymentStatus" in r && r["paymentStatus"] == Str(v.paymentStatus)
  {
  }

  lemma RequiredStructured(v: FormValues, skills: Value, birthdate: Value)
    requires v.experienceYears.Some?
    ensures var r := Required(v, skills, birthdate);
      && "experienceYears" in r && r["experienceYears"] == Num(v.experienceYears.value)
      && "services" in r && r["services"] == Arr(Strings(v.services))
      && "contactInfo" in r && r["contactInfo"] == ContactObject(v.contactInfo)
  {
  }

  lemma RequiredConverted(v: FormValues, skills: Value, birthdate: Value)
    requires v.experienceYears.Some?
    ensures var r := Required(v, skills, birthdate);
      && "skills" in r && r["skills"] == skills
      && "birthdate" in r && r["birthdate"] == birthdate
  {
  }

  /** The spread copies the form's text values as they are. */
  lemma SpreadCopiesText(v: FormValues, skills: Value, birthdate: Value)
    requires v.experienceYears.Some?
    ensures var p := Spread(v, skills, birthdate);
      && p["clientName"] == Str(v.clientName)
      && p["jobTitle"] == Str(v.jobTitle)
      && p["education"] == Str(v.education)
  {
    RequiredText(v, skills, birthdate);
  }

  /** The spread copies the two payment choices as they are. */
  lemma SpreadCopiesPayment(v: FormValues, skills: Value, birthdate: Value)
    requires v.experienceYears.Some?
    ensures var p := Spread(v, skills, birthdate);
      p["paymentMethod"] == Str(v.paymentMethod) && p["paymentStatus"] == Str(v.paymentStatus)
  {
    RequiredPayment(v, skills, birthdate);
  }

  /** The spread copies the number of years, the chosen services and the contact object. */
  lemma SpreadCopiesStructured(v: FormValues, skills: Value, birthdate: Value)
    requires v.experienceYears.Some?
    ensures var p := Spread(v, skills, birthdate);
      && p["experienceYears"] == Num(v.experienceYears.value)
      && p["services"] == Arr(Strings(v.services))
      && p["contactInfo"] == ContactObject(v.contactInfo)
  {
    RequiredStructured(v, skills, birthdate);
  }

  /** The spread holds the two converted fields as given. */
  lemma SpreadHoldsConverted(v: FormValues, skills: Value, birthdate: Value)
    requires v.experienceYears.Some?
    ensures var p := Spread(v, skills, birthdate);
      p["skills"] == skills && p["birthdate"] == birthdate
  {
    RequiredConverted(v, skills, birthdate);
  }

  /** The optional values hold exactly the defined optional fields, as they are. */
  lemma OptionalsHold(v: FormValues)
    ensures "address" in Optionals(v) <==> v.address.Some?
    ensures v.address.Some? ==> Optionals(v)["address"] == Str(v.address.value)
    ensures "designerNotes" in Optionals(v) <==> v.designerNotes.Some?
    ensures v.designerNotes.Some? ==> Optionals(v)["designerNotes"] == Str(v.designerNotes.value)
    ensures "reviewerNotes" in Optionals(v) <==> v.reviewerNotes.Some?
    ensures v.reviewerNotes.Some? ==> Optionals(v)["reviewerNotes"] == Str(v.reviewerNotes.value)
  {
  }

  /** A defined address is sent as it is; an undefined one is left out. */
  lemma SpreadAddress(v: FormValues, skills: Value, birthdate: Value)
    requires v.experienceYears.Some?
    ensures "address" in Spread(v, skills, birthdate) <==> v.address.Some?
    ensures v.address.Some? ==> Spread(v, skills, birthdate)["address"] == Str(v.address.value)
  {
    OptionalsApart(v, skills, birthdate);
    OptionalsHold(v);
    assert Spread(v, skills, birthdate) == Optionals(v) + Required(v, skills, birthdate);
  }

  /** Defined notes are sent as they are; undefined ones are left out. */
  lemma SpreadNotes(v: FormValues, skills: Value, birthdate: Value)
    requires v.experienceYears.Some?
    ensures "designerNotes" in Spread(v, skills, birthdate) <==> v.designerNotes.Some?
    ensures v.designerNotes.Some? ==> Spread(v, skills, birthdate)["designerNotes"] == Str(v.designerNotes.value)
    ensures "reviewerNotes" in Spread(v, skills, birthdate) <==> v.reviewerNotes.Some?
    ensures v.reviewerNotes.Some? ==> Spread(v, skills, birthdate)["reviewerNotes"] == Str(v.reviewerNotes.value)
  {
    OptionalsApart(v, skills, birthdate);
    OptionalsHold(v);
    assert Spread(v, skills, birthdate) == Optionals(v) + Required(v, skills, birthdate);
  }

  /**
   * The payload's skills are the trimmed, non-empty, comma-free pieces of the
   * skills text in input order; its birthdate is the ISO rendering of the picked
   * day, or `null` when none was picked.
   */
  lemma PayloadNormalizesSkillsAndBirthdate(v: FormValues, iso: Date -> string)
    requires v.experienceYears.Some?
    ensures Payload(v, iso)["skills"] == Arr(Strings(SplitSkills(v.skills)))
    ensures forall k :: 0 <= k < |SplitSkills(v.skills)| ==> IsSkill(SplitSkills(v.skills)[k])
    ensures IsSubsequence(SplitSkills(v.skills), Map(Text.Split(v.skills, ','), Text.Trim))
    ensures Payload(v, iso)["birthdate"] == if v.birthdate.Some? then Str(iso(v.birthdate.value)) else Null
  {
    SpreadHoldsConverted(v, SkillsSent(v.skills), BirthdateSent(v.birthdate, iso));
    SplitSkillsAreSkills(v.skills);
    SplitSkillsInInputOrder(v.skills);
  }

  /** Any form that passes the schema still passes it with a lone comma for skills, and then sends no skill at all. */
  lemma SchemaAcceptsCommaOnlySkills(v: FormValues, isEmail: string -> bool, iso: Date -> string)
    requires SchemaValid(v, isEmail)
    ensures SchemaValid(v.(skills := ","), isEmail)
    ensures Payload(v.(skills := ","), iso)["skills"] == Arr([])
  {
    var w := v.(skills := ",");
    SpreadHoldsConverted(w, SkillsSent(w.skills), BirthdateSent(w.birthdate, iso));
    SplitSkillsOfLoneComma();
  }

  /**
   * An e-mail field left at its initial empty value is checked against the format
   * and fails it, so the form cannot be sent without an e-mail.
   */
  lemma SchemaRejectsUntouchedEmail(v: FormValues, isEmail: string -> bool, library: LibraryMessages)
    requires v.contactInfo.email == DefaultValues.contactInfo.email
    requires !isEmail("")
    ensures !SchemaValid(v, isEmail)
    ensures FieldError("contactInfo.email", "Invalid email format") in SchemaErrors(v, isEmail, library)
  {
    ConcatHolds(FieldErrors(v, isEmail, library));
  }

  /** The e-mail rule as the optional field evidently means it: an empty e-mail is no e-mail. */
  predicate IntendedEmailValid(c: Contact, isEmail: string -> bool)
  {
    c.email.None? || c.email.value == "" || isEmail(c.email.value)
  }

  /**
   * The schema as evidently intended: the e-mail rule ignores an empty e-mail, and
   * the skills text must hold at least one skill, not merely one character.
   */
  predicate IntendedSchemaValid(v: FormValues, isEmail: string -> bool)
  {
    && |v.clientName| >= 2
    && IntendedEmailValid(v.contactInfo, isEmail)
    && |v.jobTitle| >= 1
    && |v.education| >= 1
    && v.experienceYears.Some? && v.experienceYears.value >= 0.0
    && SplitSkills(v.skills) != []
    && |v.services| >= 1
    && v.paymentMethod in PaymentMethods
    && v.paymentStatus in PaymentStatuses
  }

  /** Under the intended schema an untouched e-mail is accepted like an absent one. */
  lemma IntendedSchemaAcceptsUntouchedEmail(v: FormValues, isEmail: string -> bool)
    requires v.contactInfo.email == Some("")
    ensures IntendedSchemaValid(v, isEmail) <==>
      IntendedSchemaValid(v.(contactInfo := v.contactInfo.(email := None)), isEmail)
  {
  }

  /** Under the intended schema the payload always carries at least one well-formed skill. */
  lemma IntendedSchemaSendsSkills(v: FormValues, isEmail: string -> bool, iso: Date -> string)
    requires IntendedSchemaValid(v, isEmail)
    ensures Payload(v, iso)["skills"].Arr? && |Payload(v, iso)["skills"].items| >= 1
    ensures forall k :: 0 <= k < |SplitSkills(v.skills)| ==> IsSkill(SplitSkills(v.skills)[k])
  {
    SpreadHoldsConverted(v, SkillsSent(v.skills), BirthdateSent(v.birthdate, iso));
    SplitSkillsAreSkills(v.skills);
  }

  /**
   * The intended schema only narrows the skills rule and widens the e-mail rule to
   * the empty e-mail: away from an empty e-mail, it accepts only what the written one does.
   */
  lemma IntendedSchemaVersusWritten(v: FormValues, isEmail: string -> bool)
    ensures IntendedSchemaValid(v, isEmail) && v.contactInfo.email != Some("") ==> SchemaValid(v, isEmail)
    ensures SchemaValid(v, isEmail) && SplitSkills(v.skills) != [] ==> IntendedSchemaValid(v, isEmail)
  {
    if SplitSkills(v.skills) != [] {
      assert SplitSkills(v.skills)[0] != "" by { SplitSkillsAreSkills(v.skills); }
    }
  }

  /** A message shown to the user. */
  datatype Toast = Toast(destructive: bool, title: string, description: string)

  /** What the call to the endpoint did: returned, or threw an error with a message. */
  datatype CallOutcome = Returned | Threw(message: string)

  const NotSignedInToast: Toast := Toast(true, "Authentication Error", "You must be logged in to create a task.")
  const CreatedToast: Toast := Toast(false, "Task Created", "The new task has been added successfully.")
  const FallbackErrorMessage: string := "There was a problem creating the task."

  /** The form's submit state. */
  class TaskFormState {
    var isSubmitting: bool

    constructor()
      ensures !isSubmitting
    {
      isSubmitting := false;
    }

    /**
     * `onSubmit`, called only with values that passed the schema: without a user it
     * only warns; otherwise it sends the payload, and whatever the call did, the
     * form is no longer submitting afterwards. On success it goes to the task list;
     * on failure it shows the error's message, or a fallback when that is empty.
     */
    method OnSubmit(values: FormValues, isEmail: string -> bool, user: Option<User>, iso: Date -> string, outcome: CallOutcome)
      returns (sent: Option<Object>, toast: Toast, redirect: Option<string>)
      requires SchemaValid(values, isEmail)
      modifies this
      ensures user.None? ==> sent.None? && toast == NotSignedInToast && redirect.None? && isSubmitting == old(isSubmitting)
      ensures user.Some? ==> sent == Some(Payload(values, iso)) && !isSubmitting
      ensures user.Some? && outcome.Returned? ==> toast == CreatedToast && redirect == Some("/all-tasks")
      ensures user.Some? && outcome.Threw? ==>
        (redirect.None? && toast == Toast(true, "Error", if outcome.message != "" then outcome.message else FallbackErrorMessage))
    {
      if user.None? {
        return None, NotSignedInToast, None;
      }
      isSubmitting := true;
      sent := Some(Payload(values, iso));
      if outcome.Returned? {
        toast, redirect := CreatedToast, Some("/all-tasks");
      } else {
        var message := if outcome.message != "" then outcome.message else FallbackErrorMessage;
        toast, redirect := Toast(true, "Error", message), None;
      }
      isSubmitting := false;
    }
  }
}
