/**
 * How the client's rules and the server's rules fit together: a form that passes
 * its own checks is accepted by the endpoint, and where the navigation table and
 * the endpoint's role check disagree.
 */
module Consistency {
  import opened Wrappers
  import opened Json
  import opened Skills
  import opened Auth
  import opened Functions
  import opened Form
  import opened Nav
  import Table

  /** A signed-in client role, sent as a role claim, may create tasks exactly when it is Admin or Manager. */
  lemma ClientRolesThatMayCreate(r: Role)
    ensures MayCreate(Some(Str(RoleName(r)))) <==> r == Admin || r == Manager
    ensures MayCreate(Some(Str(RoleName(r)))) <==> Table.ShowAssignee(r)
  {
    assert RoleName(Designer)[0] != 'A' && RoleName(Designer)[0] != 'M';
    assert RoleName(Reviewer)[0] != 'A' && RoleName(Reviewer)[0] != 'M';
  }

  /** The spread of a form that passes its schema carries every required field and a non-empty services array. */
  lemma SpreadPassesFieldChecks(v: FormValues, isEmail: string -> bool, skills: Value, birthdate: Value)
    requires SchemaValid(v, isEmail)
    requires skills != Null
    ensures HasRequired(Spread(v, skills, birthdate))
    ensures ServicesValid(Spread(v, skills, birthdate))
  {
    var p := Spread(v, skills, birthdate);
    SpreadCopiesText(v, skills, birthdate);
    SpreadCopiesPayment(v, skills, birthdate);
    SpreadCopiesStructured(v, skills, birthdate);
    SpreadHoldsConverted(v, skills, birthdate);
    HasRequiredOf(p);
  }

  /** An object whose eight required fields are all present and not `null`. */
  lemma HasRequiredOf(data: Object)
    requires "clientName" in data && data["clientName"] != Null
    requires "services" in data && data["services"] != Null
    requires "jobTitle" in data && data["jobTitle"] != Null
    requires "education" in data && data["education"] != Null
    requires "experienceYears" in data && data["experienceYears"] != Null
    requires "skills" in data && data["skills"] != Null
    requires "paymentMethod" in data && data["paymentMethod"] != Null
    requires "paymentStatus" in data && data["paymentStatus"] != Null
    ensures HasRequired(data)
  {
  }

  /**
   * A form that passes its schema, sent by a caller allowed to create, is accepted
   * by the endpoint; the stored task keeps the client name and the split skills.
   */
  lemma ValidFormAccepted(v: FormValues, isEmail: string -> bool, iso: Date -> string,
                          auth: CallerAuth, parseNumber: string -> Option<real>)
    requires SchemaValid(v, isEmail)
    requires MayCreate(Get(auth.token, "role"))
    ensures Prepare(Some(auth), Payload(v, iso), parseNumber).Success?
    ensures var doc := Prepare(Some(auth), Payload(v, iso), parseNumber).value;
      && doc.clientName == Str(v.clientName)
      && doc.skills == Arr(Strings(SplitSkills(v.skills)))
      && doc.experienceYears == Num(v.experienceYears.value)
      && doc.creatorUid == Str(auth.uid)
  {
    var skills, birthdate := SkillsSent(v.skills), BirthdateSent(v.birthdate, iso);
    var p := Spread(v, skills, birthdate);
    assert Payload(v, iso) == p;
    SpreadPassesFieldChecks(v, isEmail, skills, birthdate);
    PrepareSucceedsIff(Some(auth), p, parseNumber);
    PreparedIsTaskData(auth, p, parseNumber);
    StoredFormFields(v, skills, birthdate, auth.uid, parseNumber);
  }

  /** The task stored for a spread form keeps its client name, its skills array and its number of years. */
  lemma StoredFormFields(v: FormValues, skills: Value, birthdate: Value, uid: string, parseNumber: string -> Option<real>)
    requires v.experienceYears.Some?
    requires HasRequired(Spread(v, skills, birthdate))
    requires skills.Arr?
    ensures var doc := TaskData(Spread(v, skills, birthdate), uid, parseNumber);
      && doc.clientName == Str(v.clientName)
      && doc.skills == skills
      && doc.experienceYears == Num(v.experienceYears.value)
      && doc.creatorUid == Str(uid)
  {
    var p := Spread(v, skills, birthdate);
    SpreadCopiesText(v, skills, birthdate);
    SpreadCopiesStructured(v, skills, birthdate);
    SpreadHoldsConverted(v, skills, birthdate);
    var doc := TaskData(p, uid, parseNumber);
    assert doc.skills == NormalizeSkills(p["skills"]);
    assert doc.experienceYears == Num(ExperienceYears(p["experienceYears"], parseNumber));
  }

  /** The spread of a form that passes the intended schema also carries every required field and a non-empty services array. */
  lemma IntendedSpreadPassesFieldChecks(v: FormValues, isEmail: string -> bool, skills: Value, birthdate: Value)
    requires IntendedSchemaValid(v, isEmail)
    requires skills != Null
    ensures HasRequired(Spread(v, skills, birthdate))
    ensures ServicesValid(Spread(v, skills, birthdate))
  {
    var p := Spread(v, skills, birthdate);
    SpreadCopiesText(v, skills, birthdate);
    SpreadCopiesPayment(v, skills, birthdate);
    SpreadCopiesStructured(v, skills, birthdate);
    SpreadHoldsConverted(v, skills, birthdate);
    HasRequiredOf(p);
  }

  /**
   * Under the intended schema, an untouched e-mail included, the endpoint accepts
   * the form from a creator and the task it stores always has at least one skill.
   */
  lemma IntendedFormStoresSkills(v: FormValues, isEmail: string -> bool, iso: Date -> string,
                                 auth: CallerAuth, parseNumber: string -> Option<real>)
    requires IntendedSchemaValid(v, isEmail)
    requires MayCreate(Get(auth.token, "role"))
    ensures Prepare(Some(auth), Payload(v, iso), parseNumber).Success?
    ensures var doc := Prepare(Some(auth), Payload(v, iso), parseNumber).value;
      doc.skills == Arr(Strings(SplitSkills(v.skills))) && |SplitSkills(v.skills)| >= 1
  {
    var skills, birthdate := SkillsSent(v.skills), BirthdateSent(v.birthdate, iso);
    var p := Spread(v, skills, birthdate);
    assert Payload(v, iso) == p;
    IntendedSpreadPassesFieldChecks(v, isEmail, skills, birthdate);
    PrepareSucceedsIff(Some(auth), p, parseNumber);
    PreparedIsTaskData(auth, p, parseNumber);
    StoredFormFields(v, skills, birthdate, auth.uid, parseNumber);
  }

  /**
   * The navigation offers the new-task page to Designer, whom the endpoint refuses,
   * and hides it from Manager, whom the endpoint accepts.
   */
  lemma NewTaskLinkDisagreesWithEndpoint()
    ensures "/tasks/new" in VisibleHrefs(Designer) && !MayCreate(Some(Str(RoleName(Designer))))
    ensures "/tasks/new" !in VisibleHrefs(Manager) && MayCreate(Some(Str(RoleName(Manager))))
  {
    VisibleHrefsDesigner();
    VisibleHrefsManager();
    ClientRolesThatMayCreate(Designer);
    ClientRolesThatMayCreate(Manager);
    assert "/tasks/new"[1] != "/dashboard"[1] && "/tasks/new"[1] != "/all-tasks"[1] && "/tasks/new"[1] != "/profile"[1];
  }

  /** The new-task link with the roles the endpoint accepts. */
  const IntendedNewTaskLink: NavLink := NavLink("/tasks/new", "newTask", [Admin, Manager])

  /** The navigation table with the new-task link matching the endpoint. */
  const IntendedNavLinks: seq<NavLink> := NavLinks[3 := IntendedNewTaskLink]

  /** With the intended table, a role is offered the new-task page exactly when the endpoint lets it create. */
  lemma IntendedNewTaskLinkAgrees(r: Role)
    ensures IntendedNavLinks[3].href == "/tasks/new"
    ensures r in IntendedNavLinks[3].roles <==> MayCreate(Some(Str(RoleName(r))))
    ensures forall k :: 0 <= k < |NavLinks| && k != 3 ==> IntendedNavLinks[k] == NavLinks[k]
  {
    ClientRolesThatMayCreate(r);
  }
}
