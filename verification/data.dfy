/**
 * The client's task and account records (src/lib/data.ts) and the fixture arrays
 * the pages render.
 */
module Data {
  import opened Wrappers

  /** A task's status: exactly four values. */
  datatype Status = NotStarted | InProgress | InReview | Completed

  /** The label the client stores and displays for a status. */
  function Label(s: Status): string
  {
    match s
    case NotStarted => "Not Started"
    case InProgress => "In Progress"
    case InReview => "In Review"
    case Completed => "Completed"
  }

  /** The status a label denotes, if it is one of the four. */
  function StatusOf(text: string): (r: Option<Status>)
    ensures r.Some? ==> Label(r.value) == text
  {
    if text == "Not Started" then Some(NotStarted)
    else if text == "In Progress" then Some(InProgress)
    else if text == "In Review" then Some(InReview)
    else if text == "Completed" then Some(Completed)
    else None
  }

  /** Every status is recovered from its label, so distinct statuses have distinct labels. */
  lemma StatusOfLabel(s: Status)
    ensures StatusOf(Label(s)) == Some(s)
  {
    match s
    case NotStarted =>
    case InProgress =>
      assert Label(s)[0] != 'N';
    case InReview =>
      assert Label(s)[0] != 'N';
      assert Label(s)[3] != "In Progress"[3];
    case Completed =>
      assert Label(s)[0] != 'N' && Label(s)[0] != 'I';
  }

  /** A string denotes a status exactly when it is one of the four labels. */
  lemma StatusLabelsClosed(text: string)
    ensures StatusOf(text).Some? <==> text in {"Not Started", "In Progress", "In Review", "Completed"}
  {
  }

  /** The status the creation endpoint writes is none of the four client labels. */
  lemma ServerStatusIsNoLabel()
    ensures StatusOf("not_started") == None
  {
    assert "not_started"[0] != 'N' && "not_started"[0] != 'I' && "not_started"[0] != 'C';
  }

  /** A task as the client lists it; `rating` is a number or `null`. */
  datatype Task = Task(
    id: string,
    clientName: string,
    services: seq<string>,
    assignee: string,
    status: Status,
    date: string,
    rating: Option<int>)

  /** A shared tool account. */
  datatype Account = Account(id: string, service: string, username: string, passwordMock: string)

  /** The services a task can include. */
  const ServiceNames: seq<string> := ["CV Writing", "Cover Letter", "LinkedIn Profile"]

  const Tasks: seq<Task> := [
    Task("1", "Ahmad Al-Farsi", ["CV Writing"], "Designer User", Completed, "2023-10-26", Some(5)),
    Task("2", "Fatima Al-Marzouqi", ["Cover Letter", "LinkedIn Profile"], "Designer User", InReview, "2023-10-25", None),
    Task("3", "Yusuf Al-Hashemi", ["CV Writing"], "Another Designer", InProgress, "2023-10-24", None),
    Task("4", "Layla Al-Nuaimi", ["LinkedIn Profile"], "Designer User", NotStarted, "2023-10-27", None),
    Task("5", "Omar Al-Mansoori", ["CV Writing", "Cover Letter"], "Another Designer", Completed, "2023-10-22", Some(4))
  ]

  const Accounts: seq<Account> := [
    Account("acc-1", "Kickresume", "team@cv-assist.com", "kick123!"),
    Account("acc-2", "Canva Pro", "design@cv-assist.com", "canvaPro!Secure"),
    Account("acc-3", "Grammarly Business", "edit@cv-assist.com", "grammarlyPass")
  ]

  /** In the fixture a task is rated exactly when it is completed, and every rating is 1 to 5. */
  lemma FixtureRatedIffCompleted()
    ensures forall i :: 0 <= i < |Tasks| ==> (Tasks[i].rating.Some? <==> Tasks[i].status == Completed)
    ensures forall i :: 0 <= i < |Tasks| && Tasks[i].rating.Some? ==> 1 <= Tasks[i].rating.value <= 5
  {
  }

  /** Every fixture task has at least one service, each from the catalog. */
  lemma FixtureServicesFromCatalog()
    ensures forall i :: 0 <= i < |Tasks| ==> |Tasks[i].services| > 0
    ensures forall i, j :: 0 <= i < |Tasks| && 0 <= j < |Tasks[i].services| ==> Tasks[i].services[j] in ServiceNames
  {
  }

  /** Fixture task ids are pairwise distinct, and so are fixture account ids. */
  lemma FixtureIdsUnique()
    ensures forall i, j :: 0 <= i < j < |Tasks| ==> Tasks[i].id != Tasks[j].id
    ensures forall i, j :: 0 <= i < j < |Accounts| ==> Accounts[i].id != Accounts[j].id
  {
    assert forall i, j :: 0 <= i < j < |Accounts| ==> Accounts[i].id[4] != Accounts[j].id[4];
  }
}
