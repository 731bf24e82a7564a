/** The issue document: its status enum, its fields and the defaults and
    required paths that the schema applies when a document is saved. */
module IssueModel {
  import opened Common

  datatype Status = Pending | InProgress | Resolved

  /** The strings the schema's enum admits, in the schema's order. */
  const StatusNames: seq<string> := ["Pending", "In Progress", "Resolved"]

  function StatusName(st: Status): string {
    match st
    case Pending => "Pending"
    case InProgress => "In Progress"
    case Resolved => "Resolved"
  }

  /** The enum check: a string denotes a status exactly when it is one of the
      enum's names, and then it is that status's name. */
  function ParseStatus(s: string): (r: Option<Status>)
    ensures r.Some? <==> s in StatusNames
    ensures r.Some? ==> StatusName(r.value) == s
  {
    if s == "Pending" then Some(Pending)
    else if s == "In Progress" then Some(InProgress)
    else if s == "Resolved" then Some(Resolved)
    else None
  }

  /** Parsing a status's own name gives that status back. */
  lemma ParseStatusName(st: Status)
    ensures StatusName(st) in StatusNames
    ensures ParseStatus(StatusName(st)) == Some(st)
  {
  }

  type IssueId = nat

  /** A stored issue. The reporter reference is kept even for anonymous
      issues; the creation timestamp is not modelled. */
  datatype Issue = Issue(
    id: IssueId,
    reporter: UserId,
    title: string,
    description: Option<string>,
    status: Status,
    sensitive: bool,
    anonymous: bool)

  /** What every stored issue satisfies: its required title is non-empty (the
      reporter and the status are enforced by their types). */
  predicate WellFormed(i: Issue) {
    i.title != ""
  }

  /** Builds a document from the given paths and validates it as saving does:
      reporter and title are required (an empty string fails `required`),
      status must be an enum name and defaults to Pending, sensitive and
      anonymous default to false, description is optional. */
  function NewIssue(id: IssueId, reporter: Option<UserId>, title: Option<string>,
                    description: Option<string>, status: Option<string>,
                    sensitive: Option<bool>, anonymous: Option<bool>): (r: Result<Issue>)
    ensures r.Ok? <==> reporter.Some? && Supplied(title) && (status.Some? ==> status.value in StatusNames)
    ensures r.Ok? ==> WellFormed(r.value)
    ensures r.Ok? ==> r.value.id == id && r.value.reporter == reporter.value
                      && r.value.title == title.value && r.value.description == description
    ensures r.Ok? && status.None? ==> r.value.status == Pending
    ensures r.Ok? && status.Some? ==> StatusName(r.value.status) == status.value
    ensures r.Ok? ==> (r.value.sensitive <==> sensitive == Some(true))
                      && (r.value.anonymous <==> anonymous == Some(true))
  {
    if reporter.None? || !Supplied(title) then Err("Issue validation failed")
    else
      var st := if status.None? then Some(Pending) else ParseStatus(status.value);
      if st.None? then Err("Issue validation failed")
      else Ok(Issue(id, reporter.value, title.value, description, st.value,
                    sensitive.GetOr(false), anonymous.GetOr(false)))
  }

  /** With only the required paths given, the document takes the schema's
      defaults: Pending, not sensitive, not anonymous, no description. */
  lemma NewIssueDefaults(id: IssueId, reporter: UserId, title: string)
    requires title != ""
    ensures NewIssue(id, Some(reporter), Some(title), None, None, None, None)
            == Ok(Issue(id, reporter, title, None, Pending, false, false))
  {
  }
}
