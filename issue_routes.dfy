/** The issue handlers: create, list all (role-gated), list own, and update
    status, over an in-memory store of issue documents kept in store order. */
module IssueRoutes {
  import opened Common
  import opened IssueModel

  /** The filter documents the handlers pass to `Issue.find`. */
  datatype Query = Everything | BySensitive(flag: bool) | ByReporter(reporter: UserId)

  predicate Matches(q: Query, i: Issue) {
    match q
    case Everything => true
    case BySensitive(flag) => i.sensitive == flag
    case ByReporter(u) => i.reporter == u
  }

  /** `Issue.find(q)`: every matching record, as often as it occurs, and no other. */
  function Find(s: seq<Issue>, q: Query): (r: seq<Issue>)
    ensures forall x :: x in r <==> x in s && Matches(q, x)
    ensures forall x :: multiset(r)[x] == if Matches(q, x) then multiset(s)[x] else 0
  {
    if s == [] then []
    else
      assert s == [s[0]] + s[1..];
      (if Matches(q, s[0]) then [s[0]] else []) + Find(s[1..], q)
  }

  /** The empty filter returns the whole store, in order. */
  lemma {:induction false} FindEverything(s: seq<Issue>)
    ensures Find(s, Everything) == s
  {
    if s != [] {
      FindEverything(s[1..]);
      assert s == [s[0]] + s[1..];
    }
  }

  /** `Issue.findById(id)`: the position of the first record with that id. */
  function IndexOfId(s: seq<Issue>, id: IssueId): (r: Option<nat>)
    ensures r.Some? ==> r.value < |s| && s[r.value].id == id
    ensures r.Some? ==> forall k :: 0 <= k < r.value ==> s[k].id != id
    ensures r.None? <==> forall k :: 0 <= k < |s| ==> s[k].id != id
  {
    FirstIndex(s, (i: Issue) => i.id == id)
  }

  predicate UniqueIds(s: seq<Issue>) {
    forall i, j :: 0 <= i < j < |s| ==> s[i].id != s[j].id
  }

  /** In a store with distinct ids, looking up a record's id finds that record. */
  lemma IndexOfStoredId(s: seq<Issue>, k: nat)
    requires UniqueIds(s) && k < |s|
    ensures IndexOfId(s, s[k].id) == Some(k)
  {
  }

  /** Lookup by id sees only the ids, so a store whose ids are those of
      another, position by position, gives the same answer. */
  lemma IndexOfSameIds(s: seq<Issue>, t: seq<Issue>, id: IssueId)
    requires |s| == |t|
    requires forall k :: 0 <= k < |s| ==> s[k].id == t[k].id
    ensures IndexOfId(s, id) == IndexOfId(t, id)
  {
    FirstIndexAgrees(s, (i: Issue) => i.id == id, t, (i: Issue) => i.id == id);
  }

  /** The outcome of `PATCH /:id/status`: the response code, the store
      afterwards and the record sent back on success. */
  datatype UpdateReply = UpdateReply(code: int, store: seq<Issue>, updated: Option<Issue>)

  /** The status-update policy. The status string is checked first (400),
      then the id is looked up (404), then Faculty is refused a sensitive
      issue (403); any other caller, Student included, succeeds from any
      current status, and only that record's status changes. */
  function StatusUpdate(s: seq<Issue>, caller: Caller, id: IssueId, status: string): (r: UpdateReply)
    ensures r.code == HttpBadRequest <==> status !in StatusNames
    ensures r.code == HttpNotFound <==> status in StatusNames && IndexOfId(s, id).None?
    ensures r.code == HttpForbidden <==>
              status in StatusNames && IndexOfId(s, id).Some?
              && caller.role == FacultyRole && s[IndexOfId(s, id).value].sensitive
    ensures r.code == HttpOk <==>
              status in StatusNames && IndexOfId(s, id).Some?
              && !(caller.role == FacultyRole && s[IndexOfId(s, id).value].sensitive)
    ensures r.code != HttpOk ==> r.store == s && r.updated.None?
    ensures r.code == HttpOk ==>
              var k := IndexOfId(s, id).value;
              && |r.store| == |s|
              && StatusName(r.store[k].status) == status
              && r.store[k] == s[k].(status := r.store[k].status)
              && r.updated == Some(r.store[k])
              && (forall j :: 0 <= j < |s| && j != k ==> r.store[j] == s[j])
  {
    match ParseStatus(status)
    case None => UpdateReply(HttpBadRequest, s, None)
    case Some(st) =>
      match IndexOfId(s, id)
      case None => UpdateReply(HttpNotFound, s, None)
      case Some(k) =>
        if caller.role == FacultyRole && s[k].sensitive then UpdateReply(HttpForbidden, s, None)
        else
          var changed := s[k].(status := st);
          UpdateReply(HttpOk, s[k := changed], Some(changed))
  }

  /** No ordering is imposed on statuses and no role but Faculty is checked:
      any caller allowed on the issue (a Student, or Faculty on a non-sensitive
      issue) may move it from any status to any other, Resolved back to
      Pending included. */
  lemma UpdateSucceedsFromAnyStatus(s: seq<Issue>, k: nat, caller: Caller, target: Status)
    requires UniqueIds(s) && k < |s|
    requires !(caller.role == FacultyRole && s[k].sensitive)
    ensures var r := StatusUpdate(s, caller, s[k].id, StatusName(target));
            r.code == HttpOk && r.store[k] == s[k].(status := target)
  {
    IndexOfStoredId(s, k);
    ParseStatusName(target);
  }

  /** Repeating a successful update is answered 200 again and changes nothing. */
  lemma StatusUpdateIdempotent(s: seq<Issue>, caller: Caller, id: IssueId, status: string)
    requires StatusUpdate(s, caller, id, status).code == HttpOk
    ensures var once := StatusUpdate(s, caller, id, status);
            var twice := StatusUpdate(once.store, caller, id, status);
            twice.code == HttpOk && twice.store == once.store && twice.updated == once.updated
  {
    var once := StatusUpdate(s, caller, id, status);
    IndexOfSameIds(s, once.store, id);
  }

  /** A sensitive issue is hidden from the Faculty query and a Faculty
      update of it is refused whatever the target status. */
  lemma FacultyExcludedFromSensitive(s: seq<Issue>, k: nat, caller: Caller, status: string)
    requires UniqueIds(s) && k < |s| && s[k].sensitive
    requires caller.role == FacultyRole && status in StatusNames
    ensures s[k] !in Find(s, BySensitive(false))
    ensures StatusUpdate(s, caller, s[k].id, status) == UpdateReply(HttpForbidden, s, None)
  {
    IndexOfStoredId(s, k);
  }

  /** The response to a listing: its code and the records in the body. */
  datatype Listing = Listing(code: int, issues: seq<Issue>)

  class IssueStore {
    var issues: seq<Issue>
    var nextId: IssueId

    /** Ids are distinct and below the next one handed out; every record
        passed the schema's validation. */
    ghost predicate Valid()
      reads this
    {
      && UniqueIds(issues)
      && (forall i :: 0 <= i < |issues| ==> issues[i].id < nextId && WellFormed(issues[i]))
    }

    constructor ()
      ensures Valid() && issues == []
    {
      issues := [];
      nextId := 0;
    }

    /** `POST /create`: the reporter is the caller, the status Pending and
        absent flags false; saving fails with 500 when the title is missing
        or empty, and then nothing is stored. */
    method Create(caller: Caller, title: Option<string>, description: Option<string>,
                  sensitive: Option<bool>, anonymous: Option<bool>)
      returns (code: int, saved: Option<Issue>)
      requires Valid()
      modifies this
      ensures Valid()
      ensures code == HttpCreated <==> Supplied(title)
      ensures code != HttpCreated ==> code == HttpServerError && saved.None? && issues == old(issues)
      ensures code == HttpCreated ==> saved.Some? && issues == old(issues) + [saved.value]
      ensures code == HttpCreated ==>
                && saved.value.reporter == caller.id
                && saved.value.title == title.value
                && saved.value.description == description
                && saved.value.status == Pending
                && (saved.value.sensitive <==> sensitive == Some(true))
                && (saved.value.anonymous <==> anonymous == Some(true))
      ensures code == HttpCreated ==> forall i :: 0 <= i < |old(issues)| ==> old(issues)[i].id != saved.value.id
    {
      var doc := NewIssue(nextId, Some(caller.id), title, description, Some(StatusName(Pending)),
                          Some(sensitive.GetOr(false)), Some(anonymous.GetOr(false)));
      match doc
      case Err(_) =>
        code, saved := HttpServerError, None;
      case Ok(issue) =>
        issues := issues + [issue];
        nextId := nextId + 1;
        code, saved := HttpCreated, Some(issue);
    }

    /** `GET /all`: only Admin and Faculty may list; Faculty gets exactly the
        non-sensitive issues, Admin every issue in store order; any other
        role gets 403 and no records. */
    function ListAll(caller: Caller): (r: Listing)
      reads this
      ensures r.code == HttpForbidden <==> caller.role != AdminRole && caller.role != FacultyRole
      ensures r.code == HttpForbidden ==> r.issues == []
      ensures caller.role == FacultyRole ==>
                r.code == HttpOk && forall x :: x in r.issues <==> x in issues && !x.sensitive
      ensures caller.role == FacultyRole ==>
                forall x :: multiset(r.issues)[x] == if !x.sensitive then multiset(issues)[x] else 0
      ensures caller.role == AdminRole ==> r.code == HttpOk && r.issues == issues
    {
      if caller.role != AdminRole && caller.role != FacultyRole then Listing(HttpForbidden, [])
      else if caller.role == FacultyRole then Listing(HttpOk, Find(issues, BySensitive(false)))
      else
        FindEverything(issues);
        Listing(HttpOk, Find(issues, Everything))
    }

    /** `GET /user`: for every role, exactly the issues the caller reported,
        sensitive or not. */
    function ListUser(caller: Caller): (r: Listing)
      reads this
      ensures r.code == HttpOk
      ensures forall x :: x in r.issues <==> x in issues && x.reporter == caller.id
      ensures forall x :: multiset(r.issues)[x] == if x.reporter == caller.id then multiset(issues)[x] else 0
    {
      Listing(HttpOk, Find(issues, ByReporter(caller.id)))
    }

    /** `PATCH /:id/status`, carried out in the handler's order. */
    method UpdateStatus(caller: Caller, id: IssueId, status: string)
      returns (code: int, updated: Option<Issue>)
      requires Valid()
      modifies this
      ensures Valid() && nextId == old(nextId)
      ensures var r := StatusUpdate(old(issues), caller, id, status);
              code == r.code && updated == r.updated && issues == r.store
    {
      var target := ParseStatus(status);
      if target.None? {
        return HttpBadRequest, None;
      }
      var found := IndexOfId(issues, id);
      if found.None? {
        return HttpNotFound, None;
      }
      var k := found.value;
      if caller.role == FacultyRole && issues[k].sensitive {
        return HttpForbidden, None;
      }
      issues := issues[k := issues[k].(status := target.value)];
      code, updated := HttpOk, Some(issues[k]);
    }
  }

  /** A walk through a sensitive report: Faculty neither sees nor updates it,
      Admin does both, and the student still sees it with the new status. */
  method SensitiveReportWalkthrough() {
    var store := new IssueStore();
    var student := Caller(1, StudentRole);
    var faculty := Caller(2, FacultyRole);
    var admin := Caller(3, AdminRole);

    var code, saved := store.Create(student, Some("Harassment in hostel"), None, Some(true), None);
    assert code == HttpCreated && store.issues == [saved.value];
    var issue := saved.value;
    assert issue.sensitive && issue.status == Pending;

    assert issue !in store.ListAll(faculty).issues;
    assert issue in store.ListAll(admin).issues;
    assert store.ListAll(student).code == HttpForbidden;

    ParseStatusName(Resolved);
    code, saved := store.UpdateStatus(faculty, issue.id, "Resolved");
    assert code == HttpForbidden && store.issues == [issue];

    code, saved := store.UpdateStatus(admin, issue.id, "Resolved");
    assert code == HttpOk && store.issues == [issue.(status := Resolved)];
    assert issue.(status := Resolved) in store.ListUser(student).issues;
  }

  /** A walk through an open report: Faculty sees it and resolves it, and the
      student's own listing shows it resolved. */
  method OpenReportWalkthrough() {
    var store := new IssueStore();
    var student := Caller(1, StudentRole);
    var faculty := Caller(2, FacultyRole);

    var code, saved := store.Create(student, Some("Broken projector"), Some("Room 101"), None, None);
    assert code == HttpCreated && store.issues == [saved.value];
    var issue := saved.value;
    assert !issue.sensitive && !issue.anonymous;
    assert issue in store.ListAll(faculty).issues;

    ParseStatusName(Resolved);
    code, saved := store.UpdateStatus(faculty, issue.id, "Resolved");
    assert code == HttpOk && store.issues == [issue.(status := Resolved)];
    assert issue.(status := Resolved) in store.ListUser(student).issues;
  }
}
