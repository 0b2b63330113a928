/**
 * `app/admin/submissions/page.tsx`: the moderation page for submitted starter kits. It
 * loads the `kit_suggestions` rows (classifying a failing first query's error), formats
 * them, and moves one row at a time between `pending`, `approved` and `rejected`. The
 * database calls are parameters.
 */
module AdminSubmissions {
  import opened Wrappers
  import opened Text

  /** A row as the table returns it; `status` may be missing. */
  datatype Row = Row(id: string, repositoryUrl: string, submittedBy: string,
                     status: Option<string>, submittedAt: string)

  /** A row as the page keeps it. */
  datatype Submission = Submission(id: string, repositoryUrl: string, submittedBy: string,
                                   status: string, submittedAt: string, userEmail: string)

  /** The statuses the buttons set. */
  datatype Status = Pending | Approved | Rejected

  function Name(s: Status): string {
    match s
      case Pending => "pending"
      case Approved => "approved"
      case Rejected => "rejected"
  }

  /** A database error: its `code` and `message`, either possibly missing. */
  datatype DbError = DbError(code: Option<string>, message: Option<string>)

  /** What the page's `message` says about the last load. */
  datatype Notice = TableMissing | PermissionDenied | UnknownError | NoData

  /** How a query ended: rows (`data`, possibly null), a returned error, or an exception. */
  datatype Query = Ok(data: Option<seq<Row>>) | Err(error: DbError) | Threw

  const MissingTableMessage: string := "relation \"kit_suggestions\" does not exist"
  const PermissionMessage: string := "permission denied"

  /** A message that is present and contains `sub`. */
  predicate MessageHas(e: DbError, sub: string) {
    e.message.Some? && Contains(e.message.value, sub)
  }

  /** The error of the first query, classified in order: a missing table, then a denied
      permission, else unknown. */
  function Classify(e: DbError): (n: Notice)
    ensures n == TableMissing <==> e.code == Some("42P01") || MessageHas(e, MissingTableMessage)
    ensures n == PermissionDenied <==>
      !(e.code == Some("42P01") || MessageHas(e, MissingTableMessage))
      && (e.code == Some("42501") || MessageHas(e, PermissionMessage))
    ensures n == UnknownError <==>
      !(e.code == Some("42P01") || MessageHas(e, MissingTableMessage))
      && !(e.code == Some("42501") || MessageHas(e, PermissionMessage))
    ensures n != NoData
  {
    if e.code == Some("42P01") || MessageHas(e, MissingTableMessage) then TableMissing
    else if e.code == Some("42501") || MessageHas(e, PermissionMessage) then PermissionDenied
    else UnknownError
  }

  /** The rows as the page keeps them: every field copied, a missing or empty status read
      as `pending`, and the email always `Unknown`. */
  function Format(rows: seq<Row>): (subs: seq<Submission>)
    ensures |subs| == |rows|
    ensures forall i :: 0 <= i < |rows| ==>
      && subs[i].id == rows[i].id && subs[i].repositoryUrl == rows[i].repositoryUrl
      && subs[i].submittedBy == rows[i].submittedBy && subs[i].submittedAt == rows[i].submittedAt
      && subs[i].userEmail == "Unknown"
      && subs[i].status == (if rows[i].status.Some? then OrElse(rows[i].status.value, "pending") else "pending")
  {
    if rows == [] then []
    else
      var r := rows[0];
      var status := if r.status.Some? then OrElse(r.status.value, "pending") else "pending";
      [Submission(r.id, r.repositoryUrl, r.submittedBy, status, r.submittedAt, "Unknown")] + Format(rows[1..])
  }

  /** The list after the rows with id `id` were given `status`. */
  function WithStatus(subs: seq<Submission>, id: string, status: string): (r: seq<Submission>)
    ensures |r| == |subs|
    ensures forall i :: 0 <= i < |subs| ==>
      && r[i].id == subs[i].id
      && r[i].status == (if subs[i].id == id then status else subs[i].status)
      && r[i].(status := subs[i].status) == subs[i]
  {
    if subs == [] then []
    else [if subs[0].id == id then subs[0].(status := status) else subs[0]] + WithStatus(subs[1..], id, status)
  }

  /** The buttons a row with `status` offers: approve or reject a pending row, else reset
      it to pending. */
  function Actions(status: string): (acts: seq<Status>)
    ensures status == "pending" ==> acts == [Approved, Rejected]
    ensures status != "pending" ==> acts == [Pending]
  {
    if status == "pending" then [Approved, Rejected] else [Pending]
  }

  /** The status badges. */
  datatype Badge = PendingBadge | ApprovedBadge | RejectedBadge | UnknownBadge

  function BadgeFor(status: string): (b: Badge)
    ensures b == UnknownBadge <==> status != "pending" && status != "approved" && status != "rejected"
    ensures forall s :: status == Name(s) ==> b == [PendingBadge, ApprovedBadge, RejectedBadge][StatusIndex(s)]
  {
    if status == "pending" then PendingBadge
    else if status == "approved" then ApprovedBadge
    else if status == "rejected" then RejectedBadge
    else UnknownBadge
  }

  function StatusIndex(s: Status): nat {
    match s
      case Pending => 0
      case Approved => 1
      case Rejected => 2
  }

  /** The success toast's text. */
  function SuccessText(s: Status): (r: string)
    ensures s != Pending ==> r == "Submission " + Name(s) + " successfully."
    ensures s == Pending ==> r == "Submission " + "reset to pending" + " successfully."
  {
    "Submission " + (match s
      case Approved => "approved"
      case Rejected => "rejected"
      case Pending => "reset to pending") + " successfully."
  }

  /** What the card shows. */
  datatype Content = Spinner | NoSubmissions | SubmissionTable(rows: seq<Submission>)

  function Render(loading: bool, subs: seq<Submission>): (c: Content)
    ensures c == Spinner <==> loading
    ensures c == NoSubmissions <==> !loading && subs == []
    ensures c.SubmissionTable? ==> c.rows == subs
  {
    if loading then Spinner else if subs == [] then NoSubmissions else SubmissionTable(subs)
  }

  /** The page's state. */
  class SubmissionsPage {
    var submissions: seq<Submission>
    var loading: bool
    var message: Option<Notice>

    constructor ()
      ensures submissions == [] && loading && message.None?
    {
      submissions, loading, message := [], true, None;
    }

    /** `fetchSubmissions`: the probing query, then the full ordered query. `failed` is
        whether the error toast is shown. A null `data` from the full query fails in
        `data.map` and is caught like any other failure. */
    method FetchSubmissions(basic: Query, full: Query) returns (failed: bool)
      modifies this
      ensures !loading
      ensures basic.Err? ==> failed && message == Some(Classify(basic.error)) && submissions == old(submissions)
      ensures basic.Threw? ==> failed && message == old(message) && submissions == old(submissions)
      ensures basic.Ok? && full.Err? ==> failed && message == Some(UnknownError) && submissions == old(submissions)
      ensures basic.Ok? && (full.Threw? || full == Ok(None)) ==>
        failed && message == old(message) && submissions == old(submissions)
      ensures basic.Ok? && full.Ok? && full.data.Some? ==>
        && !failed && submissions == Format(full.data.value)
        && message == (if full.data.value == [] then Some(NoData) else None)
    {
      loading := true;
      failed := true;
      match basic {
        case Threw =>
        case Err(e) =>
          message := Some(Classify(e));
        case Ok(_) =>
          match full {
            case Threw =>
            case Err(_) =>
              message := Some(UnknownError);
            case Ok(data) =>
              if data.Some? {
                var formatted := Format(data.value);
                submissions := formatted;
                message := if |formatted| == 0 then Some(NoData) else None;
                failed := false;
              }
          }
      }
      loading := false;
    }

    /** `updateSubmissionStatus(id, status)`; `failed` is whether the update returned an
        error or threw. The toast is the one shown. */
    method UpdateSubmissionStatus(id: string, status: Status, failed: bool) returns (toast: string)
      modifies this
      ensures failed ==> submissions == old(submissions) && toast == "Failed to update submission. Please try again."
      ensures !failed ==> submissions == WithStatus(old(submissions), id, Name(status)) && toast == SuccessText(status)
      ensures loading == old(loading) && message == old(message)
    {
      if failed {
        return "Failed to update submission. Please try again.";
      }
      submissions := WithStatus(submissions, id, Name(status));
      toast := SuccessText(status);
    }
  }

  /** After a successful load the `no-data` notice is shown exactly when the card says that
      there are no submissions. */
  lemma NoDataIffEmptyCard(rows: seq<Row>)
    ensures (if Format(rows) == [] then Some(NoData) else None) == Some(NoData)
      <==> Render(false, Format(rows)) == NoSubmissions
  {
  }

  /** Setting the same status twice is setting it once, and the later of two statuses for
      one id wins. */
  lemma {:induction false} WithStatusLastWins(subs: seq<Submission>, id: string, s1: string, s2: string)
    ensures WithStatus(WithStatus(subs, id, s1), id, s2) == WithStatus(subs, id, s2)
  {
    var a := WithStatus(WithStatus(subs, id, s1), id, s2);
    var b := WithStatus(subs, id, s2);
    assert |a| == |b|;
    forall i | 0 <= i < |a| ensures a[i] == b[i] {
      var m := WithStatus(subs, id, s1);
      assert m[i].(status := subs[i].status) == subs[i];
      assert a[i].(status := m[i].status) == m[i];
      assert b[i].(status := subs[i].status) == subs[i];
    }
  }

  /** Updates of two different ids do not interfere: their order does not matter. */
  lemma {:induction false} WithStatusCommutes(subs: seq<Submission>, id1: string, s1: string, id2: string, s2: string)
    requires id1 != id2
    ensures WithStatus(WithStatus(subs, id1, s1), id2, s2) == WithStatus(WithStatus(subs, id2, s2), id1, s1)
  {
    var a := WithStatus(WithStatus(subs, id1, s1), id2, s2);
    var b := WithStatus(WithStatus(subs, id2, s2), id1, s1);
    forall i | 0 <= i < |a| ensures a[i] == b[i] {
      var m := WithStatus(subs, id1, s1);
      var n := WithStatus(subs, id2, s2);
      assert m[i].(status := subs[i].status) == subs[i];
      assert a[i].(status := m[i].status) == m[i];
      assert n[i].(status := subs[i].status) == subs[i];
      assert b[i].(status := n[i].status) == n[i];
    }
  }

  /** An id no row has leaves the list as it is. */
  lemma {:induction false} WithStatusAbsentId(subs: seq<Submission>, id: string, status: string)
    requires forall i :: 0 <= i < |subs| ==> subs[i].id != id
    ensures WithStatus(subs, id, status) == subs
  {
    var r := WithStatus(subs, id, status);
    forall i | 0 <= i < |subs| ensures r[i] == subs[i] {
      assert r[i].(status := subs[i].status) == subs[i];
    }
  }

  /** Every offered action changes the row's status, and from the status it leads to there
      is always an action back, for each of the three statuses. */
  lemma ActionsAreReversible(s: Status)
    ensures forall a :: a in Actions(Name(s)) ==> Name(a) != Name(s)
    ensures forall a :: a in Actions(Name(s)) ==> exists b :: b in Actions(Name(a)) && Name(b) == Name(s)
  {
    forall a | a in Actions(Name(s))
      ensures exists b :: b in Actions(Name(a)) && Name(b) == Name(s)
    {
      if s == Pending {
        assert Pending in Actions(Name(a));
      } else {
        assert s in Actions(Name(a));
      }
    }
  }

  /** A row whose status is none of the three offers only the reset to pending and shows
      the unknown badge. */
  lemma UnknownStatusCanBeReset(status: string)
    requires forall s :: Name(s) != status
    ensures Actions(status) == [Pending] && BadgeFor(status) == UnknownBadge
  {
    assert Name(Pending) != status && Name(Approved) != status && Name(Rejected) != status;
  }
}
