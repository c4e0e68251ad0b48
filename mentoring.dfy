/** The mentoring service (mentoring.service.ts): a parent files a mentoring
    request, which starts PENDING; the parent may cancel it while it is
    PENDING, and an admin matches or rejects it while it is PENDING. */
module Mentoring {
  import opened Common

  /** The four statuses the service assigns (CANCELLED included). */
  datatype MentoringStatus = Pending | Matched | Rejected | Cancelled

  /** A mentoring request row, with the columns the service writes. */
  datatype MentoringRequest = MentoringRequest(
    id: nat,
    parentId: int,
    childId: int,
    title: string,
    childName: string,
    childAge: string,
    requirement: string,
    status: MentoringStatus,
    mentorName: Option<string>)

  function RequestId(m: MentoringRequest): int { m.id }

  /** MentoringRequestDto. */
  datatype RequestForm = RequestForm(childId: int, title: string, childName: string, childAge: string, requirement: string)

  /** The name the admin path records when it matches a request that has none. */
  const AdminMatchedName: string := "Admin Matched"

  function IsRequestOf(parentId: int): MentoringRequest -> bool {
    (m: MentoringRequest) => m.parentId == parentId
  }

  function IsPending(m: MentoringRequest): bool { m.status == Pending }

  /** The parent's cancellation of a request already found: only a PENDING
      request may be cancelled, and only its status changes. */
  function CancelTransition(m: MentoringRequest): (r: Result<MentoringRequest>)
    ensures r.Err? <==> m.status != Pending
    ensures r.Err? ==> r.error == CancelNotPending
    ensures r.Ok? ==> r.value.status == Cancelled && r.value.(status := m.status) == m
  {
    if m.status != Pending then Err(CancelNotPending) else Ok(m.(status := Cancelled))
  }

  /** The admin decision on a request already found: only a PENDING request
      may be decided; a match keeps a non-empty mentor name or records
      AdminMatchedName, any other decision leaves the name alone. */
  function AdminTransition(m: MentoringRequest, status: MentoringStatus): (r: Result<MentoringRequest>)
    ensures r.Err? <==> m.status != Pending
    ensures r.Err? ==> r.error == AdminNotPending
    ensures r.Ok? ==> r.value.status == status
    ensures r.Ok? ==> r.value.(status := m.status, mentorName := m.mentorName) == m
    ensures r.Ok? && status == Matched ==> Truthy(r.value.mentorName)
    ensures r.Ok? && status == Matched && Truthy(m.mentorName) ==> r.value.mentorName == m.mentorName
    ensures r.Ok? && status == Matched && !Truthy(m.mentorName) ==> r.value.mentorName == Some(AdminMatchedName)
    ensures r.Ok? && status != Matched ==> r.value.mentorName == m.mentorName
  {
    if m.status != Pending then Err(AdminNotPending)
    else if status == Matched then
      Ok(m.(status := status, mentorName := if Truthy(m.mentorName) then m.mentorName else Some(AdminMatchedName)))
    else
      Ok(m.(status := status))
  }

  /** The unguarded status update: any current status is overwritten, and
      the mentor name changes only when a non-empty one is supplied. */
  function StatusUpdate(m: MentoringRequest, status: MentoringStatus, mentorName: Option<string>): (v: MentoringRequest)
    ensures v.status == status
    ensures Truthy(mentorName) ==> v.mentorName == mentorName
    ensures !Truthy(mentorName) ==> v.mentorName == m.mentorName
    ensures v.(status := m.status, mentorName := m.mentorName) == m
  {
    m.(status := status, mentorName := if Truthy(mentorName) then mentorName else m.mentorName)
  }

  /** A cancelled request is closed: it can be neither cancelled again nor decided by an admin. */
  lemma CancelIsFinal(m: MentoringRequest, status: MentoringStatus)
    requires CancelTransition(m).Ok?
    ensures CancelTransition(CancelTransition(m).value).Err?
    ensures AdminTransition(CancelTransition(m).value, status) == Err(AdminNotPending)
  {
  }

  /** An admin decision other than PENDING is final for both guarded paths. */
  lemma AdminDecisionIsFinal(m: MentoringRequest, status: MentoringStatus, next: MentoringStatus)
    requires AdminTransition(m, status).Ok? && status != Pending
    ensures AdminTransition(AdminTransition(m, status).value, next) == Err(AdminNotPending)
    ensures CancelTransition(AdminTransition(m, status).value) == Err(CancelNotPending)
  {
  }

  class MentoringTable {
    var rows: seq<MentoringRequest>

    ghost predicate Valid()
      reads this
    {
      Numbered(rows, RequestId)
    }

    constructor (rows: seq<MentoringRequest>)
      requires Numbered(rows, RequestId)
      ensures Valid() && this.rows == rows
    {
      this.rows := rows;
    }

    /** `findOne({ where: { id } })`. */
    function Find(id: int): Option<MentoringRequest>
      reads this
      requires Valid()
    {
      FindById(rows, RequestId, id)
    }
  }

  class MentoringService {
    const requests: MentoringTable

    constructor (requests: MentoringTable)
      ensures this.requests == requests
    {
      this.requests := requests;
    }

    /** createMentoringRequest: stored under the caller's id, PENDING, with no mentor. */
    method CreateMentoringRequest(parentId: int, form: RequestForm) returns (r: MentoringRequest)
      requires requests.Valid()
      modifies requests
      ensures requests.Valid()
      ensures r == MentoringRequest(|old(requests.rows)| + 1, parentId, form.childId, form.title,
                                    form.childName, form.childAge, form.requirement, Pending, None)
      ensures requests.rows == old(requests.rows) + [r]
    {
      r := MentoringRequest(|requests.rows| + 1, parentId, form.childId, form.title,
                            form.childName, form.childAge, form.requirement, Pending, None);
      NumberedAppend(requests.rows, r, RequestId);
      requests.rows := requests.rows + [r];
    }

    /** getMentoringRequestsByParentId: exactly that parent's requests, newest first. */
    function GetMentoringRequestsByParentId(parentId: int): (r: seq<MentoringRequest>)
      reads requests
      requires requests.Valid()
      ensures forall m :: m in r <==> m in requests.rows && m.parentId == parentId
      ensures StrictlyDecreasing(r, RequestId)
    {
      var mine := Filter(requests.rows, IsRequestOf(parentId));
      NumberedIncreasing(requests.rows, RequestId);
      FilterKeepsOrder(requests.rows, IsRequestOf(parentId), RequestId);
      ReverseFlipsOrder(mine, RequestId);
      Reverse(mine)
    }

    /** getMentoringRequestById: found only when both the id and the owner match. */
    function GetMentoringRequestById(id: int, parentId: int): (r: Result<MentoringRequest>)
      reads requests
      requires requests.Valid()
      ensures r.Ok? <==> exists m :: m in requests.rows && m.id == id && m.parentId == parentId
      ensures r.Ok? ==> r.value in requests.rows && r.value.id == id && r.value.parentId == parentId
      ensures r.Err? ==> r.error == RequestNotFound
    {
      match requests.Find(id)
      case Some(m) =>
        if m.parentId == parentId then
          assert requests.rows[id - 1] == m;
          Ok(m)
        else
          Err(RequestNotFound)
      case None => Err(RequestNotFound)
    }

    /** cancelMentoringRequest: another parent's request is not found; a
        non-PENDING request is refused; either way nothing changes. */
    method CancelMentoringRequest(id: int, parentId: int) returns (r: Result<Ack>)
      requires requests.Valid()
      modifies requests
      ensures requests.Valid()
      ensures old(GetMentoringRequestById(id, parentId)).Err? ==>
        r == Err(RequestNotFound) && requests.rows == old(requests.rows)
      ensures old(GetMentoringRequestById(id, parentId)).Ok? ==>
        var m := old(GetMentoringRequestById(id, parentId)).value;
        match CancelTransition(m)
        case Err(e) => r == Err(e) && requests.rows == old(requests.rows)
        case Ok(cancelled) => r == Ok(Ack(true)) && requests.rows == old(requests.rows)[id - 1 := cancelled]
    {
      var found := GetMentoringRequestById(id, parentId);
      if found.Err? {
        return Err(found.error);
      }
      var next := CancelTransition(found.value);
      if next.Err? {
        return Err(next.error);
      }
      NumberedUpdate(requests.rows, id - 1, next.value, RequestId);
      requests.rows := requests.rows[id - 1 := next.value];
      r := Ok(Ack(true));
    }

    /** updateMentoringStatus: no owner check and no status guard. */
    method UpdateMentoringStatus(id: int, status: MentoringStatus, mentorName: Option<string>)
      returns (r: Result<MentoringRequest>)
      requires requests.Valid()
      modifies requests
      ensures requests.Valid()
      ensures old(requests.Find(id)).None? ==> r == Err(RequestNotFound) && requests.rows == old(requests.rows)
      ensures old(requests.Find(id)).Some? ==>
        var updated := StatusUpdate(old(requests.Find(id)).value, status, mentorName);
        r == Ok(updated) && requests.rows == old(requests.rows)[id - 1 := updated]
    {
      var found := requests.Find(id);
      if found.None? {
        return Err(RequestNotFound);
      }
      var updated := StatusUpdate(found.value, status, mentorName);
      NumberedUpdate(requests.rows, id - 1, updated, RequestId);
      requests.rows := requests.rows[id - 1 := updated];
      r := Ok(updated);
    }

    /** findPendingRequestsForAdmin: exactly the PENDING requests, oldest first. */
    function FindPendingRequestsForAdmin(): (r: seq<MentoringRequest>)
      reads requests
      requires requests.Valid()
      ensures forall m :: m in r <==> m in requests.rows && m.status == Pending
      ensures StrictlyIncreasing(r, RequestId)
    {
      NumberedIncreasing(requests.rows, RequestId);
      FilterKeepsOrder(requests.rows, IsPending, RequestId);
      Filter(requests.rows, IsPending)
    }

    /** adminUpdateStatus: the guarded admin decision on any request. */
    method AdminUpdateStatus(id: int, status: MentoringStatus) returns (r: Result<MentoringRequest>)
      requires requests.Valid()
      modifies requests
      ensures requests.Valid()
      ensures old(requests.Find(id)).None? ==> r == Err(RequestNotFound) && requests.rows == old(requests.rows)
      ensures old(requests.Find(id)).Some? ==>
        match AdminTransition(old(requests.Find(id)).value, status)
        case Err(e) => r == Err(e) && requests.rows == old(requests.rows)
        case Ok(decided) => r == Ok(decided) && requests.rows == old(requests.rows)[id - 1 := decided]
    {
      var found := requests.Find(id);
      if found.None? {
        return Err(RequestNotFound);
      }
      var next := AdminTransition(found.value, status);
      if next.Err? {
        return Err(next.error);
      }
      NumberedUpdate(requests.rows, id - 1, next.value, RequestId);
      requests.rows := requests.rows[id - 1 := next.value];
      r := next;
    }
  }
}
