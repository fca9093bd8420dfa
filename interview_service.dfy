/**
 * The interview service: scheduling an interview (which also marks the
 * application as having one scheduled), reading and updating an interview,
 * and listing an application's interviews by time.
 */
module InterviewService {
  import opened Wrappers
  import opened Http
  import opened Models
  import opened Schemas
  import opened Store
  import opened Query
  import opened ApplicationService

  const INTERVIEW_NOT_FOUND := "Interview not found"
  /** The interview status that completes the application's interview stage. */
  const COMPLETED := "completed"

  function ForApplication(appId: int): Interview -> bool {
    (iv: Interview) => iv.applicationId == appId
  }

  /** Sorting by the negated time puts the earliest interview first. */
  const EarliestFirst := (iv: Interview) => -iv.scheduledAt

  /** The row `Interview(**data)` inserted under the next key. */
  function NewInterview(id: int, data: InterviewCreate): Interview {
    Interview(id, data.applicationId, data.scheduledAt, data.status)
  }

  /** The database after one application's status was set to `status` (and its row touched). */
  function WithApplicationStatus(d: Db, appId: int, status: string, now: int): Db
    requires appId in d.applications
  {
    var a := d.applications[appId];
    d.(applications := d.applications[appId := TouchApplication(a, a.(status := status), now)])
  }

  // ---------------------------------------------------------------------
  // create_interview
  // ---------------------------------------------------------------------

  function CreateInterviewStep(d: Db, data: InterviewCreate, now: int): (s: Step<Interview>)
    ensures s.result.Raised? ==> s == Step(d, Raised(HTTP_404_NOT_FOUND, APPLICATION_NOT_FOUND))
    ensures s.result.Ok? <==> data.applicationId in d.applications
    ensures s.result.Ok? ==>
              var iv := s.result.value;
              && iv == NewInterview(d.nextInterviewId, data)
              && s.db.interviews == d.interviews[iv.id := iv]
              && s.db.nextInterviewId == d.nextInterviewId + 1
              && s.db.jobs == d.jobs
              && StatusWritten(d, s.db.(interviews := d.interviews, nextInterviewId := d.nextInterviewId),
                               data.applicationId, StatusValue(InterviewScheduled))
  {
    match FindApplication(d, data.applicationId)
    case Raised(code, detail) => Step(d, Raised(code, detail))
    case Ok(a) =>
      var iv := NewInterview(d.nextInterviewId, data);
      var d1 := d.(interviews := d.interviews[iv.id := iv], nextInterviewId := d.nextInterviewId + 1);
      Step(WithApplicationStatus(d1, data.applicationId, StatusValue(InterviewScheduled), now), Ok(iv))
  }

  /** Scheduling an interview keeps the database valid. */
  lemma CreateInterviewKeepsValid(d: Db, data: InterviewCreate, now: int)
    requires Valid(d)
    ensures Valid(CreateInterviewStep(d, data, now).db)
  {
    if data.applicationId in d.applications {
      var iv := NewInterview(d.nextInterviewId, data);
      var d1 := d.(interviews := d.interviews[iv.id := iv], nextInterviewId := d.nextInterviewId + 1);
      assert Valid(d1);
      var a := d1.applications[data.applicationId];
      RewriteApplication(d1, TouchApplication(a, a.(status := StatusValue(InterviewScheduled)), now));
    }
  }

  method CreateInterview(db: Database, data: InterviewCreate, now: int) returns (r: Http<Interview>)
    requires Valid(db.Snapshot())
    modifies db
    ensures Step(db.Snapshot(), r) == CreateInterviewStep(old(db.Snapshot()), data, now)
    ensures Valid(db.Snapshot())
  {
    var found := FindApplication(db.Snapshot(), data.applicationId);
    if found.Raised? {
      return Raised(found.status, found.detail);
    }
    var a := found.value;
    CreateInterviewKeepsValid(db.Snapshot(), data, now);
    var iv := NewInterview(db.nextInterviewId, data);
    db.interviews := db.interviews[iv.id := iv];
    db.nextInterviewId := db.nextInterviewId + 1;
    db.applications := db.applications[data.applicationId := TouchApplication(a, a.(status := StatusValue(InterviewScheduled)), now)];
    r := Ok(iv);
  }

  // ---------------------------------------------------------------------
  // get_interview and update_interview
  // ---------------------------------------------------------------------

  function FindInterview(d: Db, id: int): (r: Http<Interview>)
    ensures r.Ok? <==> id in d.interviews
    ensures r.Ok? ==> r.value == d.interviews[id]
    ensures r.Raised? ==> r == Raised(HTTP_404_NOT_FOUND, INTERVIEW_NOT_FOUND)
  {
    if id in d.interviews then Ok(d.interviews[id]) else Raised(HTTP_404_NOT_FOUND, INTERVIEW_NOT_FOUND)
  }

  /** `setattr` for each field the request supplied; the others keep their values. */
  function ApplyInterviewUpdate(iv: Interview, u: InterviewUpdate): (r: Interview)
    ensures r.id == iv.id && r.applicationId == iv.applicationId
    ensures r.scheduledAt == (if u.scheduledAt.Some? then u.scheduledAt.value else iv.scheduledAt)
    ensures r.status == (if u.status.Some? then u.status.value else iv.status)
  {
    var iv1 := if u.scheduledAt.Some? then iv.(scheduledAt := u.scheduledAt.value) else iv;
    if u.status.Some? then iv1.(status := u.status.value) else iv1
  }

  /** Applying the same partial update twice is applying it once. */
  lemma ApplyInterviewUpdateIdempotent(iv: Interview, u: InterviewUpdate)
    ensures ApplyInterviewUpdate(ApplyInterviewUpdate(iv, u), u) == ApplyInterviewUpdate(iv, u)
  {
  }

  function UpdateInterviewStep(d: Db, id: int, u: InterviewUpdate, now: int): (s: Step<Interview>)
    requires Valid(d)
    ensures s.result.Raised? ==> s == Step(d, Raised(HTTP_404_NOT_FOUND, INTERVIEW_NOT_FOUND))
    ensures s.result.Ok? <==> id in d.interviews
    ensures s.result.Ok? ==>
              && s.result.value == ApplyInterviewUpdate(d.interviews[id], u)
              && s.db.interviews == d.interviews[id := s.result.value]
              && s.db.jobs == d.jobs
    ensures s.result.Ok? && u.status != Some(COMPLETED) ==> s.db == d.(interviews := s.db.interviews)
    ensures s.result.Ok? && u.status == Some(COMPLETED) ==>
              StatusWritten(d, s.db.(interviews := d.interviews), d.interviews[id].applicationId,
                            StatusValue(InterviewCompleted))
  {
    match FindInterview(d, id)
    case Raised(code, detail) => Step(d, Raised(code, detail))
    case Ok(iv) =>
      var iv' := ApplyInterviewUpdate(iv, u);
      var d1 := d.(interviews := d.interviews[id := iv']);
      if u.status == Some(COMPLETED) then
        Step(WithApplicationStatus(d1, iv.applicationId, StatusValue(InterviewCompleted), now), Ok(iv'))
      else
        Step(d1, Ok(iv'))
  }

  lemma UpdateInterviewKeepsValid(d: Db, id: int, u: InterviewUpdate, now: int)
    requires Valid(d)
    ensures Valid(UpdateInterviewStep(d, id, u, now).db)
  {
    if id in d.interviews {
      var iv := d.interviews[id];
      var d1 := d.(interviews := d.interviews[id := ApplyInterviewUpdate(iv, u)]);
      assert Valid(d1);
      if u.status == Some(COMPLETED) {
        var a := d1.applications[iv.applicationId];
        RewriteApplication(d1, TouchApplication(a, a.(status := StatusValue(InterviewCompleted)), now));
      }
    }
  }

  method UpdateInterview(db: Database, id: int, u: InterviewUpdate, now: int) returns (r: Http<Interview>)
    requires Valid(db.Snapshot())
    modifies db
    ensures Step(db.Snapshot(), r) == UpdateInterviewStep(old(db.Snapshot()), id, u, now)
    ensures Valid(db.Snapshot())
  {
    var found := FindInterview(db.Snapshot(), id);
    if found.Raised? {
      return found;
    }
    var iv := found.value;
    UpdateInterviewKeepsValid(db.Snapshot(), id, u, now);
    var iv' := ApplyInterviewUpdate(iv, u);
    db.interviews := db.interviews[id := iv'];
    if u.status == Some(COMPLETED) {
      var a := db.applications[iv.applicationId];
      db.applications := db.applications[a.id := TouchApplication(a, a.(status := StatusValue(InterviewCompleted)), now)];
    }
    r := Ok(iv');
  }

  // ---------------------------------------------------------------------
  // get_application_interviews
  // ---------------------------------------------------------------------

  /** The application's interviews, earliest first. */
  method GetApplicationInterviews(db: Database, appId: int) returns (rows: seq<Interview>)
    ensures Selected(rows, db.interviews, ForApplication(appId), EarliestFirst)
    ensures forall i, j :: 0 <= i < j < |rows| ==> rows[i].scheduledAt <= rows[j].scheduledAt
  {
    rows := Select(db.interviews, ForApplication(appId), EarliestFirst);
    ghost var ids :| Answers(rows, ids, db.interviews, ForApplication(appId), EarliestFirst);
    forall i, j | 0 <= i < j < |rows|
      ensures rows[i].scheduledAt <= rows[j].scheduledAt
    {
      assert EarliestFirst(rows[i]) >= EarliestFirst(rows[j]);
    }
  }
}
