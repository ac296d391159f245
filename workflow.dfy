/** The per-record rules of core/views.py: which roles may call each handler, and what
    a handler makes of the one record it creates or changes (an SOS alert acknowledged
    or resolved, a task started or completed, a visit logged, a message soft-deleted,
    a video uploaded). The store methods in module Handlers are specified by these. */
module Workflow {
  import opened Base
  import opened Text
  import opened Models
  import opened Forms

  /** The logged-in user making a request. */
  datatype Principal = Principal(id: nat, role: string, fullName: string)

  /** The routed handlers this model covers. */
  datatype Action =
    | PatientHome | StartTask | CompleteTask
    | ConfirmAppointment | CancelAppointment | LogVisitById | UpdateVisitRecord
    | AddFeedback | AddTherapistNotes | VisitDetails
    | MessageBox | SendMessage | DeleteMessage
    | SendSosAlert | AcknowledgeSosAlert | ResolveSosAlert
    | UploadExerciseVideo | ViewExerciseVideos | WatchVideo | DeleteVideo

  /** The role check a handler makes before it reads or changes anything. */
  predicate Permits(a: Action, role: string)
  {
    match a
    case PatientHome | StartTask | CompleteTask | SendSosAlert | ViewExerciseVideos | WatchVideo =>
      role == PATIENT
    case ConfirmAppointment | LogVisitById =>
      role == DOCTOR
    case AddFeedback | AddTherapistNotes | UploadExerciseVideo | DeleteVideo =>
      role == THERAPIST
    case AcknowledgeSosAlert | ResolveSosAlert =>
      role == DOCTOR || role == THERAPIST
    case CancelAppointment | UpdateVisitRecord | VisitDetails | MessageBox | SendMessage | DeleteMessage =>
      true
  }

  /** Six handlers make no role check at all; ownership of the record is their only guard. */
  lemma UngatedHandlers(role: string)
    ensures Permits(CancelAppointment, role) && Permits(UpdateVisitRecord, role)
    ensures Permits(DeleteMessage, role) && Permits(SendMessage, role)
    ensures Permits(MessageBox, role) && Permits(VisitDetails, role)
  {
  }

  /** SOS alerts raise for patients only and are handled by doctors and therapists only. */
  lemma SosRoles(role: string)
    ensures Permits(SendSosAlert, role) <==> role == PATIENT
    ensures Permits(AcknowledgeSosAlert, role) <==> role == DOCTOR || role == THERAPIST
    ensures Permits(ResolveSosAlert, role) <==> role == DOCTOR || role == THERAPIST
  {
  }

  /** How a handler ended, as far as the store is concerned. */
  datatype Outcome =
    | Performed     // the record was created or changed
    | Denied        // the role check failed; redirect to login or a dashboard
    | NotFound      // get_object_or_404 raised Http404
    | Warned        // a guard refused with a warning message
    | Invalid       // the bound form did not validate
    | Unchanged     // a GET or an unbound form: nothing to do
    | Shown         // a page or a listing was produced; nothing changed
    | ServerError   // an uncaught exception (DoesNotExist, IntegrityError, ValueError)

  // ---------------------------------------------------------------- SOS alerts

  /** An alert no later step leaves half-done: acknowledged means both flags and a
      time, resolved means a resolution time. */
  predicate AlertConsistent(a: SOSAlert)
  {
    (a.status == Acknowledged ==> a.acknowledgedByDoctor && a.acknowledgedByTherapist && a.acknowledgedAt.Some?) &&
    (a.status == Resolved ==> a.resolvedAt.Some?)
  }

  /** The alert send_sos_alert creates; an empty message is stored as NULL. */
  function NewAlert(id: nat, patient: nat, message: string, now: int): (a: SOSAlert)
    ensures a.status == Active && !a.acknowledgedByDoctor && !a.acknowledgedByTherapist
    ensures a.acknowledgedAt.None? && a.resolvedAt.None?
    ensures a.message.None? <==> message == ""
    ensures a.message.Some? ==> a.message.value == message
    ensures a.id == id && a.patient == patient && a.createdAt == now
    ensures AlertConsistent(a)
  {
    DefaultAlert(id, patient, now).(message := if message != "" then Some(message) else None, status := Active)
  }

  /** The alert after acknowledge_sos_alert by a user with the given role. */
  function AcknowledgedBy(a: SOSAlert, role: string, now: int): (r: SOSAlert)
    ensures r.acknowledgedByDoctor == (a.acknowledgedByDoctor || role == DOCTOR)
    ensures r.acknowledgedByTherapist == (a.acknowledgedByTherapist || role == THERAPIST)
    ensures r.acknowledgedByDoctor && r.acknowledgedByTherapist ==>
              r.status == Acknowledged && r.acknowledgedAt == Some(now)
    ensures !(r.acknowledgedByDoctor && r.acknowledgedByTherapist) ==>
              r.status == a.status &&
              r.acknowledgedAt == (if a.acknowledgedAt.None? then Some(now) else a.acknowledgedAt)
    ensures r.(status := a.status, acknowledgedAt := a.acknowledgedAt,
               acknowledgedByDoctor := a.acknowledgedByDoctor,
               acknowledgedByTherapist := a.acknowledgedByTherapist) == a
    ensures AlertConsistent(a) ==> AlertConsistent(r)
  {
    var flagged :=
      if role == DOCTOR then a.(acknowledgedByDoctor := true)
      else if role == THERAPIST then a.(acknowledgedByTherapist := true)
      else a;
    if flagged.acknowledgedByDoctor && flagged.acknowledgedByTherapist then
      flagged.(status := Acknowledged, acknowledgedAt := Some(now))
    else if flagged.acknowledgedAt.None? then
      flagged.(acknowledgedAt := Some(now))
    else
      flagged
  }

  /** The alert after resolve_sos_alert, from whatever status it had. */
  function ResolvedAt(a: SOSAlert, now: int): (r: SOSAlert)
    ensures r.status == Resolved && r.resolvedAt == Some(now)
    ensures r.(status := a.status, resolvedAt := a.resolvedAt) == a
    ensures AlertConsistent(r)
  {
    a.(status := Resolved, resolvedAt := Some(now))
  }

  /** Acknowledging never reads the status: two alerts that differ only in status
      come out differing at most in status. */
  lemma AcknowledgeIgnoresStatus(a: SOSAlert, s: AlertStatus, role: string, now: int)
    ensures AcknowledgedBy(a.(status := s), role, now).(status := a.status) ==
            AcknowledgedBy(a, role, now).(status := a.status)
  {
  }

  /** So a resolved alert acknowledged by the second role goes back to acknowledged,
      and its resolution time stays. */
  lemma ResolvedThenAcknowledged(a: SOSAlert, t1: int, t2: int)
    requires a.acknowledgedByDoctor
    ensures var r := AcknowledgedBy(ResolvedAt(a, t1), THERAPIST, t2);
      r.status == Acknowledged && r.acknowledgedAt == Some(t2) && r.resolvedAt == Some(t1)
  {
  }

  /** Doctor then therapist, or therapist then doctor: either way the alert ends
      acknowledged at the second time, with both flags set. */
  lemma AcknowledgeOrderIrrelevant(a: SOSAlert, t1: int, t2: int)
    requires !a.acknowledgedByDoctor && !a.acknowledgedByTherapist
    ensures AcknowledgedBy(AcknowledgedBy(a, DOCTOR, t1), THERAPIST, t2) ==
            AcknowledgedBy(AcknowledgedBy(a, THERAPIST, t1), DOCTOR, t2)
    ensures var r := AcknowledgedBy(AcknowledgedBy(a, DOCTOR, t1), THERAPIST, t2);
      r.status == Acknowledged && r.acknowledgedAt == Some(t2) &&
      r.acknowledgedByDoctor && r.acknowledgedByTherapist
  {
  }

  /** A new alert acknowledged by one role only stays active and records the first
      acknowledgment time; a repeat by the same role changes nothing. */
  lemma SingleRoleAcknowledgment(id: nat, patient: nat, message: string, t0: int, t1: int, t2: int)
    ensures var a1 := AcknowledgedBy(NewAlert(id, patient, message, t0), DOCTOR, t1);
      a1.status == Active && a1.acknowledgedAt == Some(t1) &&
      AcknowledgedBy(a1, DOCTOR, t2) == a1
  {
  }

  // ---------------------------------------------------------------- tasks

  /** A completed task has a completion time and a duration of at least one minute. */
  predicate TaskConsistent(t: PatientTask)
  {
    t.status == Done ==> t.completedAt.Some? && t.durationMinutes.Some? && t.durationMinutes.value >= 1
  }

  /** The task start_task creates: in progress since `now`, named after its type. */
  function StartedTask(id: nat, patient: nat, f: TaskInput, now: int): (t: PatientTask)
    requires TaskFormValid(f)
    ensures t.status == InProgress && t.startedAt == Some(now)
    ensures t.taskType == f.taskType && t.taskName == TaskTypeLabel(f.taskType)
    ensures t.durationMinutes == (if f.durationMinutes.Some? then Some(f.durationMinutes.value as nat) else None)
    ensures t.completedAt.None? && t.feedback == "" && t.id == id && t.patient == patient
    ensures TaskConsistent(t)
  {
    HomeStartedTask(id, patient, f, now).(taskName := DictGet(TASK_TYPE_CHOICES, f.taskType, UNKNOWN_TASK))
  }

  /** Through the form, the derived name is always a listed label, never "Unknown Task". */
  lemma StartedTaskNamed(id: nat, patient: nat, f: TaskInput, now: int)
    requires TaskFormValid(f)
    ensures exists i :: 0 <= i < |TASK_TYPE_CHOICES| && TASK_TYPE_CHOICES[i] == (f.taskType, StartedTask(id, patient, f, now).taskName)
    ensures StartedTask(id, patient, f, now).taskName != UNKNOWN_TASK
  {
    var i :| 0 <= i < |TASK_TYPE_CHOICES| && TASK_TYPE_CHOICES[i].0 == f.taskType;
    assert TASK_TYPE_CHOICES[i] == (f.taskType, StartedTask(id, patient, f, now).taskName);
  }

  /** The task patient_home's task branch creates: as start_task, but task_name stays blank. */
  function HomeStartedTask(id: nat, patient: nat, f: TaskInput, now: int): (t: PatientTask)
    requires TaskFormValid(f)
    ensures t.status == InProgress && t.startedAt == Some(now) && t.taskType == f.taskType
    ensures t.durationMinutes == (if f.durationMinutes.Some? then Some(f.durationMinutes.value as nat) else None)
    ensures t.taskName == "" && t.completedAt.None? && t.feedback == ""
    ensures t.id == id && t.patient == patient
    ensures TaskConsistent(t)
  {
    DefaultTask(id, patient).(
      durationMinutes := if f.durationMinutes.Some? then Some(f.durationMinutes.value as nat) else None,
      taskType := f.taskType, status := InProgress, startedAt := Some(now))
  }

  function Abs(x: int): nat { if x < 0 then -x else x }

  /** Python's round(seconds / 60) on whole seconds: the nearest whole number of
      minutes, halves going to the even neighbour. */
  function RoundMinutes(seconds: int): (m: int)
    ensures 2 * Abs(seconds - 60 * m) <= 60
    ensures 2 * Abs(seconds - 60 * m) == 60 ==> m % 2 == 0
  {
    var q, rest := seconds / 60, seconds % 60;
    if rest < 30 then q
    else if rest > 30 then q + 1
    else if q % 2 == 0 then q
    else q + 1
  }

  /** Nearest with halves to even has only one solution: RoundMinutes is round(). */
  lemma RoundMinutesUnique(seconds: int, m: int)
    requires 2 * Abs(seconds - 60 * m) <= 60
    requires 2 * Abs(seconds - 60 * m) == 60 ==> m % 2 == 0
    ensures m == RoundMinutes(seconds)
  {
    var k := RoundMinutes(seconds);
    assert -60 <= 60 * m - 60 * k <= 60;
  }

  /** The duration complete_task stores: max(1, round(elapsed / 60)), or 1 when the
      task has no start time. */
  function DurationMinutes(startedAt: Option<int>, now: int): (m: nat)
    ensures m >= 1
    ensures startedAt.None? ==> m == 1
    ensures startedAt.Some? && RoundMinutes(now - startedAt.value) >= 1 ==>
              m == RoundMinutes(now - startedAt.value)
    ensures startedAt.Some? && RoundMinutes(now - startedAt.value) < 1 ==> m == 1
  {
    if startedAt.Some? then Max(1, RoundMinutes(now - startedAt.value)) else 1
  }

  lemma DurationExamples()
    ensures DurationMinutes(Some(0), 150) == 2     // 2.5 minutes rounds to even
    ensures DurationMinutes(Some(0), 210) == 4     // 3.5 minutes rounds to even
    ensures DurationMinutes(Some(0), 89) == 1
    ensures DurationMinutes(Some(0), 91) == 2
    ensures DurationMinutes(Some(100), 100) == 1   // zero elapsed: the floor of one minute
    ensures DurationMinutes(Some(500), 100) == 1   // a clock that went backwards
    ensures DurationMinutes(None, 100) == 1
  {
  }

  /** The task after complete_task: an in-progress task becomes completed at `now`
      with its duration; a task in any other status is left as it is. */
  function CompletedTask(t: PatientTask, now: int): (r: PatientTask)
    ensures t.status != InProgress ==> r == t
    ensures t.status == InProgress ==>
              r.status == Done && r.completedAt == Some(now) &&
              r.durationMinutes == Some(DurationMinutes(t.startedAt, now)) &&
              r.(status := t.status, completedAt := t.completedAt, durationMinutes := t.durationMinutes) == t
    ensures TaskConsistent(t) ==> TaskConsistent(r)
  {
    if t.status == InProgress then
      t.(durationMinutes := Some(DurationMinutes(t.startedAt, now)), completedAt := Some(now), status := Done)
    else t
  }

  /** Completing twice is completing once: the second call finds the task completed. */
  lemma CompleteIdempotent(t: PatientTask, t1: int, t2: int)
    ensures CompletedTask(CompletedTask(t, t1), t2) == CompletedTask(t, t1)
  {
  }

  // ---------------------------------------------------------------- appointments and visits

  /** The appointment patient_home's appointment branch creates. */
  function RequestedAppointment(id: nat, patient: nat, f: AppointmentInput, now: int): (a: Appointment)
    ensures a.status == DEFAULT_APPOINTMENT_STATUS
    ensures a.patient == patient && a.doctor == f.doctor && a.hospital == f.hospital
    ensures a.date == f.date && a.time == f.time && a.reason == f.reason
    ensures a.id == id && a.createdAt == now
  {
    Appointment(id, patient, f.doctor, f.hospital, f.date, f.time, Pending, f.reason, now)
  }

  const LOGGED_VISIT_NOTE: string := "Visit logged. Awaiting update."

  /** The visit record log_visit_by_id creates for an appointment, before the save hook. */
  function LoggedVisit(id: nat, appt: Appointment, doctor: Principal, hospitalName: string): (v: VisitRecord)
    ensures v.patient == appt.patient && v.doctor == doctor.id && v.visitDate == appt.date
    ensures v.hospitalName == hospitalName && v.doctorName == doctor.fullName
    ensures v.currentStatus == AwaitingUpdate && v.improvementScore == 0
    ensures v.doctorNotes == Some(LOGGED_VISIT_NOTE) && v.summary.None? && v.id == id
  {
    VisitRecord(id, appt.patient, doctor.id, appt.date, hospitalName, doctor.fullName,
                AwaitingUpdate, 0, Some(LOGGED_VISIT_NOTE), None)
  }

  /** Saved, a logged visit reads "<date>: pending (0%)". */
  lemma LoggedVisitSummary(id: nat, appt: Appointment, doctor: Principal, hospitalName: string)
    ensures SavedVisitRecord(LoggedVisit(id, appt, doctor, hospitalName)).summary ==
            Some(DateIso(appt.date) + ": pending (0%)")
  {
    var v := LoggedVisit(id, appt, doctor, hospitalName);
    assert Decimal(0) == "0";
    assert VisitStatusToken(v.currentStatus) == "pending";
    assert SavedVisitRecord(v).summary == Some(SummaryText(v));
    assert SummaryText(v) == DateIso(appt.date) + ": " + "pending" + " (" + "0" + "%)";
    var d := DateIso(appt.date);
    assert d + ": " + "pending" + " (" + "0" + "%)" == d + ": pending (0%)";
  }

  /** The update form never touches the summary and the hook never overwrites one,
      so a record's summary keeps the status and score it was first saved with. */
  lemma SummaryKeptOnUpdate(v: VisitRecord, f: VisitUpdateInput)
    requires VisitUpdateValid(f)
    ensures SavedVisitRecord(ApplyVisitUpdate(SavedVisitRecord(v), f)).summary == SavedVisitRecord(v).summary
  {
  }

  /** The patient visit visit_details creates; its doctor is the column default. */
  function SubmittedVisit(id: nat, patient: nat, f: VisitDetailsInput): (v: PatientVisit)
    ensures v.doctor == DEFAULT_VISIT_DOCTOR && v.therapistNotes == ""
    ensures v.patient == patient && v.visitDate == f.visitDate && v.hospitalName == f.hospitalName
    ensures v.doctorName == f.doctorName && v.medicineDetails == f.medicineDetails && v.id == id
  {
    PatientVisit(id, patient, DEFAULT_VISIT_DOCTOR, f.visitDate, f.hospitalName, f.doctorName, f.medicineDetails, "")
  }

  // ---------------------------------------------------------------- messages and videos

  /** The message send_message creates. */
  function NewMessage(id: nat, sender: nat, receiver: nat, content: string, now: int): (m: Message)
    ensures !m.isDeleted && m.sender == sender && m.receiver == receiver
    ensures m.content == content && m.timestamp == now && m.id == id
  {
    Message(id, sender, receiver, content, now, false)
  }

  /** delete_message keeps the row and all its fields, and only raises the flag. */
  function SoftDeleted(m: Message): (r: Message)
    ensures r.isDeleted
    ensures r.(isDeleted := m.isDeleted) == m
  {
    m.(isDeleted := true)
  }

  /** The video upload_exercise_video creates, owned by the uploading therapist. */
  function UploadedVideo(id: nat, therapist: nat, f: VideoInput, now: int): (v: ExerciseVideo)
    requires VideoFormValid(f)
    ensures v.viewsCount == 0 && v.createdAt == now && v.updatedAt == now
    ensures v.therapist == therapist && v.title == f.title && v.description == f.description
    ensures v.exerciseType == f.exerciseType && v.difficultyLevel == f.difficultyLevel
    ensures v.durationMinutes == (if f.durationMinutes.Some? then Some(f.durationMinutes.value as nat) else None)
    ensures v.isActive == f.isActive && v.id == id
  {
    DefaultVideo(id, therapist, now).(
      title := f.title, description := f.description, exerciseType := f.exerciseType,
      durationMinutes := if f.durationMinutes.Some? then Some(f.durationMinutes.value as nat) else None,
      difficultyLevel := f.difficultyLevel, isActive := f.isActive)
  }
}
