/** The request handlers of core/views.py as methods of one in-memory store. Each
    handler receives the logged-in principal and, where it needs them, the current
    time `now` (views call timezone.now()) and the posted fields. A handler first
    makes its role check (returning Denied with the store untouched), then fetches
    its record (NotFound, or ServerError where the view lets DoesNotExist escape), and
    only then changes the store, as the functions of module Workflow say. */
module Handlers {
  import opened Base
  import opened Sequences
  import opened Models
  import opened Forms
  import opened Workflow
  import opened Selections

  /** Every table of the store at one moment. */
  datatype Tables = Tables(
    accounts: seq<Account>, hospitals: seq<Hospital>, appointments: seq<Appointment>,
    visitRecords: seq<VisitRecord>, patientVisits: seq<PatientVisit>, tasks: seq<PatientTask>,
    messages: seq<Message>, alerts: seq<SOSAlert>, videos: seq<ExerciseVideo>, next: Counters)

  /** The next primary key of each table that grows. */
  datatype Counters = Counters(
    appointment: nat, visitRecord: nat, patientVisit: nat, task: nat, message: nat, alert: nat, video: nat)

  // Primary keys of each table are distinct and below the next key to hand out.

  predicate AppointmentsKeyed(s: seq<Appointment>, bound: nat)
  {
    (forall k :: 0 <= k < |s| ==> s[k].id < bound) &&
    (forall j, k :: 0 <= j < k < |s| ==> s[j].id != s[k].id)
  }

  predicate VisitRecordsKeyed(s: seq<VisitRecord>, bound: nat)
  {
    (forall k :: 0 <= k < |s| ==> s[k].id < bound) &&
    (forall j, k :: 0 <= j < k < |s| ==> s[j].id != s[k].id)
  }

  predicate PatientVisitsKeyed(s: seq<PatientVisit>, bound: nat)
  {
    (forall k :: 0 <= k < |s| ==> s[k].id < bound) &&
    (forall j, k :: 0 <= j < k < |s| ==> s[j].id != s[k].id)
  }

  predicate TasksKeyed(s: seq<PatientTask>, bound: nat)
  {
    (forall k :: 0 <= k < |s| ==> s[k].id < bound) &&
    (forall j, k :: 0 <= j < k < |s| ==> s[j].id != s[k].id)
  }

  predicate MessagesKeyed(s: seq<Message>, bound: nat)
  {
    (forall k :: 0 <= k < |s| ==> s[k].id < bound) &&
    (forall j, k :: 0 <= j < k < |s| ==> s[j].id != s[k].id)
  }

  predicate AlertsKeyed(s: seq<SOSAlert>, bound: nat)
  {
    (forall k :: 0 <= k < |s| ==> s[k].id < bound) &&
    (forall j, k :: 0 <= j < k < |s| ==> s[j].id != s[k].id)
  }

  predicate VideosKeyed(s: seq<ExerciseVideo>, bound: nat)
  {
    (forall k :: 0 <= k < |s| ==> s[k].id < bound) &&
    (forall j, k :: 0 <= j < k < |s| ==> s[j].id != s[k].id)
  }

  predicate HospitalStored(hs: seq<Hospital>, id: nat)
  {
    exists h :: h in hs && h.id == id
  }

  // ---------------------------------------------------------------- lookups by primary key

  function AccountAt(s: seq<Account>, id: int): (r: Option<nat>)
    ensures r.Some? ==> r.value < |s| && s[r.value].id == id
    ensures r.None? ==> forall k :: 0 <= k < |s| ==> s[k].id != id
  {
    FindIndex(s, (a: Account) => a.id == id)
  }

  function HospitalAt(s: seq<Hospital>, id: nat): (r: Option<nat>)
    ensures r.Some? ==> r.value < |s| && s[r.value].id == id
    ensures r.None? ==> forall k :: 0 <= k < |s| ==> s[k].id != id
  {
    FindIndex(s, (h: Hospital) => h.id == id)
  }

  function AppointmentAt(s: seq<Appointment>, id: nat): (r: Option<nat>)
    ensures r.Some? ==> r.value < |s| && s[r.value].id == id
    ensures r.None? ==> forall k :: 0 <= k < |s| ==> s[k].id != id
  {
    FindIndex(s, (a: Appointment) => a.id == id)
  }

  function VisitRecordAt(s: seq<VisitRecord>, id: nat): (r: Option<nat>)
    ensures r.Some? ==> r.value < |s| && s[r.value].id == id
    ensures r.None? ==> forall k :: 0 <= k < |s| ==> s[k].id != id
  {
    FindIndex(s, (v: VisitRecord) => v.id == id)
  }

  function PatientVisitAt(s: seq<PatientVisit>, id: nat): (r: Option<nat>)
    ensures r.Some? ==> r.value < |s| && s[r.value].id == id
    ensures r.None? ==> forall k :: 0 <= k < |s| ==> s[k].id != id
  {
    FindIndex(s, (v: PatientVisit) => v.id == id)
  }

  function TaskAt(s: seq<PatientTask>, id: nat): (r: Option<nat>)
    ensures r.Some? ==> r.value < |s| && s[r.value].id == id
    ensures r.None? ==> forall k :: 0 <= k < |s| ==> s[k].id != id
  {
    FindIndex(s, (t: PatientTask) => t.id == id)
  }

  function MessageAt(s: seq<Message>, id: nat): (r: Option<nat>)
    ensures r.Some? ==> r.value < |s| && s[r.value].id == id
    ensures r.None? ==> forall k :: 0 <= k < |s| ==> s[k].id != id
  {
    FindIndex(s, (m: Message) => m.id == id)
  }

  function AlertAt(s: seq<SOSAlert>, id: nat): (r: Option<nat>)
    ensures r.Some? ==> r.value < |s| && s[r.value].id == id
    ensures r.None? ==> forall k :: 0 <= k < |s| ==> s[k].id != id
  {
    FindIndex(s, (a: SOSAlert) => a.id == id)
  }

  function VideoAt(s: seq<ExerciseVideo>, id: nat): (r: Option<nat>)
    ensures r.Some? ==> r.value < |s| && s[r.value].id == id
    ensures r.None? ==> forall k :: 0 <= k < |s| ==> s[k].id != id
  {
    FindIndex(s, (v: ExerciseVideo) => v.id == id)
  }

  /** `appointment.hospital.name`. */
  function HospitalName(hs: seq<Hospital>, id: nat): (name: string)
    ensures HospitalStored(hs, id) ==> exists k :: 0 <= k < |hs| && hs[k].id == id && hs[k].name == name
  {
    match HospitalAt(hs, id)
    case Some(k) => hs[k].name
    case None => ""
  }

  /** A user id taken from the query string or the posted data, as `filter(id=raw)`
      and `get_object_or_404(User, id=raw)` resolve it: a missing value selects no one,
      a value that is not an integer raises ValueError, an integer selects the user
      with that id if there is one. */
  function ResolveUser(accounts: seq<Account>, raw: Option<string>): (r: Result<Option<nat>, string>)
    ensures raw.None? ==> r == Ok(None)
    ensures raw.Some? ==> (r.Err? <==> Text.ParseInt(raw.value).None?)
    ensures r.Ok? && r.value.Some? ==>
              raw.Some? && Text.ParseInt(raw.value) == Some(r.value.value as int) &&
              exists k :: 0 <= k < |accounts| && accounts[k].id == r.value.value
    ensures r == Ok(None) && raw.Some? ==>
              forall k :: 0 <= k < |accounts| ==> Text.ParseInt(raw.value) != Some(accounts[k].id as int)
  {
    match raw
    case None => Ok(None)
    case Some(s) =>
      match Text.ParseInt(s)
      case None => Err("ValueError")
      case Some(id) =>
        match AccountAt(accounts, id)
        case Some(k) => Ok(Some(accounts[k].id))
        case None => Ok(None)
  }

  /** What patient_home received: a GET, a task form (the data hold task_type) or an
      appointment form (any other POST). */
  datatype HomeRequest = HomeGet | TaskPost(task: TaskInput) | AppointmentPost(appointment: AppointmentInput)

  class Store {
    var accounts: seq<Account>
    var hospitals: seq<Hospital>
    var appointments: seq<Appointment>
    var visitRecords: seq<VisitRecord>
    var patientVisits: seq<PatientVisit>
    var tasks: seq<PatientTask>
    var messages: seq<Message>
    var alerts: seq<SOSAlert>
    var videos: seq<ExerciseVideo>
    // Each table hands out its own primary keys, as an auto-increment column does.
    var nextAppointmentId: nat
    var nextVisitRecordId: nat
    var nextPatientVisitId: nat
    var nextTaskId: nat
    var nextMessageId: nat
    var nextAlertId: nat
    var nextVideoId: nat

    function Snapshot(): Tables
      reads this
    {
      Tables(accounts, hospitals, appointments, visitRecords, patientVisits, tasks, messages, alerts, videos,
             Counters(nextAppointmentId, nextVisitRecordId, nextPatientVisitId, nextTaskId,
                      nextMessageId, nextAlertId, nextVideoId))
    }

    /** Every appointment names a stored hospital. */
    ghost predicate AppointmentsValid()
      reads this`appointments, this`nextAppointmentId, this`hospitals
    {
      AppointmentsKeyed(appointments, nextAppointmentId) &&
      forall k :: 0 <= k < |appointments| ==> HospitalStored(hospitals, appointments[k].hospital)
    }

    /** Every visit record has been through VisitRecord.save, so it has a summary. */
    ghost predicate VisitRecordsValid()
      reads this`visitRecords, this`nextVisitRecordId
    {
      VisitRecordsKeyed(visitRecords, nextVisitRecordId) &&
      forall k :: 0 <= k < |visitRecords| ==> !Falsy(visitRecords[k].summary)
    }

    /** Every completed task has its completion time and duration. */
    ghost predicate TasksValid()
      reads this`tasks, this`nextTaskId
    {
      TasksKeyed(tasks, nextTaskId) && forall k :: 0 <= k < |tasks| ==> TaskConsistent(tasks[k])
    }

    /** Every acknowledged or resolved alert has the matching flags and times. */
    ghost predicate AlertsValid()
      reads this`alerts, this`nextAlertId
    {
      AlertsKeyed(alerts, nextAlertId) && forall k :: 0 <= k < |alerts| ==> AlertConsistent(alerts[k])
    }

    ghost predicate PatientVisitsValid()
      reads this`patientVisits, this`nextPatientVisitId
    {
      PatientVisitsKeyed(patientVisits, nextPatientVisitId)
    }

    ghost predicate MessagesValid()
      reads this`messages, this`nextMessageId
    {
      MessagesKeyed(messages, nextMessageId)
    }

    ghost predicate VideosValid()
      reads this`videos, this`nextVideoId
    {
      VideosKeyed(videos, nextVideoId)
    }

    /** Keys are distinct, and every row is in a state the handlers leave rows in. Each
        handler keeps the part for the tables it writes; its modifies clause leaves the
        other tables, and so the rest, as they were. */
    ghost predicate Valid()
      reads this
    {
      AppointmentsValid() && VisitRecordsValid() && TasksValid() && AlertsValid() &&
      PatientVisitsValid() && MessagesValid() && VideosValid()
    }

    /** A store holding the given users and hospitals and nothing else. */
    constructor (accounts: seq<Account>, hospitals: seq<Hospital>)
      ensures Valid()
      ensures Snapshot() == Tables(accounts, hospitals, [], [], [], [], [], [], [], Counters(0, 0, 0, 0, 0, 0, 0))
    {
      this.accounts := accounts;
      this.hospitals := hospitals;
      appointments, visitRecords, patientVisits, tasks := [], [], [], [];
      messages, alerts, videos := [], [], [];
      nextAppointmentId, nextVisitRecordId, nextPatientVisitId, nextTaskId := 0, 0, 0, 0;
      nextMessageId, nextAlertId, nextVideoId := 0, 0, 0;
    }

    // -------------------------------------------------------------- model save hooks

    /** VisitRecord.save on the i-th record: an empty summary is filled in. */
    method SaveVisitRecord(i: nat)
      requires i < |visitRecords|
      modifies this`visitRecords
      ensures visitRecords == old(visitRecords)[i := SavedVisitRecord(old(visitRecords)[i])]
    {
      var visit := visitRecords[i];
      if visit.summary.None? || visit.summary.value == "" {
        visit := visit.(summary := Some(SummaryText(visit)));
      }
      visitRecords := visitRecords[i := visit];
    }

    /** ExerciseVideo.increment_views on the i-th video. */
    method IncrementViews(i: nat)
      requires i < |videos|
      modifies this`videos
      ensures videos == old(videos)[i := ViewedVideo(old(videos)[i])]
    {
      var video := videos[i];
      video := video.(viewsCount := video.viewsCount + 1);
      videos := videos[i := video];
    }

    // -------------------------------------------------------------- tasks and appointments

    /** patient_home (views.py:69-99): start a task, or request an appointment. */
    method PatientHome(p: Principal, request: HomeRequest, now: int) returns (r: Outcome)
      requires TasksValid() && AppointmentsValid()
      modifies this`tasks, this`nextTaskId, this`appointments, this`nextAppointmentId
      ensures TasksValid() && AppointmentsValid()
      ensures !Permits(Action.PatientHome, p.role) ==> r == Denied && Snapshot() == old(Snapshot())
      ensures Permits(Action.PatientHome, p.role) && request.HomeGet? ==> r == Unchanged && Snapshot() == old(Snapshot())
      ensures Permits(Action.PatientHome, p.role) && request.TaskPost? ==>
        if TaskFormValid(request.task) then
          r == Performed && appointments == old(appointments) && nextAppointmentId == old(nextAppointmentId) &&
          tasks == old(tasks) + [HomeStartedTask(old(nextTaskId), p.id, request.task, now)] &&
          nextTaskId == old(nextTaskId) + 1
        else r == Invalid && Snapshot() == old(Snapshot())
      ensures Permits(Action.PatientHome, p.role) && request.AppointmentPost? ==>
        if AppointmentFormValid(hospitals, accounts, request.appointment) then
          r == Performed && tasks == old(tasks) && nextTaskId == old(nextTaskId) &&
          appointments == old(appointments) +
            [RequestedAppointment(old(nextAppointmentId), p.id, request.appointment, now)] &&
          nextAppointmentId == old(nextAppointmentId) + 1
        else r == Invalid && Snapshot() == old(Snapshot())
    {
      assert Permits(Action.PatientHome, p.role) <==> p.role == PATIENT;
      if p.role != PATIENT {
        return Denied;
      }
      match request {
        case HomeGet =>
          r := Unchanged;
        case TaskPost(f) =>
          if !TaskFormValid(f) {
            return Invalid;
          }
          var task := DefaultTask(nextTaskId, p.id);
          task := task.(durationMinutes := if f.durationMinutes.Some? then Some(f.durationMinutes.value as nat) else None,
                        taskType := f.taskType);
          task := task.(status := InProgress);
          task := task.(startedAt := Some(now));
          AppendTask(task);
          r := Performed;
        case AppointmentPost(f) =>
          if !AppointmentFormValid(hospitals, accounts, f) {
            return Invalid;
          }
          AppointmentHospitalStored(hospitals, accounts, f);
          var appointment := Appointment(nextAppointmentId, p.id, f.doctor, f.hospital, f.date, f.time,
                                         DEFAULT_APPOINTMENT_STATUS, f.reason, now);
          appointment := appointment.(status := Pending);
          AppendAppointment(appointment);
          r := Performed;
      }
    }

    /** objects.create for a task: the row takes the next key. */
    method AppendTask(t: PatientTask)
      requires TasksValid() && t.id == nextTaskId && TaskConsistent(t)
      modifies this`tasks, this`nextTaskId
      ensures TasksValid()
      ensures tasks == old(tasks) + [t] && nextTaskId == old(nextTaskId) + 1
    {
      tasks := tasks + [t];
      nextTaskId := nextTaskId + 1;
    }

    /** objects.create for an appointment whose hospital is stored. */
    method AppendAppointment(a: Appointment)
      requires AppointmentsValid() && a.id == nextAppointmentId && HospitalStored(hospitals, a.hospital)
      modifies this`appointments, this`nextAppointmentId
      ensures AppointmentsValid()
      ensures appointments == old(appointments) + [a] && nextAppointmentId == old(nextAppointmentId) + 1
    {
      appointments := appointments + [a];
      nextAppointmentId := nextAppointmentId + 1;
    }

    /** start_task (views.py:393-420). No check for a task already in progress. */
    method StartTask(p: Principal, post: bool, f: TaskInput, now: int) returns (r: Outcome)
      requires TasksValid()
      modifies this`tasks, this`nextTaskId
      ensures TasksValid()
      ensures !Permits(Action.StartTask, p.role) ==> r == Denied && Snapshot() == old(Snapshot())
      ensures Permits(Action.StartTask, p.role) && !post ==> r == Unchanged && Snapshot() == old(Snapshot())
      ensures Permits(Action.StartTask, p.role) && post && !TaskFormValid(f) ==>
                r == Invalid && Snapshot() == old(Snapshot())
      ensures Permits(Action.StartTask, p.role) && post && TaskFormValid(f) ==>
                r == Performed && tasks == old(tasks) + [StartedTask(old(nextTaskId), p.id, f, now)] &&
                nextTaskId == old(nextTaskId) + 1
    {
      assert Permits(Action.StartTask, p.role) <==> p.role == PATIENT;
      if p.role != PATIENT {
        return Denied;
      }
      if !post {
        return Unchanged;
      }
      if !TaskFormValid(f) {
        return Invalid;
      }
      var task := DefaultTask(nextTaskId, p.id);
      task := task.(durationMinutes := if f.durationMinutes.Some? then Some(f.durationMinutes.value as nat) else None,
                    taskType := f.taskType);
      task := task.(startedAt := Some(now));
      task := task.(status := InProgress);
      task := task.(taskName := DictGet(TASK_TYPE_CHOICES, task.taskType, UNKNOWN_TASK));
      AppendTask(task);
      r := Performed;
    }

    /** complete_task (views.py:423-448): the caller's own task, only when in progress. */
    method CompleteTask(p: Principal, taskId: nat, now: int) returns (r: Outcome)
      requires TasksValid()
      modifies this`tasks
      ensures TasksValid()
      ensures !Permits(Action.CompleteTask, p.role) ==> r == Denied && Snapshot() == old(Snapshot())
      ensures Permits(Action.CompleteTask, p.role) ==>
        match TaskAt(old(tasks), taskId)
        case None => r == NotFound && Snapshot() == old(Snapshot())
        case Some(i) =>
          if old(tasks)[i].patient != p.id then r == NotFound && Snapshot() == old(Snapshot())
          else if old(tasks)[i].status != InProgress then r == Warned && Snapshot() == old(Snapshot())
          else r == Performed && tasks == old(tasks)[i := CompletedTask(old(tasks)[i], now)]
    {
      assert Permits(Action.CompleteTask, p.role) <==> p.role == PATIENT;
      if p.role != PATIENT {
        return Denied;
      }
      var found := TaskAt(tasks, taskId);
      if found.None? || tasks[found.value].patient != p.id {
        return NotFound;
      }
      var i := found.value;
      var task := tasks[i];
      if task.status != InProgress {
        return Warned;
      }
      if task.startedAt.Some? {
        task := task.(durationMinutes := Some(Max(1, RoundMinutes(now - task.startedAt.value))));
      } else {
        task := task.(durationMinutes := Some(1));
      }
      task := task.(completedAt := Some(now));
      task := task.(status := Done);
      ReplaceTask(i, task);
      r := Performed;
    }

    /** A task row rewritten in place, keeping its key. */
    method ReplaceTask(i: nat, t: PatientTask)
      requires TasksValid() && i < |tasks| && t.id == tasks[i].id && TaskConsistent(t)
      modifies this`tasks
      ensures TasksValid()
      ensures tasks == old(tasks)[i := t]
    {
      tasks := tasks[i := t];
    }

    /** An appointment row rewritten in place, keeping its key and hospital. */
    method ReplaceAppointment(i: nat, a: Appointment)
      requires AppointmentsValid() && i < |appointments| && a.id == appointments[i].id
      requires a.hospital == appointments[i].hospital
      modifies this`appointments
      ensures AppointmentsValid()
      ensures appointments == old(appointments)[i := a]
    {
      appointments := appointments[i := a];
    }

    /** The routed confirm_appointment (views.py:611-624): on POST the doctor's own
        appointment becomes confirmed, from whatever status it had. */
    method ConfirmAppointment(p: Principal, appointmentId: nat, post: bool) returns (r: Outcome)
      requires AppointmentsValid()
      modifies this`appointments
      ensures AppointmentsValid()
      ensures !Permits(Action.ConfirmAppointment, p.role) ==> r == Denied && Snapshot() == old(Snapshot())
      ensures Permits(Action.ConfirmAppointment, p.role) ==>
        match AppointmentAt(old(appointments), appointmentId)
        case None => r == NotFound && Snapshot() == old(Snapshot())
        case Some(i) =>
          if old(appointments)[i].doctor != p.id then r == NotFound && Snapshot() == old(Snapshot())
          else if !post then r == Unchanged && Snapshot() == old(Snapshot())
          else r == Performed && appointments == old(appointments)[i := old(appointments)[i].(status := Confirmed)]
    {
      assert Permits(Action.ConfirmAppointment, p.role) <==> p.role == DOCTOR;
      if p.role != DOCTOR {
        return Denied;
      }
      var found := AppointmentAt(appointments, appointmentId);
      if found.None? || appointments[found.value].doctor != p.id {
        return NotFound;
      }
      if !post {
        return Unchanged;
      }
      var i := found.value;
      var appointment := appointments[i];
      appointment := appointment.(status := Confirmed);
      ReplaceAppointment(i, appointment);
      r := Performed;
    }

    /** cancel_appointment (views.py:556-562): no role or status check; the caller must
        be the appointment's doctor. */
    method CancelAppointment(p: Principal, appointmentId: nat) returns (r: Outcome)
      requires AppointmentsValid()
      modifies this`appointments
      ensures AppointmentsValid()
      ensures match AppointmentAt(old(appointments), appointmentId)
        case None => r == NotFound && Snapshot() == old(Snapshot())
        case Some(i) =>
          if old(appointments)[i].doctor != p.id then r == NotFound && Snapshot() == old(Snapshot())
          else r == Performed && appointments == old(appointments)[i := old(appointments)[i].(status := Cancelled)]
    {
      var found := AppointmentAt(appointments, appointmentId);
      if found.None? || appointments[found.value].doctor != p.id {
        return NotFound;
      }
      var i := found.value;
      var appointment := appointments[i];
      appointment := appointment.(status := Cancelled);
      ReplaceAppointment(i, appointment);
      r := Performed;
    }

    /** A visit record for (doctor, patient, date) exists. */
    static predicate VisitLogged(records: seq<VisitRecord>, doctor: nat, patient: nat, date: Date)
    {
      exists k :: 0 <= k < |records| && records[k].doctor == doctor &&
                  records[k].patient == patient && records[k].visitDate == date
    }

    /** VisitRecord.objects.create: the row takes the next key and is saved. */
    method CreateVisitRecord(v: VisitRecord)
      requires VisitRecordsValid() && v.id == nextVisitRecordId
      modifies this`visitRecords, this`nextVisitRecordId
      ensures VisitRecordsValid()
      ensures visitRecords == old(visitRecords) + [SavedVisitRecord(v)]
      ensures nextVisitRecordId == old(nextVisitRecordId) + 1
    {
      visitRecords := visitRecords + [v];
      nextVisitRecordId := nextVisitRecordId + 1;
      SaveVisitRecord(|visitRecords| - 1);
    }

    /** The routed log_visit_by_id (views.py:681-725). */
    method LogVisitById(p: Principal, appointmentId: nat) returns (r: Outcome)
      requires AppointmentsValid() && VisitRecordsValid()
      modifies this`visitRecords, this`nextVisitRecordId, this`appointments
      ensures AppointmentsValid() && VisitRecordsValid()
      ensures !Permits(Action.LogVisitById, p.role) ==> r == Denied && Snapshot() == old(Snapshot())
      ensures Permits(Action.LogVisitById, p.role) ==>
        match AppointmentAt(old(appointments), appointmentId)
        case None => r == NotFound && Snapshot() == old(Snapshot())
        case Some(i) =>
          var appt := old(appointments)[i];
          if appt.doctor != p.id then r == NotFound && Snapshot() == old(Snapshot())
          else if VisitLogged(old(visitRecords), p.id, appt.patient, appt.date) then
            r == Warned && Snapshot() == old(Snapshot())
          else
            r == Performed &&
            visitRecords == old(visitRecords) +
              [SavedVisitRecord(LoggedVisit(old(nextVisitRecordId), appt, p, HospitalName(hospitals, appt.hospital)))] &&
            nextVisitRecordId == old(nextVisitRecordId) + 1 &&
            appointments == old(appointments)[i := appt.(status := Completed)]
    {
      assert Permits(Action.LogVisitById, p.role) <==> p.role == DOCTOR;
      if p.role != DOCTOR {
        return Denied;
      }
      var found := AppointmentAt(appointments, appointmentId);
      if found.None? || appointments[found.value].doctor != p.id {
        return NotFound;
      }
      var i := found.value;
      var appointment := appointments[i];
      if exists k :: 0 <= k < |visitRecords| && visitRecords[k].doctor == p.id &&
                     visitRecords[k].patient == appointment.patient && visitRecords[k].visitDate == appointment.date {
        return Warned;
      }
      var hospitalName := HospitalName(hospitals, appointment.hospital);
      var visit := VisitRecord(nextVisitRecordId, appointment.patient, p.id, appointment.date, hospitalName,
                               p.fullName, AwaitingUpdate, 0, Some(LOGGED_VISIT_NOTE), None);
      CreateVisitRecord(visit);
      appointment := appointment.(status := Completed);
      ReplaceAppointment(i, appointment);
      r := Performed;
    }

    /** update_visit_record (views.py:641-660): no role check; the caller must be the
        record's doctor. */
    method UpdateVisitRecord(p: Principal, visitId: nat, post: bool, f: VisitUpdateInput) returns (r: Outcome)
      requires VisitRecordsValid()
      modifies this`visitRecords
      ensures VisitRecordsValid()
      ensures match VisitRecordAt(old(visitRecords), visitId)
        case None => r == NotFound && Snapshot() == old(Snapshot())
        case Some(i) =>
          if old(visitRecords)[i].doctor != p.id then r == NotFound && Snapshot() == old(Snapshot())
          else if !post then r == Unchanged && Snapshot() == old(Snapshot())
          else if !VisitUpdateValid(f) then r == Invalid && Snapshot() == old(Snapshot())
          else r == Performed &&
               visitRecords == old(visitRecords)[i := SavedVisitRecord(ApplyVisitUpdate(old(visitRecords)[i], f))]
    {
      var found := VisitRecordAt(visitRecords, visitId);
      if found.None? || visitRecords[found.value].doctor != p.id {
        return NotFound;
      }
      if !post {
        return Unchanged;
      }
      if !VisitUpdateValid(f) {
        return Invalid;
      }
      var i := found.value;
      var visit := visitRecords[i];
      visit := visit.(currentStatus := f.currentStatus, improvementScore := f.improvementScore as nat,
                      doctorNotes := f.doctorNotes);
      visitRecords := visitRecords[i := visit];
      SaveVisitRecord(i);
      r := Performed;
    }

    // -------------------------------------------------------------- therapist forms

    /** add_feedback (views.py:356-370): any therapist, any task; a missing task is an
        uncaught DoesNotExist. The form is bound to `request.POST or None`: `bound` says
        whether the request carried any POST data, and an unbound form never validates.
        `feedback` is the posted feedback value; a bound form without one stores "". */
    method AddFeedback(p: Principal, taskId: nat, post: bool, bound: bool, feedback: Option<string>) returns (r: Outcome)
      requires TasksValid()
      modifies this`tasks
      ensures TasksValid()
      ensures !Permits(Action.AddFeedback, p.role) ==> r == Denied && Snapshot() == old(Snapshot())
      ensures Permits(Action.AddFeedback, p.role) ==>
        match TaskAt(old(tasks), taskId)
        case None => r == ServerError && Snapshot() == old(Snapshot())
        case Some(i) =>
          if !(post && bound) then r == Unchanged && Snapshot() == old(Snapshot())
          else r == Performed &&
               tasks == old(tasks)[i := ApplyFeedback(old(tasks)[i], if feedback.Some? then feedback.value else "")]
    {
      assert Permits(Action.AddFeedback, p.role) <==> p.role == THERAPIST;
      if p.role != THERAPIST {
        return Denied;
      }
      var found := TaskAt(tasks, taskId);
      if found.None? {
        return ServerError;
      }
      if !(post && bound) {
        return Unchanged;
      }
      var i := found.value;
      ReplaceTask(i, tasks[i].(feedback := if feedback.Some? then feedback.value else ""));
      r := Performed;
    }

    /** add_therapist_notes_inline (views.py:373-388): binds the request's POST data
        whatever the method, so a request without notes stores empty notes. */
    method AddTherapistNotes(p: Principal, visitId: nat, notes: Option<string>) returns (r: Outcome)
      requires PatientVisitsValid()
      modifies this`patientVisits
      ensures PatientVisitsValid()
      ensures !Permits(Action.AddTherapistNotes, p.role) ==> r == Denied && Snapshot() == old(Snapshot())
      ensures Permits(Action.AddTherapistNotes, p.role) ==>
        match PatientVisitAt(old(patientVisits), visitId)
        case None => r == ServerError && Snapshot() == old(Snapshot())
        case Some(i) =>
          r == Performed && patientVisits == old(patientVisits)[i := ApplyTherapistNotes(old(patientVisits)[i], notes)]
    {
      assert Permits(Action.AddTherapistNotes, p.role) <==> p.role == THERAPIST;
      if p.role != THERAPIST {
        return Denied;
      }
      var found := PatientVisitAt(patientVisits, visitId);
      if found.None? {
        return ServerError;
      }
      var i := found.value;
      var visit := patientVisits[i];
      visit := visit.(therapistNotes := if notes.Some? then notes.value else "");
      patientVisits := patientVisits[i := visit];
      r := Performed;
    }

    /** visit_details (views.py:305-317): only a patient's post creates a visit. The form
        has no doctor field, so the row takes the column default, user 12; when no such
        user exists the insert fails its foreign-key check (IntegrityError). */
    method VisitDetails(p: Principal, post: bool, f: VisitDetailsInput) returns (r: Outcome)
      requires PatientVisitsValid()
      modifies this`patientVisits, this`nextPatientVisitId
      ensures PatientVisitsValid()
      ensures !(post && p.role == PATIENT) ==> r == Unchanged && Snapshot() == old(Snapshot())
      ensures post && p.role == PATIENT && !VisitDetailsValid(f) ==> r == Invalid && Snapshot() == old(Snapshot())
      ensures post && p.role == PATIENT && VisitDetailsValid(f) && AccountAt(accounts, DEFAULT_VISIT_DOCTOR).None? ==>
                r == ServerError && Snapshot() == old(Snapshot())
      ensures post && p.role == PATIENT && VisitDetailsValid(f) && AccountAt(accounts, DEFAULT_VISIT_DOCTOR).Some? ==>
                r == Performed && patientVisits == old(patientVisits) + [SubmittedVisit(old(nextPatientVisitId), p.id, f)] &&
                nextPatientVisitId == old(nextPatientVisitId) + 1
    {
      if !(post && p.role == PATIENT) {
        return Unchanged;
      }
      if !VisitDetailsValid(f) {
        return Invalid;
      }
      if AccountAt(accounts, DEFAULT_VISIT_DOCTOR).None? {
        return ServerError;
      }
      var visit := PatientVisit(nextPatientVisitId, p.id, DEFAULT_VISIT_DOCTOR, f.visitDate, f.hospitalName,
                                f.doctorName, f.medicineDetails, "");
      patientVisits := patientVisits + [visit];
      nextPatientVisitId := nextPatientVisitId + 1;
      r := Performed;
    }

    // -------------------------------------------------------------- messaging

    /** message_box (views.py:813-839): the contacts of the chosen role and the
        conversation with the selected user. Changes nothing. */
    method MessageBox(p: Principal, role: Option<string>, selected: Option<string>)
      returns (r: Outcome, contacts: seq<Account>, conversation: seq<Message>)
      ensures match ResolveUser(accounts, selected)
        case Err(_) => r == ServerError && contacts == [] && conversation == []
        case Ok(None) => r == Shown && contacts == Contacts(accounts, role, p.id) && conversation == []
        case Ok(Some(other)) =>
          r == Shown && contacts == Contacts(accounts, role, p.id) &&
          conversation == Conversation(messages, p.id, other)
    {
      var partner := ResolveUser(accounts, selected);
      if partner.Err? {
        return ServerError, [], [];
      }
      contacts := Contacts(accounts, role, p.id);
      conversation := [];
      if partner.value.Some? {
        conversation := Conversation(messages, p.id, partner.value.value);
      }
      r := Shown;
    }

    /** send_message (views.py:841-849). */
    method SendMessage(p: Principal, post: bool, receiverId: Option<string>, content: Option<string>, now: int)
      returns (r: Outcome)
      requires MessagesValid()
      modifies this`messages, this`nextMessageId
      ensures MessagesValid()
      ensures !post ==> r == Unchanged && Snapshot() == old(Snapshot())
      ensures post ==>
        match ResolveUser(accounts, receiverId)
        case Err(_) => r == ServerError && Snapshot() == old(Snapshot())
        case Ok(None) => r == NotFound && Snapshot() == old(Snapshot())
        case Ok(Some(receiver)) =>
          if content.None? then r == ServerError && Snapshot() == old(Snapshot())
          else r == Performed &&
               messages == old(messages) + [NewMessage(old(nextMessageId), p.id, receiver, content.value, now)] &&
               nextMessageId == old(nextMessageId) + 1
    {
      if !post {
        return Unchanged;
      }
      var receiver := ResolveUser(accounts, receiverId);
      if receiver.Err? {
        return ServerError;
      }
      if receiver.value.None? {
        return NotFound;
      }
      if content.None? {
        return ServerError;
      }
      messages := messages + [Message(nextMessageId, p.id, receiver.value.value, content.value, now, false)];
      nextMessageId := nextMessageId + 1;
      r := Performed;
    }

    /** delete_message (views.py:851-856): only the sender, and only a flag. */
    method DeleteMessage(p: Principal, messageId: nat) returns (r: Outcome)
      requires MessagesValid()
      modifies this`messages
      ensures MessagesValid()
      ensures match MessageAt(old(messages), messageId)
        case None => r == NotFound && Snapshot() == old(Snapshot())
        case Some(i) =>
          if old(messages)[i].sender != p.id then r == NotFound && Snapshot() == old(Snapshot())
          else r == Performed && messages == old(messages)[i := SoftDeleted(old(messages)[i])]
      ensures r == Performed ==> forall me, other, m :: m in Conversation(messages, me, other) ==> m.id != messageId
    {
      var found := MessageAt(messages, messageId);
      if found.None? || messages[found.value].sender != p.id {
        return NotFound;
      }
      var i := found.value;
      assert DistinctMessageIds(messages);
      var before := messages;
      var message := messages[i];
      message := message.(isDeleted := true);
      messages := messages[i := message];
      forall me: nat, other: nat, m | m in Conversation(messages, me, other)
        ensures m.id != messageId
      {
        SoftDeleteHides(before, i, me, other, m);
      }
      r := Performed;
    }

    // -------------------------------------------------------------- SOS alerts

    /** An alert row rewritten in place, keeping its key. */
    method ReplaceAlert(i: nat, a: SOSAlert)
      requires AlertsValid() && i < |alerts| && a.id == alerts[i].id && AlertConsistent(a)
      modifies this`alerts
      ensures AlertsValid()
      ensures alerts == old(alerts)[i := a]
    {
      alerts := alerts[i := a];
    }

    /** send_sos_alert (views.py:859-879); `message` is the posted text, "" when absent. */
    method SendSosAlert(p: Principal, post: bool, message: string, now: int) returns (r: Outcome)
      requires AlertsValid()
      modifies this`alerts, this`nextAlertId
      ensures AlertsValid()
      ensures !Permits(Action.SendSosAlert, p.role) ==> r == Denied && Snapshot() == old(Snapshot())
      ensures Permits(Action.SendSosAlert, p.role) && !post ==> r == Unchanged && Snapshot() == old(Snapshot())
      ensures Permits(Action.SendSosAlert, p.role) && post ==>
                r == Performed && alerts == old(alerts) + [NewAlert(old(nextAlertId), p.id, message, now)] &&
                nextAlertId == old(nextAlertId) + 1
    {
      assert Permits(Action.SendSosAlert, p.role) <==> p.role == PATIENT;
      if p.role != PATIENT {
        return Denied;
      }
      if !post {
        return Unchanged;
      }
      var alert := DefaultAlert(nextAlertId, p.id, now);
      alert := alert.(message := if message != "" then Some(message) else None, status := Active);
      alerts := alerts + [alert];
      nextAlertId := nextAlertId + 1;
      r := Performed;
    }

    /** acknowledge_sos_alert (views.py:881-911). */
    method AcknowledgeSosAlert(p: Principal, alertId: nat, now: int) returns (r: Outcome)
      requires AlertsValid()
      modifies this`alerts
      ensures AlertsValid()
      ensures !Permits(Action.AcknowledgeSosAlert, p.role) ==> r == Denied && Snapshot() == old(Snapshot())
      ensures Permits(Action.AcknowledgeSosAlert, p.role) ==>
        match AlertAt(old(alerts), alertId)
        case None => r == NotFound && Snapshot() == old(Snapshot())
        case Some(i) => r == Performed && alerts == old(alerts)[i := AcknowledgedBy(old(alerts)[i], p.role, now)]
    {
      assert Permits(Action.AcknowledgeSosAlert, p.role) <==> p.role == DOCTOR || p.role == THERAPIST;
      if p.role != DOCTOR && p.role != THERAPIST {
        return Denied;
      }
      var found := AlertAt(alerts, alertId);
      if found.None? {
        return NotFound;
      }
      var i := found.value;
      var alert := alerts[i];
      if p.role == DOCTOR {
        alert := alert.(acknowledgedByDoctor := true);
      } else if p.role == THERAPIST {
        alert := alert.(acknowledgedByTherapist := true);
      }
      if alert.acknowledgedByDoctor && alert.acknowledgedByTherapist {
        alert := alert.(status := Acknowledged);
        alert := alert.(acknowledgedAt := Some(now));
      } else if alert.acknowledgedAt.None? {
        alert := alert.(acknowledgedAt := Some(now));
      }
      assert alert == AcknowledgedBy(alerts[i], p.role, now);
      ReplaceAlert(i, alert);
      r := Performed;
    }

    /** resolve_sos_alert (views.py:913-931): from any status. */
    method ResolveSosAlert(p: Principal, alertId: nat, now: int) returns (r: Outcome)
      requires AlertsValid()
      modifies this`alerts
      ensures AlertsValid()
      ensures !Permits(Action.ResolveSosAlert, p.role) ==> r == Denied && Snapshot() == old(Snapshot())
      ensures Permits(Action.ResolveSosAlert, p.role) ==>
        match AlertAt(old(alerts), alertId)
        case None => r == NotFound && Snapshot() == old(Snapshot())
        case Some(i) => r == Performed && alerts == old(alerts)[i := ResolvedAt(old(alerts)[i], now)]
    {
      assert Permits(Action.ResolveSosAlert, p.role) <==> p.role == DOCTOR || p.role == THERAPIST;
      if p.role != DOCTOR && p.role != THERAPIST {
        return Denied;
      }
      var found := AlertAt(alerts, alertId);
      if found.None? {
        return NotFound;
      }
      var i := found.value;
      var alert := alerts[i];
      alert := alert.(status := Resolved);
      alert := alert.(resolvedAt := Some(now));
      assert alert == ResolvedAt(alerts[i], now);
      ReplaceAlert(i, alert);
      r := Performed;
    }

    // -------------------------------------------------------------- exercise videos

    /** upload_exercise_video (views.py:934-952). */
    method UploadExerciseVideo(p: Principal, post: bool, f: VideoInput, now: int) returns (r: Outcome)
      requires VideosValid()
      modifies this`videos, this`nextVideoId
      ensures VideosValid()
      ensures !Permits(Action.UploadExerciseVideo, p.role) ==> r == Denied && Snapshot() == old(Snapshot())
      ensures Permits(Action.UploadExerciseVideo, p.role) && !post ==> r == Unchanged && Snapshot() == old(Snapshot())
      ensures Permits(Action.UploadExerciseVideo, p.role) && post && !VideoFormValid(f) ==>
                r == Invalid && Snapshot() == old(Snapshot())
      ensures Permits(Action.UploadExerciseVideo, p.role) && post && VideoFormValid(f) ==>
                r == Performed && videos == old(videos) + [UploadedVideo(old(nextVideoId), p.id, f, now)] &&
                nextVideoId == old(nextVideoId) + 1
    {
      assert Permits(Action.UploadExerciseVideo, p.role) <==> p.role == THERAPIST;
      if p.role != THERAPIST {
        return Denied;
      }
      if !post {
        return Unchanged;
      }
      if !VideoFormValid(f) {
        return Invalid;
      }
      var video := DefaultVideo(nextVideoId, p.id, now);
      video := video.(title := f.title, description := f.description, exerciseType := f.exerciseType,
                      durationMinutes := if f.durationMinutes.Some? then Some(f.durationMinutes.value as nat) else None,
                      difficultyLevel := f.difficultyLevel, isActive := f.isActive);
      videos := videos + [video];
      nextVideoId := nextVideoId + 1;
      r := Performed;
    }

    /** view_exercise_videos (views.py:964-998). Changes nothing. */
    method ViewExerciseVideos(p: Principal, exerciseType: string, difficulty: string)
      returns (r: Outcome, listed: seq<ExerciseVideo>)
      ensures !Permits(Action.ViewExerciseVideos, p.role) ==> r == Denied && listed == []
      ensures Permits(Action.ViewExerciseVideos, p.role) ==>
                r == Shown && listed == ListVideos(videos, exerciseType, difficulty)
    {
      assert Permits(Action.ViewExerciseVideos, p.role) <==> p.role == PATIENT;
      if p.role != PATIENT {
        return Denied, [];
      }
      return Shown, ListVideos(videos, exerciseType, difficulty);
    }

    /** watch_video (views.py:1000-1021): an active video only; one more view; the related strip. */
    method WatchVideo(p: Principal, videoId: nat) returns (r: Outcome, related: seq<ExerciseVideo>)
      requires VideosValid()
      modifies this`videos
      ensures VideosValid()
      ensures !Permits(Action.WatchVideo, p.role) ==> r == Denied && related == [] && Snapshot() == old(Snapshot())
      ensures Permits(Action.WatchVideo, p.role) ==>
        match VideoAt(old(videos), videoId)
        case None => r == NotFound && related == [] && Snapshot() == old(Snapshot())
        case Some(i) =>
          if !old(videos)[i].isActive then r == NotFound && related == [] && Snapshot() == old(Snapshot())
          else r == Shown && videos == old(videos)[i := ViewedVideo(old(videos)[i])] &&
               related == RelatedVideos(videos, old(videos)[i].exerciseType, videoId)
    {
      assert Permits(Action.WatchVideo, p.role) <==> p.role == PATIENT;
      if p.role != PATIENT {
        return Denied, [];
      }
      var found := VideoAt(videos, videoId);
      if found.None? || !videos[found.value].isActive {
        return NotFound, [];
      }
      var i := found.value;
      IncrementViews(i);
      related := RelatedVideos(videos, videos[i].exerciseType, videoId);
      r := Shown;
    }

    /** delete_video (views.py:1023-1041): the owning therapist, on POST, removes the row. */
    method DeleteVideo(p: Principal, videoId: nat, post: bool) returns (r: Outcome)
      requires VideosValid()
      modifies this`videos
      ensures VideosValid()
      ensures !Permits(Action.DeleteVideo, p.role) ==> r == Denied && Snapshot() == old(Snapshot())
      ensures Permits(Action.DeleteVideo, p.role) ==>
        match VideoAt(old(videos), videoId)
        case None => r == NotFound && Snapshot() == old(Snapshot())
        case Some(i) =>
          if old(videos)[i].therapist != p.id then r == NotFound && Snapshot() == old(Snapshot())
          else if !post then r == Unchanged && Snapshot() == old(Snapshot())
          else r == Performed && videos == old(videos)[..i] + old(videos)[i + 1..]
      ensures r == Performed ==> forall v :: v in videos ==> v.id != videoId
      ensures r == Performed ==> forall v :: v in old(videos) && v.id != videoId ==> v in videos
    {
      assert Permits(Action.DeleteVideo, p.role) <==> p.role == THERAPIST;
      if p.role != THERAPIST {
        return Denied;
      }
      var found := VideoAt(videos, videoId);
      if found.None? || videos[found.value].therapist != p.id {
        return NotFound;
      }
      if !post {
        return Unchanged;
      }
      var i := found.value;
      videos := videos[..i] + videos[i + 1..];
      r := Performed;
    }
  }
}
