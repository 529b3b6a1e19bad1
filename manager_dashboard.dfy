/** The manager's operations hub: who is on duty and who is on leave today, the status of
    every staff member, today's sales total, the recent lists, the task form and the
    staff edit form. */
module ManagerDashboard {
  import opened Types
  import opened Text
  import opened AppState
  import SalesmanDashboard

  // ---------------------------------------------------------------- roll-ups

  /** An IN mark dated today. */
  predicate InToday(a: AttendanceRecord, today: string) {
    a.markType == In && StartsWith(a.timestamp, today)
  }

  /** An approved leave whose date range covers today (`today >= start && today <= end`
      in string order). */
  predicate LeaveCoversToday(l: LeaveRequest, today: string) {
    l.status == LeaveApproved && LexLe(l.startDate, today) && LexLe(today, l.endDate)
  }

  /** `attendance.filter(InToday)` */
  function InMarksToday(attendance: seq<AttendanceRecord>, today: string): (r: seq<AttendanceRecord>)
    ensures |r| <= |attendance|
    ensures forall a :: a in r <==> a in attendance && InToday(a, today)
    ensures forall a :: multiset(r)[a] == if InToday(a, today) then multiset(attendance)[a] else 0
  {
    if attendance == [] then []
    else
      assert attendance == [attendance[0]] + attendance[1..];
      if InToday(attendance[0], today) then [attendance[0]] + InMarksToday(attendance[1..], today)
      else InMarksToday(attendance[1..], today)
  }

  /** `new Set(marks.map(a => a.userId))` */
  function MarkUserIds(marks: seq<AttendanceRecord>): (r: set<string>)
    ensures |r| <= |marks|
    ensures forall id :: id in r <==> exists a :: a in marks && a.userId == id
  {
    if marks == [] then {}
    else
      var rest := MarkUserIds(marks[1..]);
      assert forall a :: a in marks <==> a == marks[0] || a in marks[1..];
      {marks[0].userId} + rest
  }

  /** `onDutyIds`: the users with at least one IN mark today. */
  function OnDutyIds(attendance: seq<AttendanceRecord>, today: string): set<string> {
    MarkUserIds(InMarksToday(attendance, today))
  }

  /** A user is on duty iff some IN mark of theirs is dated today; OUT marks play no part. */
  lemma OnDutyMeaning(attendance: seq<AttendanceRecord>, today: string, id: string)
    ensures id in OnDutyIds(attendance, today) <==>
      exists a :: a in attendance && a.userId == id && InToday(a, today)
  {
  }

  /** The on-duty count counts users, not IN events: it never exceeds the number of
      today's IN marks, a repeated IN of someone already on duty does not raise it, and a
      later OUT does not take anyone off duty. */
  lemma OnDutyCountsUsers(attendance: seq<AttendanceRecord>, rec: AttendanceRecord, today: string)
    ensures |OnDutyIds(attendance, today)| <= |InMarksToday(attendance, today)|
    ensures rec.markType == Out ==> OnDutyIds([rec] + attendance, today) == OnDutyIds(attendance, today)
    ensures rec.userId in OnDutyIds(attendance, today) ==>
      OnDutyIds([rec] + attendance, today) == OnDutyIds(attendance, today)
  {
    assert ([rec] + attendance)[1..] == attendance;
  }

  /** `leaves.filter(LeaveCoversToday)` */
  function LeavesToday(leaves: seq<LeaveRequest>, today: string): (r: seq<LeaveRequest>)
    ensures forall l :: l in r <==> l in leaves && LeaveCoversToday(l, today)
    ensures forall l :: multiset(r)[l] == if LeaveCoversToday(l, today) then multiset(leaves)[l] else 0
  {
    if leaves == [] then []
    else
      assert leaves == [leaves[0]] + leaves[1..];
      if LeaveCoversToday(leaves[0], today) then [leaves[0]] + LeavesToday(leaves[1..], today)
      else LeavesToday(leaves[1..], today)
  }

  function LeaveUserIds(ls: seq<LeaveRequest>): (r: set<string>)
    ensures forall id :: id in r <==> exists l :: l in ls && l.userId == id
  {
    if ls == [] then {}
    else
      var rest := LeaveUserIds(ls[1..]);
      assert forall l :: l in ls <==> l == ls[0] || l in ls[1..];
      {ls[0].userId} + rest
  }

  /** `onLeaveIds`: the users with an approved leave covering today. */
  function OnLeaveIds(leaves: seq<LeaveRequest>, today: string): set<string> {
    LeaveUserIds(LeavesToday(leaves, today))
  }

  /** A user is on leave iff some approved leave of theirs has start <= today <= end;
      pending and rejected requests never count. */
  lemma OnLeaveMeaning(leaves: seq<LeaveRequest>, today: string, id: string)
    ensures id in OnLeaveIds(leaves, today) <==>
      exists l :: l in leaves && l.userId == id && l.status == LeaveApproved &&
                  LexLe(l.startDate, today) && LexLe(today, l.endDate)
  {
  }

  /** A request that is not approved leaves the on-leave set as it was. */
  lemma UnapprovedLeaveNeverCounts(leaves: seq<LeaveRequest>, req: LeaveRequest, today: string)
    requires req.status != LeaveApproved
    ensures OnLeaveIds([req] + leaves, today) == OnLeaveIds(leaves, today)
  {
    assert ([req] + leaves)[1..] == leaves;
  }

  /** A leave whose end date sorts strictly before its start date covers no day at all. */
  lemma {:induction false} ReversedLeaveCoversNothing(l: LeaveRequest, today: string)
    requires LexLe(l.endDate, l.startDate) && l.endDate != l.startDate
    ensures !LeaveCoversToday(l, today)
  {
    if LeaveCoversToday(l, today) {
      LexLeTransitive(l.startDate, today, l.endDate);
      LexLeAntisymmetric(l.startDate, l.endDate);
    }
  }

  datatype StaffStatus = Working | OnLeave | Absent

  /** The status badge of one staff member: Working before On Leave before Absent. */
  function StatusOf(id: string, onDuty: set<string>, onLeave: set<string>): StaffStatus {
    if id in onDuty then Working else if id in onLeave then OnLeave else Absent
  }

  /** The status column of "Today's Staff Status", one entry per staff record, in order. */
  function StaffStatuses(staff: seq<User>, attendance: seq<AttendanceRecord>, leaves: seq<LeaveRequest>,
                         today: string): (r: seq<StaffStatus>)
    ensures |r| == |staff|
    ensures forall i :: 0 <= i < |staff| ==>
      (r[i] == Working <==> exists a :: a in attendance && a.userId == staff[i].id && InToday(a, today))
    ensures forall i :: 0 <= i < |staff| ==>
      (r[i] == OnLeave <==>
        (forall a :: a in attendance && a.userId == staff[i].id ==> !InToday(a, today)) &&
        (exists l :: l in leaves && l.userId == staff[i].id && LeaveCoversToday(l, today)))
  {
    var onDuty := OnDutyIds(attendance, today);
    var onLeave := OnLeaveIds(leaves, today);
    var r := seq(|staff|, i requires 0 <= i < |staff| => StatusOf(staff[i].id, onDuty, onLeave));
    assert forall i :: 0 <= i < |staff| ==>
      (staff[i].id in onDuty <==> exists a :: a in attendance && a.userId == staff[i].id && InToday(a, today)) &&
      (staff[i].id in onLeave <==> exists l :: l in leaves && l.userId == staff[i].id && LeaveCoversToday(l, today))
    by {
      forall i | 0 <= i < |staff|
        ensures staff[i].id in onDuty <==> exists a :: a in attendance && a.userId == staff[i].id && InToday(a, today)
        ensures staff[i].id in onLeave <==> exists l :: l in leaves && l.userId == staff[i].id && LeaveCoversToday(l, today)
      {
        OnDutyMeaning(attendance, today, staff[i].id);
        OnLeaveMeaning(leaves, today, staff[i].id);
      }
    }
    r
  }

  /** The "Today's Sales" tile: the revenue over all salesmen's sales dated today. */
  function TodaySalesTotal(sales: seq<SalesRecord>, today: string): (total: real)
    ensures total == SalesmanDashboard.SumValues(SalesmanDashboard.TodaySales(sales, today))
  {
    SalesmanDashboard.RevenueIsSumOfToday(sales, today);
    SalesmanDashboard.TodayRevenue(sales, today)
  }

  /** "Recent Shop Sales": the first five sales of the newest-first list. */
  function RecentSales(sales: seq<SalesRecord>): (r: seq<SalesRecord>)
    ensures r <= sales
    ensures |r| == if |sales| < 5 then |sales| else 5
  {
    Take(sales, 5)
  }

  /** A task with the name of the staff member it is assigned to. */
  datatype Assignment = Assignment(task: Task, owner: string)

  function OwnedBy(tasks: seq<Task>, owner: string): (r: seq<Assignment>)
    ensures |r| == |tasks|
    ensures forall k :: 0 <= k < |tasks| ==> r[k] == Assignment(tasks[k], owner)
  {
    if tasks == [] then [] else [Assignment(tasks[0], owner)] + OwnedBy(tasks[1..], owner)
  }

  /** `staffList.flatMap(s => (s.assignedTasks || []).map(t => ({...t, owner: s.name})))` */
  function Assignments(staff: seq<User>): seq<Assignment> {
    if staff == [] then [] else OwnedBy(TasksOf(staff[0]), staff[0].name) + Assignments(staff[1..])
  }

  /** "Recent Assignments": the first five of the flattened list. */
  function RecentAssignments(staff: seq<User>): (r: seq<Assignment>)
    ensures r <= Assignments(staff)
    ensures |r| == if |Assignments(staff)| < 5 then |Assignments(staff)| else 5
  {
    Take(Assignments(staff), 5)
  }

  /** The flattening follows the staff list, not the time of assignment: when the first
      staff member already holds five tasks, the list shows only theirs, however recently
      anybody else received one. */
  lemma RecentAssignmentsFollowStaffOrder(staff: seq<User>)
    requires staff != [] && |TasksOf(staff[0])| >= 5
    ensures |RecentAssignments(staff)| == 5
    ensures forall k :: 0 <= k < 5 ==> RecentAssignments(staff)[k] == Assignment(TasksOf(staff[0])[k], staff[0].name)
  {
    var own := OwnedBy(TasksOf(staff[0]), staff[0].name);
    assert Assignments(staff) == own + Assignments(staff[1..]);
    assert forall k :: 0 <= k < 5 ==> Assignments(staff)[k] == own[k];
  }

  // ---------------------------------------------------------------- forms

  datatype TaskForm = TaskForm(title: string, userId: string, description: string)

  /** The task sent by a submit of `form`. */
  function NewTask(form: TaskForm, id: string): (t: Task)
    ensures t.id == id && t.title == form.title
    ensures t.status == TaskPending && t.deadline == "End of Day"
    ensures t.description == if form.description == "" then "Assigned by Manager" else form.description
  {
    Task(id, form.title, if form.description == "" then "Assigned by Manager" else form.description,
         TaskPending, "End of Day")
  }

  /** The task sent by a submit lands at the front of its target's task list, in front of
      the tasks already there, as PENDING and due "End of Day". */
  lemma SubmittedTaskHeadsTargetList(staff: seq<User>, form: TaskForm, id: string, i: int)
    requires 0 <= i < |staff| && staff[i].id == form.userId
    ensures var r := DeployTaskList(staff, form.userId, NewTask(form, id));
      TasksOf(r[i]) == [NewTask(form, id)] + TasksOf(staff[i]) &&
      TasksOf(r[i])[0].status == TaskPending && TasksOf(r[i])[0].title == form.title
  {
  }

  /** The operations hub of a signed-in manager; deployments and edits go to the store. */
  class ManagerPanel {
    const store: AppStore
    var taskForm: TaskForm
    var editingStaff: Option<User>

    /** The form starts with the first staff member selected (or none when the list is
        empty). */
    constructor (store: AppStore)
      ensures this.store == store && editingStaff == None
      ensures taskForm == TaskForm("", if store.staffList == [] then "" else store.staffList[0].id, "")
    {
      this.store := store;
      taskForm := TaskForm("", if store.staffList == [] then "" else store.staffList[0].id, "");
      editingStaff := None;
    }

    method SelectEmployee(userId: string)
      modifies this`taskForm
      ensures taskForm == old(taskForm).(userId := userId)
    {
      taskForm := taskForm.(userId := userId);
    }

    method SetTitle(title: string)
      modifies this`taskForm
      ensures taskForm == old(taskForm).(title := title)
    {
      taskForm := taskForm.(title := title);
    }

    method SetDescription(description: string)
      modifies this`taskForm
      ensures taskForm == old(taskForm).(description := description)
    {
      taskForm := taskForm.(description := description);
    }

    /** `handleTaskSubmit`: without a title or a selected user nothing happens; otherwise
        the task is deployed and title and description are cleared, the selection kept. */
    method HandleTaskSubmit(id: string)
      modifies this`taskForm, store`staffList, store`user
      ensures old(taskForm).title == "" || old(taskForm).userId == "" ==>
        taskForm == old(taskForm) && store.staffList == old(store.staffList) && store.user == old(store.user)
      ensures old(taskForm).title != "" && old(taskForm).userId != "" ==>
        store.staffList == DeployTaskList(old(store.staffList), old(taskForm).userId, NewTask(old(taskForm), id)) &&
        taskForm == TaskForm("", old(taskForm).userId, "") &&
        store.user == if old(store.user).Some? && old(store.user).value.id == old(taskForm).userId
                      then FindById(store.staffList, old(taskForm).userId) else old(store.user)
      ensures editingStaff == old(editingStaff)
    {
      if taskForm.title == "" || taskForm.userId == "" {
        return;
      }
      store.DeployTask(taskForm.userId, NewTask(taskForm, id));
      taskForm := taskForm.(title := "", description := "");
    }

    /** The edit button of a staff card opens the edit form on that record. */
    method StartEdit(staff: User)
      modifies this`editingStaff
      ensures editingStaff == Some(staff)
    {
      editingStaff := Some(staff);
    }

    method CancelEdit()
      modifies this`editingStaff
      ensures editingStaff == None
    {
      editingStaff := None;
    }

    /** `handleEditSave`: sends the edited record to the store and closes the form. */
    method HandleEditSave()
      modifies this`editingStaff, store`staffList, store`user
      ensures editingStaff == None
      ensures old(editingStaff).None? ==>
        store.staffList == old(store.staffList) && store.user == old(store.user)
      ensures old(editingStaff).Some? ==>
        store.staffList == ReplaceById(old(store.staffList), old(editingStaff).value) &&
        store.user == if old(store.user).Some? && old(store.user).value.id == old(editingStaff).value.id
                      then old(editingStaff) else old(store.user)
      ensures taskForm == old(taskForm)
    {
      if editingStaff.Some? {
        store.UpdateStaffProfile(editingStaff.value);
        editingStaff := None;
      }
    }
  }
}
