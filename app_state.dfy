/** The root application state: the session user, the current view and the four
    collections (sales, attendance, leave, staff). Every collection is held newest first;
    the handlers replace a collection by a new list built from the old one. */
module AppState {
  import opened Types

  datatype View = Dashboard | AttendanceView | SalesView | ProfileView | LeavesView | AboutView | HistoryView

  /** The roster the app starts with before anything is loaded. */
  function DefaultStaff(): seq<User> {
    [ User("S101", "ELD-SLS-101", "Rajesh Kumar", "9876543210", "rajesh.k@elderpharma.com", Salesman,
           1250, 35000.0, 1800.0, "Pharma Sales", "2022-03-15", "B+", None, None, Some([]), None, None, None),
      User("S102", "ELD-SLS-102", "Amit Singh", "9822110033", "amit.s@elderpharma.com", Salesman,
           980, 32000.0, 1600.0, "Pharma Sales", "2023-01-10", "A+", None, None, Some([]), None, None, None) ]
  }

  /** `staff.find(s => s.id === id)`: the first record with that id, if any. */
  function FindById(staff: seq<User>, id: string): (r: Option<User>)
    ensures r.None? <==> forall i :: 0 <= i < |staff| ==> staff[i].id != id
    ensures r.Some? ==> exists i :: 0 <= i < |staff| && staff[i] == r.value && r.value.id == id &&
                                    forall j :: 0 <= j < i ==> staff[j].id != id
  {
    if staff == [] then None
    else if staff[0].id == id then Some(staff[0])
    else
      var r := FindById(staff[1..], id);
      if r.Some? then
        ghost var i :| 0 <= i < |staff[1..]| && staff[1..][i] == r.value && r.value.id == id &&
                       forall j :: 0 <= j < i ==> staff[1..][j].id != id;
        assert staff[i + 1] == r.value;
        r
      else r
  }

  /** The record the session switches to on login: the staff record with the same id
      when there is one, otherwise the given user. */
  function ResolveLogin(staff: seq<User>, u: User): (r: User)
    ensures r.id == u.id
    ensures (exists i :: 0 <= i < |staff| && staff[i].id == u.id) ==> r in staff
    ensures (forall i :: 0 <= i < |staff| ==> staff[i].id != u.id) ==> r == u
    ensures FindById(staff, u.id).Some? ==> r == FindById(staff, u.id).value
  {
    FindById(staff, u.id).GetOr(u)
  }

  /** The staff record after a task is put at the front of its task list. */
  function WithTask(s: User, task: Task): User {
    s.(assignedTasks := Some([task] + TasksOf(s)))
  }

  /** The staff list after `deployTask(userId, task)`. */
  function DeployTaskList(staff: seq<User>, userId: string, task: Task): (r: seq<User>)
    ensures |r| == |staff|
    ensures forall i :: 0 <= i < |staff| && staff[i].id == userId ==>
      r[i] == staff[i].(assignedTasks := Some([task] + TasksOf(staff[i])))
    ensures forall i :: 0 <= i < |staff| && staff[i].id != userId ==> r[i] == staff[i]
  {
    if staff == [] then []
    else
      var head := if staff[0].id == userId then WithTask(staff[0], task) else staff[0];
      [head] + DeployTaskList(staff[1..], userId, task)
  }

  /** The staff list after `updateStaffProfile(updated)`. */
  function ReplaceById(staff: seq<User>, updated: User): (r: seq<User>)
    ensures |r| == |staff|
    ensures forall i :: 0 <= i < |staff| ==>
      r[i] == (if staff[i].id == updated.id then updated else staff[i])
  {
    if staff == [] then []
    else [if staff[0].id == updated.id then updated else staff[0]] + ReplaceById(staff[1..], updated)
  }

  /** Ids of a staff list, in order. */
  function Ids(staff: seq<User>): (r: seq<string>)
    ensures |r| == |staff| && forall i :: 0 <= i < |staff| ==> r[i] == staff[i].id
  {
    if staff == [] then [] else [staff[0].id] + Ids(staff[1..])
  }

  /** Neither update adds, removes, reorders or re-keys a staff record. */
  lemma UpdatesKeepIds(staff: seq<User>, userId: string, task: Task, updated: User)
    ensures Ids(DeployTaskList(staff, userId, task)) == Ids(staff)
    ensures Ids(ReplaceById(staff, updated)) == Ids(staff)
  {
  }

  /** With an id that no record has, deploying a task changes nothing. */
  lemma {:induction false} DeployToUnknownIdIsIdentity(staff: seq<User>, userId: string, task: Task)
    requires forall i :: 0 <= i < |staff| ==> staff[i].id != userId
    ensures DeployTaskList(staff, userId, task) == staff
  {
    var r := DeployTaskList(staff, userId, task);
    assert forall i :: 0 <= i < |staff| ==> r[i] == staff[i];
  }

  /** Looking the target up again after deploying finds the old record with the task in front. */
  lemma {:induction false} FindAfterDeploy(staff: seq<User>, userId: string, task: Task)
    ensures FindById(DeployTaskList(staff, userId, task), userId) ==
      match FindById(staff, userId)
      case None => None
      case Some(s) => Some(WithTask(s, task))
  {
    if staff != [] {
      FindAfterDeploy(staff[1..], userId, task);
      assert DeployTaskList(staff, userId, task)[1..] == DeployTaskList(staff[1..], userId, task);
    }
  }

  /** `list.filter(r => r.userId === id)` for the three per-user props the App hands down.
      Each filter keeps every record of the user as often as it occurs and drops the rest;
      the `...ViewAfterAdd` lemmas show that the order is the store's order. */
  function AttendanceOf(logs: seq<AttendanceRecord>, userId: string): (r: seq<AttendanceRecord>)
    ensures forall a :: a in r <==> a in logs && a.userId == userId
    ensures forall a :: multiset(r)[a] == if a.userId == userId then multiset(logs)[a] else 0
  {
    if logs == [] then []
    else
      assert logs == [logs[0]] + logs[1..];
      if logs[0].userId == userId then [logs[0]] + AttendanceOf(logs[1..], userId)
      else AttendanceOf(logs[1..], userId)
  }

  function SalesOf(sales: seq<SalesRecord>, userId: string): (r: seq<SalesRecord>)
    ensures forall s :: s in r <==> s in sales && s.salesmanId == userId
    ensures forall s :: multiset(r)[s] == if s.salesmanId == userId then multiset(sales)[s] else 0
  {
    if sales == [] then []
    else
      assert sales == [sales[0]] + sales[1..];
      if sales[0].salesmanId == userId then [sales[0]] + SalesOf(sales[1..], userId)
      else SalesOf(sales[1..], userId)
  }

  function LeavesOf(leaves: seq<LeaveRequest>, userId: string): (r: seq<LeaveRequest>)
    ensures forall l :: l in r <==> l in leaves && l.userId == userId
    ensures forall l :: multiset(r)[l] == if l.userId == userId then multiset(leaves)[l] else 0
  {
    if leaves == [] then []
    else
      assert leaves == [leaves[0]] + leaves[1..];
      if leaves[0].userId == userId then [leaves[0]] + LeavesOf(leaves[1..], userId)
      else LeavesOf(leaves[1..], userId)
  }

  /** A record added through the store shows up at the front of its owner's view, and
      the view of every other user is unchanged. */
  lemma AttendanceViewAfterAdd(logs: seq<AttendanceRecord>, rec: AttendanceRecord, userId: string)
    ensures AttendanceOf([rec] + logs, userId) ==
      if rec.userId == userId then [rec] + AttendanceOf(logs, userId) else AttendanceOf(logs, userId)
  {
    assert ([rec] + logs)[1..] == logs;
  }

  /** The same for a salesman's sales view. */
  lemma SalesViewAfterAdd(sales: seq<SalesRecord>, rec: SalesRecord, userId: string)
    ensures SalesOf([rec] + sales, userId) ==
      if rec.salesmanId == userId then [rec] + SalesOf(sales, userId) else SalesOf(sales, userId)
  {
    assert ([rec] + sales)[1..] == sales;
  }

  /** The same for a user's leave view. */
  lemma LeavesViewAfterAdd(leaves: seq<LeaveRequest>, req: LeaveRequest, userId: string)
    ensures LeavesOf([req] + leaves, userId) ==
      if req.userId == userId then [req] + LeavesOf(leaves, userId) else LeavesOf(leaves, userId)
  {
    assert ([req] + leaves)[1..] == leaves;
  }

  class AppStore {
    var user: Option<User>
    var view: View
    var salesData: seq<SalesRecord>
    var attendanceLogs: seq<AttendanceRecord>
    var leaves: seq<LeaveRequest>
    var staffList: seq<User>

    /** The state before the saved collections are loaded. */
    constructor ()
      ensures user == None && view == Dashboard
      ensures salesData == [] && attendanceLogs == [] && leaves == []
      ensures staffList == DefaultStaff()
    {
      user := None;
      view := Dashboard;
      salesData := [];
      attendanceLogs := [];
      leaves := [];
      staffList := DefaultStaff();
    }

    /** The session user becomes the staff record with the same id, or `u` itself. */
    method HandleLogin(u: User)
      modifies this`user
      ensures user == Some(ResolveLogin(staffList, u))
      ensures view == old(view) && staffList == old(staffList)
      ensures salesData == old(salesData) && attendanceLogs == old(attendanceLogs) && leaves == old(leaves)
    {
      user := Some(ResolveLogin(staffList, u));
    }

    method HandleLogout()
      modifies this`user, this`view
      ensures user == None && view == Dashboard
      ensures staffList == old(staffList)
      ensures salesData == old(salesData) && attendanceLogs == old(attendanceLogs) && leaves == old(leaves)
    {
      user := None;
      view := Dashboard;
    }

    /** Navigation from the layout's menu. */
    method SetView(v: View)
      modifies this`view
      ensures view == v
    {
      view := v;
    }

    method AddSalesRecord(record: SalesRecord)
      modifies this`salesData
      ensures salesData == [record] + old(salesData)
    {
      salesData := [record] + salesData;
    }

    method AddAttendanceRecord(record: AttendanceRecord)
      modifies this`attendanceLogs
      ensures attendanceLogs == [record] + old(attendanceLogs)
    {
      attendanceLogs := [record] + attendanceLogs;
    }

    method AddLeaveRequest(req: LeaveRequest)
      modifies this`leaves
      ensures leaves == [req] + old(leaves)
    {
      leaves := [req] + leaves;
    }

    /** Puts `task` in front of the task list of every staff record with id `userId`; a
        session user with that id is re-read from the new list (and, should the list hold
        no such record, the session is cleared, as `find(...) || null` does). */
    method DeployTask(userId: string, task: Task)
      modifies this`staffList, this`user
      ensures staffList == DeployTaskList(old(staffList), userId, task)
      ensures user == if old(user).Some? && old(user).value.id == userId
                      then FindById(staffList, userId) else old(user)
    {
      var updatedStaff := DeployTaskList(staffList, userId, task);
      staffList := updatedStaff;
      if user.Some? && user.value.id == userId {
        user := FindById(updatedStaff, userId);
      }
    }

    /** Replaces every staff record whose id matches; a session user with that id becomes
        the new record. */
    method UpdateStaffProfile(updatedUser: User)
      modifies this`staffList, this`user
      ensures staffList == ReplaceById(old(staffList), updatedUser)
      ensures user == if old(user).Some? && old(user).value.id == updatedUser.id
                      then Some(updatedUser) else old(user)
    {
      staffList := ReplaceById(staffList, updatedUser);
      if user.Some? && user.value.id == updatedUser.id {
        user := Some(updatedUser);
      }
    }
  }

  /** When the session user is on the roster and is the target of a task, the session
      afterwards holds that user's record with the task at the front of its list. */
  lemma SessionAfterDeploy(staff: seq<User>, userId: string, task: Task, s: User)
    requires FindById(staff, userId) == Some(s)
    ensures FindById(DeployTaskList(staff, userId, task), userId) == Some(WithTask(s, task))
    ensures TasksOf(WithTask(s, task)) == [task] + TasksOf(s)
  {
    FindAfterDeploy(staff, userId, task);
  }
}
