/** The record types shared by every screen of the field-force app.
    Optional fields of the source (`password?`, `assignedTasks?`, ...) are `Option`s;
    optional fields that no modelled code ever sets (shop address, delivery date,
    place label) are not represented. */
module Types {

  datatype Option<+T> = None | Some(value: T) {
    function GetOr(default: T): T {
      match this
      case Some(v) => v
      case None => default
    }
  }

  datatype Role = Salesman | Manager

  datatype TaskStatus = TaskPending | TaskCompleted

  datatype Task = Task(id: string, title: string, description: string, status: TaskStatus, deadline: string)

  /** A staff member or the registered user of the device. */
  datatype User = User(
    id: string,
    employeeId: string,
    name: string,
    phone: string,
    email: string,
    role: Role,
    points: int,
    salary: real,
    pf: real,
    department: string,
    joiningDate: string,
    bloodGroup: string,
    password: Option<string>,
    photoSeed: Option<string>,
    assignedTasks: Option<seq<Task>>,
    aadharNo: Option<string>,
    idProofType: Option<string>,
    companyIdNo: Option<string>)

  /** `user.assignedTasks || []`: an absent task list reads as empty. */
  function TasksOf(u: User): seq<Task> {
    u.assignedTasks.GetOr([])
  }

  datatype LeaveType = Sick | Casual | Earned

  datatype LeaveStatus = LeavePending | LeaveApproved | LeaveRejected

  /** Dates are the ISO `YYYY-MM-DD` strings the form's date inputs produce. */
  datatype LeaveRequest = LeaveRequest(
    id: string,
    userId: string,
    leaveType: LeaveType,
    startDate: string,
    endDate: string,
    status: LeaveStatus,
    reason: string)

  datatype Location = Location(lat: real, lng: real)

  /** One logged medicine sale at a shop; `timestamp` is an ISO date-time string. */
  datatype SalesRecord = SalesRecord(
    id: string,
    salesmanId: string,
    salesmanName: string,
    shopName: string,
    medicineName: string,
    quantity: int,
    value: real,
    profit: real,
    timestamp: string,
    location: Location)

  datatype MarkType = In | Out

  /** One attendance mark; `photo` is the captured image as an opaque data URL. */
  datatype AttendanceRecord = AttendanceRecord(
    id: string,
    userId: string,
    userName: string,
    markType: MarkType,
    timestamp: string,
    photo: string,
    location: Location,
    isValid: bool)
}
