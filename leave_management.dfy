/** The leave screen: a form (type, start date, end date, reason) whose submit files a
    PENDING request with the store. No date is checked. */
module LeaveManagement {
  import opened Types
  import opened AppState
  import ManagerDashboard

  datatype LeaveFormData = LeaveFormData(leaveType: LeaveType, startDate: string, endDate: string, reason: string)

  const InitialForm: LeaveFormData := LeaveFormData(Sick, "", "", "")

  /** The request filed for `form`: always PENDING, the form's fields copied as they are. */
  function NewRequest(userId: string, form: LeaveFormData, id: string): (req: LeaveRequest)
    ensures req.status == LeavePending
    ensures req.id == id && req.userId == userId
    ensures req.leaveType == form.leaveType && req.startDate == form.startDate &&
            req.endDate == form.endDate && req.reason == form.reason
  {
    LeaveRequest(id, userId, form.leaveType, form.startDate, form.endDate, LeavePending, form.reason)
  }

  /** A freshly filed request puts nobody on leave, whatever its dates: only a manager's
      approval could, and the app has no action that approves. */
  lemma FiledRequestPutsNobodyOnLeave(leaves: seq<LeaveRequest>, userId: string, form: LeaveFormData,
                                      id: string, today: string)
    ensures ManagerDashboard.OnLeaveIds([NewRequest(userId, form, id)] + leaves, today) ==
            ManagerDashboard.OnLeaveIds(leaves, today)
  {
    ManagerDashboard.UnapprovedLeaveNeverCounts(leaves, NewRequest(userId, form, id), today);
  }

  class LeaveForm {
    const userId: string
    const store: AppStore
    var isApplying: bool
    var formData: LeaveFormData

    constructor (userId: string, store: AppStore)
      ensures this.userId == userId && this.store == store
      ensures !isApplying && formData == InitialForm
    {
      this.userId := userId;
      this.store := store;
      isApplying := false;
      formData := InitialForm;
    }

    /** The "+" button opens the form. */
    method Open()
      modifies this`isApplying
      ensures isApplying
    {
      isApplying := true;
    }

    /** The close button of the form. */
    method Close()
      modifies this`isApplying
      ensures !isApplying
    {
      isApplying := false;
    }

    method SetType(t: LeaveType)
      modifies this`formData
      ensures formData == old(formData).(leaveType := t)
    {
      formData := formData.(leaveType := t);
    }

    method SetStartDate(d: string)
      modifies this`formData
      ensures formData == old(formData).(startDate := d)
    {
      formData := formData.(startDate := d);
    }

    method SetEndDate(d: string)
      modifies this`formData
      ensures formData == old(formData).(endDate := d)
    {
      formData := formData.(endDate := d);
    }

    method SetReason(r: string)
      modifies this`formData
      ensures formData == old(formData).(reason := r)
    {
      formData := formData.(reason := r);
    }

    /** `handleSubmit`: files the request (an end date before the start date included),
        closes the form and keeps the fields as they were. */
    method HandleSubmit(id: string)
      modifies this`isApplying, store`leaves
      ensures store.leaves == [NewRequest(userId, formData, id)] + old(store.leaves)
      ensures !isApplying && formData == old(formData)
    {
      store.AddLeaveRequest(NewRequest(userId, formData, id));
      isApplying := false;
    }
  }
}
