/** The task serializer's validation: which roles an assigner may give a
    task to. */
module Serializers {
  import opened Wrappers
  import opened Models

  const ADMIN_ASSIGNMENT_ERROR: string := "Admins can only assign tasks to Super Users or Users."
  const SUPER_USER_ASSIGNMENT_ERROR: string := "Super Users can only assign tasks to Users."

  /** Validates the data of a task about to be saved by `assigner`, the user
      making the request. Succeeds with the data unchanged, or fails with
      the validation message. */
  function Validate(assigner: CustomUser, data: TaskDraft): (r: Result<TaskDraft, string>)
    ensures r.Success? ==> r.value == data
    ensures data.assignedTo.None? ==> r.Success?
    ensures !IsAdmin(assigner) && !IsSuperUser(assigner) ==> r.Success?
    ensures IsAdmin(assigner) && data.assignedTo.Some? ==>
      (r.Success? <==> data.assignedTo.value.role in {SUPER_USER, USER})
    ensures IsAdmin(assigner) && r.Failure? ==> r.error == ADMIN_ASSIGNMENT_ERROR
    ensures IsSuperUser(assigner) && data.assignedTo.Some? ==>
      (r.Success? <==> IsStandardUser(data.assignedTo.value))
    ensures IsSuperUser(assigner) && r.Failure? ==> r.error == SUPER_USER_ASSIGNMENT_ERROR
  {
    var assignee := data.assignedTo;
    if assignee.Some? && assigner.role == ADMIN && assignee.value.role !in [SUPER_USER, USER] then
      Failure(ADMIN_ASSIGNMENT_ERROR)
    else if assignee.Some? && assigner.role == SUPER_USER && assignee.value.role != USER then
      Failure(SUPER_USER_ASSIGNMENT_ERROR)
    else
      Success(data)
  }

  /** An assignment the validation accepts never gives a task to a user
      of a role listed above the assigner's in the role choices, when the
      assigner is an admin or a super user. */
  lemma AcceptedAssignmentStaysBelow(assigner: CustomUser, data: TaskDraft)
    requires IsAdmin(assigner) || IsSuperUser(assigner)
    requires data.assignedTo.Some? && Validate(assigner, data).Success?
    ensures !IsSuperAdmin(data.assignedTo.value)
    ensures IsSuperUser(assigner) ==> !IsAdmin(data.assignedTo.value) && !IsSuperUser(data.assignedTo.value)
    ensures IsRole(data.assignedTo.value.role)
  {
    RoleChoicesAreTheFourRoles();
  }
}
