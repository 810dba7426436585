/** The manager endpoints: the approval queue of the signed-in user, and the
    approve/reject action on one expense. */
module ManagerApi {
  import opened Common
  import opened ExpenseCrud

  datatype Response = Success(message: string) | HttpError(code: int, detail: string)

  /** The `approved` query flag decides between the two terminal statuses. */
  function DecisionStatus(approved: bool): (s: ExpenseStatus)
    ensures s == Approved <==> approved
    ensures s == Rejected <==> !approved
    ensures s != Draft && s != PendingApproval
  {
    if approved then Approved else Rejected
  }

  /** `get_pending_approvals`: the approval query for the caller's own id. */
  method GetPendingApprovals(db: Database, currentUser: User) returns (r: seq<Expense>)
    ensures forall e :: e in r <==>
      e in db.expenses && e.status == PendingApproval && DirectReport(db.users, e.employeeId, currentUser.id)
  {
    r := ExpensesForManagerApproval(db.users, db.expenses, currentUser.id);
  }

  /** `update_approval_status`. Neither the caller's place in any workflow nor the
      expense's current status is consulted: `currentUser` plays no part. */
  method UpdateApprovalStatus(db: Database, expenseId: Uuid, approved: bool, currentUser: User)
    returns (response: Response)
    requires db.Valid()
    modifies db
    ensures db.Valid()
    ensures db.users == old(db.users)
    ensures (forall e | e in old(db.expenses) :: e.id != expenseId) ==>
      response == HttpError(404, "Expense not found") && db.expenses == old(db.expenses)
    ensures (exists e | e in old(db.expenses) :: e.id == expenseId) ==>
      var i := FindExpense(old(db.expenses), expenseId).value;
      && db.expenses == old(db.expenses)[i := old(db.expenses)[i].(status := DecisionStatus(approved))]
      && response == Success("Expense status updated to " + StatusValue(DecisionStatus(approved)))
  {
    var newStatus := DecisionStatus(approved);
    var updated := db.UpdateExpenseStatus(expenseId, newStatus);
    if updated.None? {
      return HttpError(404, "Expense not found");
    }
    response := Success("Expense status updated to " + StatusValue(newStatus));
  }

  /** The success message names the status that was written, in its stored form. */
  lemma SuccessMessages()
    ensures "Expense status updated to " + StatusValue(DecisionStatus(true)) == "Expense status updated to approved"
    ensures "Expense status updated to " + StatusValue(DecisionStatus(false)) == "Expense status updated to rejected"
  {
  }
}
