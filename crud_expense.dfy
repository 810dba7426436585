/** The backend's expense table: the user and expense rows it reads, the two
    queries over them, and the two operations that change the table (creating an
    expense for an employee and overwriting an expense's status). */
module ExpenseCrud {
  import opened Common

  /** Primary keys and foreign keys; only compared for equality. */
  type Uuid = string

  /** A `Numeric(10, 2)` column; stored and returned, never computed with here. */
  type Amount = real

  datatype UserRole = Admin | Employee

  datatype ExpenseStatus = Draft | PendingApproval | Approved | Rejected

  /** The string an `ExpenseStatus` member carries as its value. */
  function StatusValue(s: ExpenseStatus): string
  {
    match s
    case Draft => "draft"
    case PendingApproval => "pending_approval"
    case Approved => "approved"
    case Rejected => "rejected"
  }

  datatype User = User(id: Uuid, companyId: Uuid, managerId: Option<Uuid>, email: string, role: UserRole)

  /** The request body of an expense submission. */
  datatype ExpenseCreate = ExpenseCreate(
    description: string, amount: Amount, currency: string, category: Option<string>,
    expenseDate: string, workflowId: Uuid)

  datatype Expense = Expense(
    id: Uuid, employeeId: Uuid, companyId: Uuid, workflowId: Uuid,
    description: string, amount: Amount, currency: string, category: Option<string>,
    expenseDate: string, status: ExpenseStatus)

  /** `db.query(User).filter(User.id == id).first()`. */
  function FindUser(users: seq<User>, id: Uuid): (r: Option<User>)
    ensures r.None? <==> forall u | u in users :: u.id != id
    ensures r.Some? ==> r.value in users && r.value.id == id
    ensures r.Some? ==> exists i | 0 <= i < |users| :: users[i] == r.value && forall j | 0 <= j < i :: users[j].id != id
  {
    if users == [] then None
    else if users[0].id == id then Some(users[0])
    else
      var r := FindUser(users[1..], id);
      assert r.Some? ==> exists i | 0 <= i < |users[1..]| :: users[1..][i] == r.value && forall j | 0 <= j < i :: users[1..][j].id != id;
      assert r.Some? ==> exists i | 0 <= i < |users| :: users[i] == r.value && forall j | 0 <= j < i :: users[j].id != id by {
        if r.Some? {
          var i :| 0 <= i < |users[1..]| && users[1..][i] == r.value && forall j | 0 <= j < i :: users[1..][j].id != id;
          assert users[i + 1] == r.value;
          assert forall j | 0 <= j < i + 1 :: users[j].id != id by {
            forall j | 0 <= j < i + 1 ensures users[j].id != id {
              if j > 0 { assert users[j] == users[1..][j - 1]; }
            }
          }
        }
      }
      r
  }

  /** The position of the first expense row with the given id, as `.first()` finds it. */
  function FindExpense(expenses: seq<Expense>, id: Uuid): (r: Option<nat>)
    ensures r.None? <==> forall e | e in expenses :: e.id != id
    ensures r.Some? ==> r.value < |expenses| && expenses[r.value].id == id
    ensures r.Some? ==> forall j | 0 <= j < r.value :: expenses[j].id != id
  {
    if expenses == [] then None
    else if expenses[0].id == id then Some(0)
    else
      match FindExpense(expenses[1..], id)
      case None => None
      case Some(k) => Some(k + 1)
  }

  /** `get_expenses_by_employee`: the rows whose `employee_id` is the argument. */
  function ExpensesByEmployee(expenses: seq<Expense>, employeeId: Uuid): (r: seq<Expense>)
    ensures forall e :: e in r <==> e in expenses && e.employeeId == employeeId
    ensures forall e :: multiset(r)[e] == if e.employeeId == employeeId then multiset(expenses)[e] else 0
  {
    if expenses == [] then []
    else
      assert expenses == [expenses[0]] + expenses[1..];
      (if expenses[0].employeeId == employeeId then [expenses[0]] else [])
      + ExpensesByEmployee(expenses[1..], employeeId)
  }

  /** `employeeId` belongs to a user whose own `manager_id` is `managerId`. */
  ghost predicate DirectReport(users: seq<User>, employeeId: Uuid, managerId: Uuid)
  {
    exists u | u in users :: u.id == employeeId && u.managerId == Some(managerId)
  }

  /** The subquery of `get_expenses_for_manager_approval`: ids of direct reports. */
  function SubordinateIds(users: seq<User>, managerId: Uuid): (ids: seq<Uuid>)
    ensures forall id :: id in ids <==> DirectReport(users, id, managerId)
  {
    if users == [] then []
    else
      assert forall u :: u in users <==> u == users[0] || u in users[1..];
      (if users[0].managerId == Some(managerId) then [users[0].id] else [])
      + SubordinateIds(users[1..], managerId)
  }

  function FilterPendingFrom(expenses: seq<Expense>, ids: seq<Uuid>): (r: seq<Expense>)
    ensures forall e :: e in r <==> e in expenses && e.status == PendingApproval && e.employeeId in ids
  {
    if expenses == [] then []
    else
      var e := expenses[0];
      (if e.status == PendingApproval && e.employeeId in ids then [e] else [])
      + FilterPendingFrom(expenses[1..], ids)
  }

  /** `get_expenses_for_manager_approval`: pending expenses of the manager's direct reports. */
  function ExpensesForManagerApproval(users: seq<User>, expenses: seq<Expense>, managerId: Uuid): (r: seq<Expense>)
    ensures forall e :: e in r <==>
      e in expenses && e.status == PendingApproval && DirectReport(users, e.employeeId, managerId)
  {
    FilterPendingFrom(expenses, SubordinateIds(users, managerId))
  }

  /** Reporting is not transitive: an employee whose every user row names some other
      manager contributes nothing to this manager's queue, even if that other
      manager reports to this one. */
  lemma OnlyDirectReports(users: seq<User>, expenses: seq<Expense>, managerId: Uuid, employeeId: Uuid, middle: Uuid)
    requires middle != managerId
    requires forall u | u in users && u.id == employeeId :: u.managerId == Some(middle)
    ensures forall e | e in ExpensesForManagerApproval(users, expenses, managerId) :: e.employeeId != employeeId
  {
  }

  /** Primary keys are unique and every expense's employee exists (the foreign key
      to the user table). Beyond the keys, the employee's company is the company
      recorded on the expense: no key enforces that, `create_expense` maintains it. */
  ghost predicate TablesValid(users: seq<User>, expenses: seq<Expense>)
  {
    && (forall i, j | 0 <= i < j < |users| :: users[i].id != users[j].id)
    && (forall i, j | 0 <= i < j < |expenses| :: expenses[i].id != expenses[j].id)
    && (forall e | e in expenses :: exists u | u in users :: u.id == e.employeeId && u.companyId == e.companyId)
  }

  /** The expense table together with the user table it refers to. */
  class Database {
    var users: seq<User>
    var expenses: seq<Expense>

    ghost predicate Valid()
      reads this
    {
      TablesValid(users, expenses)
    }

    /** Opens the tables as the database holds them: keys unique, every expense's
        employee present and in the expense's company. */
    constructor (users: seq<User>, expenses: seq<Expense>)
      requires TablesValid(users, expenses)
      ensures this.users == users && this.expenses == expenses
      ensures Valid()
    {
      this.users := users;
      this.expenses := expenses;
    }

    /** `create_expense`. `newId` is the key the column default generates; it is
        assumed not to collide with an existing row. */
    method CreateExpense(input: ExpenseCreate, employeeId: Uuid, newId: Uuid) returns (created: Option<Expense>)
      requires Valid()
      requires forall e | e in expenses :: e.id != newId
      modifies this
      ensures Valid()
      ensures users == old(users)
      ensures created.None? <==> forall u | u in users :: u.id != employeeId
      ensures created.None? ==> expenses == old(expenses)
      ensures created.Some? ==>
        && created.value.status == PendingApproval
        && created.value.employeeId == employeeId
        && created.value.companyId == FindUser(users, employeeId).value.companyId
        && created.value.id == newId
        && created.value == Expense(newId, employeeId, created.value.companyId, input.workflowId,
                                    input.description, input.amount, input.currency, input.category,
                                    input.expenseDate, PendingApproval)
        && expenses == old(expenses) + [created.value]
    {
      var employee := FindUser(users, employeeId);
      if employee.None? {
        return None;
      }
      var row := Expense(newId, employeeId, employee.value.companyId, input.workflowId,
                         input.description, input.amount, input.currency, input.category,
                         input.expenseDate, PendingApproval);
      expenses := expenses + [row];
      created := Some(row);
    }

    /** `update_expense_status`: overwrites the status of the first row with the
        id, whatever its current status is. */
    method UpdateExpenseStatus(expenseId: Uuid, status: ExpenseStatus) returns (updated: Option<Expense>)
      requires Valid()
      modifies this
      ensures Valid()
      ensures users == old(users)
      ensures updated.None? <==> forall e | e in old(expenses) :: e.id != expenseId
      ensures updated.None? ==> expenses == old(expenses)
      ensures updated.Some? ==>
        var i := FindExpense(old(expenses), expenseId).value;
        && expenses == old(expenses)[i := old(expenses)[i].(status := status)]
        && updated.value == expenses[i]
        && updated.value.id == expenseId && updated.value.status == status
        && (forall j | 0 <= j < |expenses| && j != i :: expenses[j] == old(expenses)[j] && expenses[j].id != expenseId)
    {
      var found := FindExpense(expenses, expenseId);
      if found.None? {
        return None;
      }
      var i := found.value;
      var row := expenses[i].(status := status);
      expenses := expenses[i := row];
      assert forall e | e in expenses :: e in old(expenses) || e == row;
      updated := Some(row);
    }
  }
}
