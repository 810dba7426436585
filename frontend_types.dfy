/** The front end's records as the browser receives them from the API, and the
    partial updates (`Partial<T>`) that are spread over them. */
module FrontendTypes {
  import opened Common

  /** An amount of money; carried along, compared for currency only, never computed with. */
  type Amount = real

  /** An entry of the country list the signup screens load: name and currency code. */
  datatype CountryOption = CountryOption(name: string, currencyCode: string)

  /** `role` is typed as "Admin" | "Manager" | "Employee", but arrives as data. */
  datatype User = User(id: string, name: string, email: string, role: string, managerId: Option<string>)

  datatype ApproverStatus = Pending | ApprovedByApprover | RejectedByApprover

  datatype ApproverAction = ApproverAction(userId: string, status: ApproverStatus,
                                           comment: Option<string>, timestamp: Option<string>)

  datatype Expense = Expense(
    id: string, employeeId: string, description: string, category: string,
    amount: Amount, currency: string, convertedAmount: Option<Amount>,
    expenseDate: string, paidBy: string, remarks: Option<string>, status: string,
    receiptUrl: Option<string>, approvers: seq<ApproverAction>, ruleId: Option<string>)

  /** `Omit<Expense, "id" | "approvers" | "status" | "ruleId">`: what a new expense is submitted with. */
  datatype ExpenseDraft = ExpenseDraft(
    employeeId: string, description: string, category: string,
    amount: Amount, currency: string, convertedAmount: Option<Amount>,
    expenseDate: string, paidBy: string, remarks: Option<string>, receiptUrl: Option<string>)

  datatype RuleApprover = RuleApprover(userId: string, isRequired: bool)

  datatype ApprovalRule = ApprovalRule(
    id: string, name: string, description: string, managerId: Option<string>,
    managerIsApprover: bool, approvers: seq<RuleApprover>, isSequential: bool,
    minApprovalPercentage: int)

  /** `Partial<User>`: `Some` for each key present in the update object. */
  datatype UserPatch = UserPatch(
    id: Option<string>, name: Option<string>, email: Option<string>, role: Option<string>,
    managerId: Option<Option<string>>)

  /** `Partial<Expense>`. */
  datatype ExpensePatch = ExpensePatch(
    id: Option<string>, employeeId: Option<string>, description: Option<string>,
    category: Option<string>, amount: Option<Amount>, currency: Option<string>,
    convertedAmount: Option<Option<Amount>>, expenseDate: Option<string>, paidBy: Option<string>,
    remarks: Option<Option<string>>, status: Option<string>, receiptUrl: Option<Option<string>>,
    approvers: Option<seq<ApproverAction>>, ruleId: Option<Option<string>>)

  const EmptyExpensePatch := ExpensePatch(None, None, None, None, None, None, None, None, None, None, None, None, None, None)

  function Pick<T>(p: Option<T>, current: T): T
  {
    if p.Some? then p.value else current
  }

  /** `{ ...user, ...patch }`: a key present in the patch wins, every other key is kept. */
  function MergeUser(u: User, p: UserPatch): (r: User)
    ensures p.id.Some? ==> r.id == p.id.value
    ensures p.id.None? ==> r.id == u.id
    ensures p.name.Some? ==> r.name == p.name.value
    ensures p.name.None? ==> r.name == u.name
    ensures p.email.Some? ==> r.email == p.email.value
    ensures p.email.None? ==> r.email == u.email
    ensures p.role.Some? ==> r.role == p.role.value
    ensures p.role.None? ==> r.role == u.role
    ensures p.managerId.Some? ==> r.managerId == p.managerId.value
    ensures p.managerId.None? ==> r.managerId == u.managerId
    ensures p == UserPatch(None, None, None, None, None) ==> r == u
  {
    User(Pick(p.id, u.id), Pick(p.name, u.name), Pick(p.email, u.email), Pick(p.role, u.role),
         Pick(p.managerId, u.managerId))
  }

  /** `{ ...expense, ...patch }`. */
  function MergeExpense(e: Expense, p: ExpensePatch): (r: Expense)
    ensures p.id.Some? ==> r.id == p.id.value
    ensures p.id.None? ==> r.id == e.id
    ensures p.employeeId.Some? ==> r.employeeId == p.employeeId.value
    ensures p.employeeId.None? ==> r.employeeId == e.employeeId
    ensures p.description.Some? ==> r.description == p.description.value
    ensures p.description.None? ==> r.description == e.description
    ensures p.category.Some? ==> r.category == p.category.value
    ensures p.category.None? ==> r.category == e.category
    ensures p.amount.Some? ==> r.amount == p.amount.value
    ensures p.amount.None? ==> r.amount == e.amount
    ensures p.currency.Some? ==> r.currency == p.currency.value
    ensures p.currency.None? ==> r.currency == e.currency
    ensures p.convertedAmount.Some? ==> r.convertedAmount == p.convertedAmount.value
    ensures p.convertedAmount.None? ==> r.convertedAmount == e.convertedAmount
    ensures p.expenseDate.Some? ==> r.expenseDate == p.expenseDate.value
    ensures p.expenseDate.None? ==> r.expenseDate == e.expenseDate
    ensures p.paidBy.Some? ==> r.paidBy == p.paidBy.value
    ensures p.paidBy.None? ==> r.paidBy == e.paidBy
    ensures p.remarks.Some? ==> r.remarks == p.remarks.value
    ensures p.remarks.None? ==> r.remarks == e.remarks
    ensures p.status.Some? ==> r.status == p.status.value
    ensures p.status.None? ==> r.status == e.status
    ensures p.receiptUrl.Some? ==> r.receiptUrl == p.receiptUrl.value
    ensures p.receiptUrl.None? ==> r.receiptUrl == e.receiptUrl
    ensures p.approvers.Some? ==> r.approvers == p.approvers.value
    ensures p.approvers.None? ==> r.approvers == e.approvers
    ensures p.ruleId.Some? ==> r.ruleId == p.ruleId.value
    ensures p.ruleId.None? ==> r.ruleId == e.ruleId
    ensures p == EmptyExpensePatch ==> r == e
  {
    Expense(Pick(p.id, e.id), Pick(p.employeeId, e.employeeId), Pick(p.description, e.description),
            Pick(p.category, e.category), Pick(p.amount, e.amount), Pick(p.currency, e.currency),
            Pick(p.convertedAmount, e.convertedAmount), Pick(p.expenseDate, e.expenseDate),
            Pick(p.paidBy, e.paidBy), Pick(p.remarks, e.remarks), Pick(p.status, e.status),
            Pick(p.receiptUrl, e.receiptUrl), Pick(p.approvers, e.approvers), Pick(p.ruleId, e.ruleId))
  }

  function UserId(u: User): string
  {
    u.id
  }

  function ExpenseId(e: Expense): string
  {
    e.id
  }

  /** `list.find((x) => x.id === target)`, as the index of the first match. */
  function IndexOfId<T>(s: seq<T>, id: T -> string, target: string): (i: Option<nat>)
    ensures i.Some? ==>
      i.value < |s| && id(s[i.value]) == target
      && forall j | 0 <= j < i.value :: id(s[j]) != target
    ensures i.None? ==> forall j | 0 <= j < |s| :: id(s[j]) != target
  {
    if |s| == 0 then None
    else if id(s[0]) == target then Some(0)
    else
      var rest := IndexOfId(s[1..], id, target);
      if rest.Some? then Some(rest.value + 1) else None
  }

  /** `prev.map((x) => x.id === target ? replacement : x)`: every entry with that id
      is replaced, the others stay where they are. */
  function ReplaceById<T>(s: seq<T>, id: T -> string, target: string, replacement: T): (r: seq<T>)
    ensures |r| == |s|
    ensures forall i | 0 <= i < |s| :: r[i] == if id(s[i]) == target then replacement else s[i]
  {
    seq(|s|, i requires 0 <= i < |s| => if id(s[i]) == target then replacement else s[i])
  }

  /** With no entry of that id nothing changes. */
  lemma ReplaceAbsentId<T>(s: seq<T>, id: T -> string, target: string, replacement: T)
    requires forall j | 0 <= j < |s| :: id(s[j]) != target
    ensures ReplaceById(s, id, target, replacement) == s
  {
  }

  /** A replacement that keeps the id keeps every id in place, and replacing again
      with it changes nothing more. */
  lemma {:induction false} ReplaceKeepsIds<T>(s: seq<T>, id: T -> string, target: string, replacement: T)
    requires id(replacement) == target
    ensures forall i | 0 <= i < |s| :: id(ReplaceById(s, id, target, replacement)[i]) == id(s[i])
    ensures ReplaceById(ReplaceById(s, id, target, replacement), id, target, replacement)
         == ReplaceById(s, id, target, replacement)
  {
    var r := ReplaceById(s, id, target, replacement);
    var rr := ReplaceById(r, id, target, replacement);
    assert |rr| == |r|;
    forall i | 0 <= i < |r| ensures rr[i] == r[i] {
      if id(s[i]) == target {
        assert r[i] == replacement;
      } else {
        assert r[i] == s[i];
      }
    }
  }

  /** What an update produced: a whole record, or, when the fallback found no record
      with that id, `{...undefined, ...patch}`, which holds only the patch's keys. */
  datatype Updated<+T, +P> = Whole(value: T) | PatchOnly(patch: P)
}
