/** The expense hook: the expense list with its loading and error state, and the
    load, create and update operations, each with the local fallback it uses when
    the API call fails, and each passing its result through currency conversion. */
module ExpensesStore {
  import opened Common
  import opened FrontendTypes
  import opened ExpenseCurrency

  /** The submitted part of an expense record. */
  function DraftOf(e: Expense): ExpenseDraft
  {
    ExpenseDraft(e.employeeId, e.description, e.category, e.amount, e.currency, e.convertedAmount,
                 e.expenseDate, e.paidBy, e.remarks, e.receiptUrl)
  }

  /** The fallback record for a new expense: the submitted fields, the generated
      id, status "Draft" and no approvers; `ruleId` is absent. */
  function LocalExpense(d: ExpenseDraft, newId: string): (e: Expense)
    ensures e.id == newId && e.status == "Draft" && e.approvers == [] && e.ruleId == None
    ensures DraftOf(e) == d
  {
    Expense(newId, d.employeeId, d.description, d.category, d.amount, d.currency, d.convertedAmount,
            d.expenseDate, d.paidBy, d.remarks, "Draft", d.receiptUrl, [], None)
  }

  /** The fallback for an update: the patch spread over the first expense with that
      id, or the patch alone when there is none. */
  function LocalUpdate(expenses: seq<Expense>, expenseId: string, patch: ExpensePatch): (u: Updated<Expense, ExpensePatch>)
    ensures u.PatchOnly? <==> forall j | 0 <= j < |expenses| :: expenses[j].id != expenseId
    ensures u.PatchOnly? ==> u.patch == patch
    ensures u.Whole? ==> exists j | 0 <= j < |expenses| ::
      && expenses[j].id == expenseId
      && (forall k | 0 <= k < j :: expenses[k].id != expenseId)
      && u.value == MergeExpense(expenses[j], patch)
  {
    match IndexOfId(expenses, ExpenseId, expenseId)
    case Some(j) => Whole(MergeExpense(expenses[j], patch))
    case None => PatchOnly(patch)
  }

  /** The fallback keeps the expense's id unless the patch sets one. */
  lemma LocalUpdateKeepsId(expenses: seq<Expense>, expenseId: string, patch: ExpensePatch)
    requires patch.id.None?
    requires LocalUpdate(expenses, expenseId, patch).Whole?
    ensures LocalUpdate(expenses, expenseId, patch).value.id == expenseId
  {
  }

  /** The list after an update: entries with that id become the converted record; a
      patch alone matches nothing in the list, so the list stays as it was. */
  function AfterUpdate(expenses: seq<Expense>, expenseId: string, u: Updated<Expense, ExpensePatch>,
                       baseCurrency: string, convert: Converter): (r: seq<Expense>)
    ensures |r| == |expenses|
    ensures u.Whole? ==> r == ReplaceById(expenses, ExpenseId, expenseId, ConvertExpenseAmount(u.value, baseCurrency, convert))
    ensures u.PatchOnly? && (forall j | 0 <= j < |expenses| :: expenses[j].id != expenseId) ==> r == expenses
  {
    match u
    case Whole(e) => ReplaceById(expenses, ExpenseId, expenseId, ConvertExpenseAmount(e, baseCurrency, convert))
    case PatchOnly(_) => expenses
  }

  class ExpensesHook {
    const baseCurrency: string
    var expenses: seq<Expense>
    var loading: bool
    var error: Option<string>

    constructor (baseCurrency: string)
      ensures this.baseCurrency == baseCurrency
      ensures expenses == [] && !loading && error == None
    {
      this.baseCurrency := baseCurrency;
      expenses := [];
      loading := false;
      error := None;
    }

    /** The start of `fetchExpenses`, before its `await`. */
    method BeginFetch()
      modifies this
      ensures loading && error == None && expenses == old(expenses)
    {
      loading := true;
      error := None;
    }

    /** The rest of `fetchExpenses`: the fetched list, or none when the call failed,
        converted in order; loading ends. */
    method FinishFetch(reply: Outcome<seq<Expense>>, convert: Converter)
      modifies this
      ensures !loading && error == old(error)
      ensures reply.Returned? ==> expenses == ConvertExpenses(reply.value, baseCurrency, convert)
      ensures reply.Threw? ==> expenses == []
    {
      var fetched := if reply.Returned? then reply.value else [];
      expenses := ConvertExpenses(fetched, baseCurrency, convert);
      loading := false;
    }

    /** `createExpense`: the server's record, or the local draft record under the
        generated id, is appended after conversion; the caller gets the record as
        it was before conversion. */
    method CreateExpense(draft: ExpenseDraft, reply: Outcome<Expense>, newId: string, convert: Converter)
      returns (created: Expense)
      modifies this
      ensures created == if reply.Returned? then reply.value else LocalExpense(draft, newId)
      ensures expenses == old(expenses) + [ConvertExpenseAmount(created, baseCurrency, convert)]
      ensures error == None && loading == old(loading)
    {
      error := None;
      var newExpense := if reply.Returned? then reply.value else LocalExpense(draft, newId);
      var converted := ConvertExpenses([newExpense], baseCurrency, convert);
      expenses := expenses + [converted[0]];
      created := newExpense;
    }

    /** `updateExpense`: the server's record, or the local merge, replaces every
        expense with that id after conversion; the caller gets it unconverted. */
    method UpdateExpense(expenseId: string, patch: ExpensePatch, reply: Outcome<Expense>, convert: Converter)
      returns (updated: Updated<Expense, ExpensePatch>)
      modifies this
      ensures updated == if reply.Returned? then Whole(reply.value) else LocalUpdate(old(expenses), expenseId, patch)
      ensures expenses == AfterUpdate(old(expenses), expenseId, updated, baseCurrency, convert)
      ensures |expenses| == |old(expenses)|
      ensures forall i | 0 <= i < |expenses| && old(expenses)[i].id != expenseId :: expenses[i] == old(expenses)[i]
      ensures error == None && loading == old(loading)
    {
      error := None;
      if reply.Returned? {
        updated := Whole(reply.value);
      } else {
        updated := LocalUpdate(expenses, expenseId, patch);
      }
      expenses := AfterUpdate(expenses, expenseId, updated, baseCurrency, convert);
    }
  }

  /** The local fallback of an update that finds its expense keeps the list's ids
      and replaces exactly the entries with that id by the merged, converted record. */
  lemma {:induction false} LocalUpdatePlacesMerge(expenses: seq<Expense>, expenseId: string, patch: ExpensePatch,
                                                  baseCurrency: string, convert: Converter, i: nat)
    requires patch.id.None?
    requires i < |expenses| && expenses[i].id == expenseId
    ensures var u := LocalUpdate(expenses, expenseId, patch);
      u.Whole? && u.value.id == expenseId
      && var r := AfterUpdate(expenses, expenseId, u, baseCurrency, convert);
         (forall k | 0 <= k < |r| :: r[k].id == expenses[k].id)
         && r[i] == ConvertExpenseAmount(u.value, baseCurrency, convert)
  {
    var u := LocalUpdate(expenses, expenseId, patch);
    assert u.Whole?;
    var c := ConvertExpenseAmount(u.value, baseCurrency, convert);
    assert c.id == expenseId;
    ReplaceKeepsIds(expenses, ExpenseId, expenseId, c);
  }
}
