/** Conversion of expense amounts into the company's base currency, as the
    expense hook applies it to every expense it loads, creates or updates. */
module ExpenseCurrency {
  import opened Common
  import opened FrontendTypes

  /** The currency converter: given an amount, its currency and the target
      currency, the converted amount, or a failure. */
  type Converter = (Amount, string, string) -> Outcome<Amount>

  /** `convertExpenseAmount`: an expense already in the base currency converts to
      itself without a call; otherwise the converter's amount is recorded, and on
      a failure the expense is returned untouched. Only `convertedAmount` can change. */
  function ConvertExpenseAmount(e: Expense, baseCurrency: string, convert: Converter): (r: Expense)
    ensures r.(convertedAmount := e.convertedAmount) == e
    ensures e.currency == baseCurrency ==> r.convertedAmount == Some(e.amount)
    ensures e.currency != baseCurrency ==>
      r.convertedAmount == match convert(e.amount, e.currency, baseCurrency)
                           case Returned(v) => Some(v)
                           case Threw => e.convertedAmount
  {
    if e.currency == baseCurrency then e.(convertedAmount := Some(e.amount))
    else
      match convert(e.amount, e.currency, baseCurrency)
      case Returned(converted) => e.(convertedAmount := Some(converted))
      case Threw => e
  }

  /** Converting an expense a second time changes nothing more: the result depends
      only on the amount and currency, which conversion keeps. This rests on the
      converter being a function of its arguments, as the present fixed-rate
      fallback is; a live rate service could answer differently on the second call. */
  lemma ConvertIdempotent(e: Expense, baseCurrency: string, convert: Converter)
    ensures var once := ConvertExpenseAmount(e, baseCurrency, convert);
      ConvertExpenseAmount(once, baseCurrency, convert) == once
  {
    var once := ConvertExpenseAmount(e, baseCurrency, convert);
    assert once.amount == e.amount && once.currency == e.currency;
  }

  /** `convertExpenses`: `expenses.map(convertExpenseAmount)` awaited together; the
      order, the length and every id are kept. */
  function ConvertExpenses(expenses: seq<Expense>, baseCurrency: string, convert: Converter): (r: seq<Expense>)
    ensures |r| == |expenses|
    ensures forall i | 0 <= i < |expenses| :: r[i] == ConvertExpenseAmount(expenses[i], baseCurrency, convert)
    ensures forall i | 0 <= i < |expenses| :: r[i].id == expenses[i].id
  {
    seq(|expenses|, i requires 0 <= i < |expenses| => ConvertExpenseAmount(expenses[i], baseCurrency, convert))
  }

  /** After conversion, every expense recorded in the base currency carries its own
      amount as the converted amount. */
  lemma {:induction false} BaseCurrencyExpensesConverted(expenses: seq<Expense>, baseCurrency: string, convert: Converter)
    ensures forall i | 0 <= i < |expenses| && expenses[i].currency == baseCurrency ::
      ConvertExpenses(expenses, baseCurrency, convert)[i].convertedAmount == Some(expenses[i].amount)
  {
    var r := ConvertExpenses(expenses, baseCurrency, convert);
    forall i | 0 <= i < |expenses| && expenses[i].currency == baseCurrency
      ensures r[i].convertedAmount == Some(expenses[i].amount)
    {
      assert r[i] == ConvertExpenseAmount(expenses[i], baseCurrency, convert);
    }
  }
}
