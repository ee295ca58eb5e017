/**
 * Monthly living expenses (src/expenses.rs): ten categories, each with an
 * optional monthly amount that counts as zero when absent, and their total.
 * The collection is never changed after it is built, so it is a value.
 */
module Expenses {
  import opened Amounts

  /** A monthly expense by category. */
  datatype Expense =
    | Housing(amount: Option<real>)
    | Energy(amount: Option<real>)
    | Water(amount: Option<real>)
    | Gas(amount: Option<real>)
    | Internet(amount: Option<real>)
    | Phone(amount: Option<real>)
    | Vehicle(amount: Option<real>)
    | VehicleInsurance(amount: Option<real>)
    | VehicleGas(amount: Option<real>)
    | Groceries(amount: Option<real>)

  /** What an expense contributes to the monthly total. */
  function ExpenseAmount(expense: Expense): real
  {
    UnwrapOrZero(expense.amount)
  }

  /** A list of monthly expenses. */
  datatype Expenses = Expenses(expenseItems: seq<Expense>)
  {
    /** Builds the list from the given items, kept as they are and in order. */
    static function New(expenses: seq<Expense>): (e: Expenses)
      ensures e.expenseItems == expenses
      ensures e.TotalMonthlyExpenses() == Sum(expenses, ExpenseAmount)
    {
      Expenses(expenses)
    }

    /**
     * The monthly total, accumulated item by item from 0: the sum of the
     * amounts, an absent amount counting as 0.
     */
    function TotalMonthlyExpenses(): (total: real)
      ensures total == Sum(expenseItems, ExpenseAmount)
    {
      FoldSum(0.0, expenseItems, ExpenseAmount)
    }
  }

  /** No expenses total 0. */
  lemma EmptyExpensesTotalZero()
    ensures Expenses.New([]).TotalMonthlyExpenses() == 0.0
  {
  }

  /** The total of two lists put together is the sum of their totals. */
  lemma TotalOfConcatenation(first: seq<Expense>, second: seq<Expense>)
    ensures Expenses(first + second).TotalMonthlyExpenses()
         == Expenses(first).TotalMonthlyExpenses() + Expenses(second).TotalMonthlyExpenses()
  {
    SumConcat(first, second, ExpenseAmount);
  }

  /** When no amount is negative, the total is not negative. */
  lemma TotalNonNegative(expenses: Expenses)
    requires forall i :: 0 <= i < |expenses.expenseItems| ==> ExpenseAmount(expenses.expenseItems[i]) >= 0.0
    ensures expenses.TotalMonthlyExpenses() >= 0.0
  {
    SumNonNegative(expenses.expenseItems, ExpenseAmount);
  }

  /** The same items in any order have the same total. */
  lemma TotalIndependentOfOrder(a: Expenses, b: Expenses)
    requires multiset(a.expenseItems) == multiset(b.expenseItems)
    ensures a.TotalMonthlyExpenses() == b.TotalMonthlyExpenses()
  {
    SumPermutation(a.expenseItems, b.expenseItems, ExpenseAmount);
  }

  /** The documented example: nine categories with no water amount total $3,210. */
  lemma DocumentedExampleTotal()
    ensures Expenses.New([Housing(Some(2000.0)), Energy(Some(150.0)), Water(None), Internet(Some(60.0)),
                          Phone(Some(80.0)), Vehicle(Some(300.0)), VehicleInsurance(Some(100.0)),
                          VehicleGas(Some(120.0)), Groceries(Some(400.0))]).TotalMonthlyExpenses() == 3210.0
  {
  }

  /** The unit-test example: all ten categories with no gas amount total $3,610. */
  lemma UnitTestExampleTotal()
    ensures Expenses([Housing(Some(2200.0)), Energy(Some(250.0)), Water(Some(50.0)), Gas(None),
                      Internet(Some(60.0)), Phone(Some(80.0)), Vehicle(Some(300.0)),
                      VehicleInsurance(Some(150.0)), VehicleGas(Some(120.0)),
                      Groceries(Some(400.0))]).TotalMonthlyExpenses() == 3610.0
  {
  }
}
