/** The dashboard's per-category aggregation: the month's spending in a
    category (filter the expenses by category id, then sum their amounts
    from the left), the category's budget (the first budget row for that
    category, or 0), and one card per category with remaining = budget - spent.
    Amounts are integer cents. */
module Dashboard {
  import CategoryCard

  type CategoryId = string

  datatype Option<T> = None | Some(value: T)

  /** A category as listed for the dashboard. */
  datatype Category = Category(id: CategoryId, name: string, color: string)

  /** An expense of the month; only its category id and amount take part in
      the aggregation. */
  datatype Expense = Expense(categoryId: CategoryId, amount: int, description: string)

  /** A budget row of the month for one category. */
  datatype Budget = Budget(categoryId: CategoryId, amount: int)

  /** The props one category card receives. */
  datatype Card = Card(category: Category, spent: int, budget: int, remaining: int)

  /** What the dashboard shows: the "no categories yet" state, or a grid of cards. */
  datatype View = NoCategories | Grid(cards: seq<Card>)

  // ---------------------------------------------------------------------
  // Spending

  /** The expenses of category c, in their original order. */
  function ExpensesOf(expenses: seq<Expense>, c: CategoryId): (r: seq<Expense>)
    ensures |r| <= |expenses|
    ensures forall i :: 0 <= i < |r| ==> r[i].categoryId == c && r[i] in expenses
    ensures forall i :: 0 <= i < |expenses| && expenses[i].categoryId == c ==> expenses[i] in r
  {
    if expenses == [] then []
    else if expenses[0].categoryId == c then [expenses[0]] + ExpensesOf(expenses[1..], c)
    else ExpensesOf(expenses[1..], c)
  }

  /** The filter keeps each expense of category c exactly as many times as
      it occurs in the input, and no other expense. */
  lemma {:induction false} ExpensesOfCounts(expenses: seq<Expense>, c: CategoryId)
    ensures forall x :: multiset(ExpensesOf(expenses, c))[x] ==
              if x.categoryId == c then multiset(expenses)[x] else 0
  {
    if expenses != [] {
      assert expenses == [expenses[0]] + expenses[1..];
      ExpensesOfCounts(expenses[1..], c);
    }
  }

  /** Sum of the amounts, accumulated from the left starting at 0. */
  function Total(expenses: seq<Expense>): (s: int)
    ensures expenses == [] ==> s == 0
    ensures |expenses| == 1 ==> s == expenses[0].amount
    ensures (forall i :: 0 <= i < |expenses| ==> expenses[i].amount >= 0) ==> s >= 0
  {
    if expenses == [] then 0
    else Total(expenses[..|expenses| - 1]) + expenses[|expenses| - 1].amount
  }

  /** What was spent in category c this month: nothing when no expense (in
      particular, an empty list) belongs to c. */
  function CategorySpending(expenses: seq<Expense>, c: CategoryId): (s: int)
    ensures (forall i :: 0 <= i < |expenses| ==> expenses[i].categoryId != c) ==> s == 0
    ensures (forall i :: 0 <= i < |expenses| ==> expenses[i].amount >= 0) ==> s >= 0
  {
    Total(ExpensesOf(expenses, c))
  }

  lemma {:induction false} ExpensesOfAppend(e1: seq<Expense>, e2: seq<Expense>, c: CategoryId)
    ensures ExpensesOf(e1 + e2, c) == ExpensesOf(e1, c) + ExpensesOf(e2, c)
  {
    if e1 == [] {
      assert e1 + e2 == e2;
    } else {
      assert (e1 + e2)[1..] == e1[1..] + e2;
      ExpensesOfAppend(e1[1..], e2, c);
    }
  }

  lemma {:induction false} TotalAppend(e1: seq<Expense>, e2: seq<Expense>)
    ensures Total(e1 + e2) == Total(e1) + Total(e2)
  {
    if e2 == [] {
      assert e1 + e2 == e1;
    } else {
      var n := |e2| - 1;
      assert (e1 + e2)[..|e1 + e2| - 1] == e1 + e2[..n];
      TotalAppend(e1, e2[..n]);
    }
  }

  /** Spending is additive over concatenation of expense lists. */
  lemma SpendingAppend(e1: seq<Expense>, e2: seq<Expense>, c: CategoryId)
    ensures CategorySpending(e1 + e2, c) ==
            CategorySpending(e1, c) + CategorySpending(e2, c)
  {
    ExpensesOfAppend(e1, e2, c);
    TotalAppend(ExpensesOf(e1, c), ExpensesOf(e2, c));
  }

  /** Adding or removing an expense of another category, anywhere in the
      list, leaves the spending of c unchanged. */
  lemma OtherCategoryIgnored(before: seq<Expense>, e: Expense, after: seq<Expense>, c: CategoryId)
    requires e.categoryId != c
    ensures CategorySpending(before + [e] + after, c) == CategorySpending(before + after, c)
  {
    SpendingAppend(before + [e], after, c);
    SpendingAppend(before, [e], c);
    SpendingAppend(before, after, c);
    assert CategorySpending([e], c) == 0;
  }

  /** Adding an expense of category c raises its spending by that amount. */
  lemma MatchingExpenseCounted(before: seq<Expense>, e: Expense, after: seq<Expense>)
    ensures CategorySpending(before + [e] + after, e.categoryId) ==
            CategorySpending(before + after, e.categoryId) + e.amount
  {
    var c := e.categoryId;
    SpendingAppend(before + [e], after, c);
    SpendingAppend(before, [e], c);
    SpendingAppend(before, after, c);
    assert ExpensesOf([e], c) == [e];
    assert [e][..0] == [];
    assert Total([e]) == e.amount;
  }

  lemma {:induction false} TotalBounds(expenses: seq<Expense>)
    requires forall i :: 0 <= i < |expenses| ==> expenses[i].amount >= 0
    ensures Total(expenses) >= 0
    ensures forall i :: 0 <= i < |expenses| ==> Total(expenses) >= expenses[i].amount
  {
    if expenses != [] {
      var n := |expenses| - 1;
      var front := expenses[..n];
      TotalBounds(front);
      forall i | 0 <= i < |expenses|
        ensures Total(expenses) >= expenses[i].amount
      {
        if i < n {
          assert expenses[i] == front[i];
        }
      }
    }
  }

  /** With no negative amounts, a category's spending is non-negative and at
      least the amount of any one of its expenses. */
  lemma SpendingBounds(expenses: seq<Expense>, c: CategoryId)
    requires forall i :: 0 <= i < |expenses| ==> expenses[i].amount >= 0
    ensures CategorySpending(expenses, c) >= 0
    ensures forall i :: 0 <= i < |expenses| && expenses[i].categoryId == c ==>
              CategorySpending(expenses, c) >= expenses[i].amount
  {
    var r := ExpensesOf(expenses, c);
    forall j | 0 <= j < |r|
      ensures r[j].amount >= 0
    {
      assert r[j] in expenses;
    }
    TotalBounds(r);
    forall i | 0 <= i < |expenses| && expenses[i].categoryId == c
      ensures CategorySpending(expenses, c) >= expenses[i].amount
    {
      assert expenses[i] in r;
    }
  }

  // ---------------------------------------------------------------------
  // Budget lookup

  /** The first budget row for category c, if any. */
  function FindBudget(budgets: seq<Budget>, c: CategoryId): (r: Option<Budget>)
    ensures r.None? <==> forall i :: 0 <= i < |budgets| ==> budgets[i].categoryId != c
    ensures r.Some? ==>
              r.value.categoryId == c &&
              (exists i :: 0 <= i < |budgets| && budgets[i] == r.value &&
                (forall j :: 0 <= j < i ==> budgets[j].categoryId != c))
  {
    if budgets == [] then None
    else if budgets[0].categoryId == c then Some(budgets[0])
    else
      var r := FindBudget(budgets[1..], c);
      if r.Some? then
        var i :| 0 <= i < |budgets[1..]| && budgets[1..][i] == r.value &&
                 (forall j :: 0 <= j < i ==> budgets[1..][j].categoryId != c);
        assert budgets[i + 1] == r.value;
        assert forall j :: 0 <= j < i + 1 ==> budgets[j].categoryId != c by {
          forall j | 0 <= j < i + 1 ensures budgets[j].categoryId != c {
            if j > 0 { assert budgets[j] == budgets[1..][j - 1]; }
          }
        }
        r
      else r
  }

  /** The budget of category c: the amount of its first budget row, 0 without one. */
  function CategoryBudget(budgets: seq<Budget>, c: CategoryId): (amount: int)
    ensures (forall i :: 0 <= i < |budgets| ==> budgets[i].categoryId != c) ==> amount == 0
    ensures forall i :: (0 <= i < |budgets| && budgets[i].categoryId == c &&
                         (forall j :: 0 <= j < i ==> budgets[j].categoryId != c)) ==>
              amount == budgets[i].amount
  {
    match FindBudget(budgets, c)
    case Some(b) => b.amount
    case None => 0
  }

  /** Rows after the first match never change the budget: later duplicates
      are ignored. */
  lemma {:induction false} LaterDuplicatesIgnored(budgets: seq<Budget>, more: seq<Budget>, c: CategoryId)
    requires exists i :: 0 <= i < |budgets| && budgets[i].categoryId == c
    ensures CategoryBudget(budgets + more, c) == CategoryBudget(budgets, c)
  {
    if budgets[0].categoryId != c {
      var i :| 0 <= i < |budgets| && budgets[i].categoryId == c;
      assert budgets[1..][i - 1] == budgets[i];
      assert (budgets + more)[1..] == budgets[1..] + more;
      LaterDuplicatesIgnored(budgets[1..], more, c);
    }
  }

  // ---------------------------------------------------------------------
  // Cards

  /** The card of one category: its spending, its budget, and what remains. */
  function CardOf(category: Category, expenses: seq<Expense>, budgets: seq<Budget>): (card: Card)
    ensures card.category == category
    ensures card.spent == CategorySpending(expenses, category.id)
    ensures card.budget == CategoryBudget(budgets, category.id)
    ensures card.remaining == card.budget - card.spent
    ensures card.remaining < 0 <==> card.spent > card.budget
  {
    var spent := CategorySpending(expenses, category.id);
    var budget := CategoryBudget(budgets, category.id);
    Card(category, spent, budget, budget - spent)
  }

  /** One card per category, in the order the categories were supplied. */
  function Cards(categories: seq<Category>, expenses: seq<Expense>, budgets: seq<Budget>): (cards: seq<Card>)
    ensures |cards| == |categories|
    ensures forall i :: 0 <= i < |categories| ==>
              cards[i].category == categories[i] &&
              cards[i].spent == CategorySpending(expenses, categories[i].id) &&
              cards[i].budget == CategoryBudget(budgets, categories[i].id) &&
              cards[i].remaining == cards[i].budget - cards[i].spent
  {
    if categories == [] then []
    else [CardOf(categories[0], expenses, budgets)] + Cards(categories[1..], expenses, budgets)
  }

  /** The dashboard: the empty state without categories, else the card grid. */
  function Render(categories: seq<Category>, expenses: seq<Expense>, budgets: seq<Budget>): (v: View)
    ensures v.NoCategories? <==> |categories| == 0
    ensures v.Grid? ==> |v.cards| == |categories|
    ensures v.Grid? ==>
              forall i :: 0 <= i < |categories| ==>
                v.cards[i].category == categories[i] &&
                v.cards[i].spent == CategorySpending(expenses, categories[i].id) &&
                v.cards[i].budget == CategoryBudget(budgets, categories[i].id) &&
                v.cards[i].remaining == v.cards[i].budget - v.cards[i].spent
  {
    if |categories| == 0 then NoCategories else Grid(Cards(categories, expenses, budgets))
  }

  // ---------------------------------------------------------------------
  // What the cards show

  /** A category without a budget row has budget 0 and remaining -spent, so
      its card is over budget exactly when anything was spent in it. */
  lemma NoBudgetRow(category: Category, expenses: seq<Expense>, budgets: seq<Budget>)
    requires forall i :: 0 <= i < |budgets| ==> budgets[i].categoryId != category.id
    ensures CardOf(category, expenses, budgets).budget == 0
    ensures CardOf(category, expenses, budgets).remaining == -CategorySpending(expenses, category.id)
    ensures CategoryCard.IsOverBudget(CardOf(category, expenses, budgets).remaining) <==>
              CategorySpending(expenses, category.id) > 0
  {
  }

  /** The props wiring of the card element: the card component receives the
      card's spent, budget and remaining, and its status is computed from
      those three values alone. */
  function StatusOf(card: Card): (status: CategoryCard.Status)
    ensures status == CategoryCard.CardStatus(card.spent, card.budget, card.remaining)
    ensures status.overBudget <==> card.remaining < 0
  {
    CategoryCard.CardStatus(card.spent, card.budget, card.remaining)
  }

  /** The status a category's card shows, in terms of its spending and
      budget: red and "Over by spent - budget" when spending exceeds the
      budget, otherwise "Left: budget - spent" in yellow (above 80 percent of
      a positive budget) or green. */
  lemma CardStatusByAmounts(category: Category, expenses: seq<Expense>, budgets: seq<Budget>)
    ensures StatusOf(CardOf(category, expenses, budgets)).tier == CategoryCard.Red <==>
              CategorySpending(expenses, category.id) > CategoryBudget(budgets, category.id)
    ensures StatusOf(CardOf(category, expenses, budgets)).tier == CategoryCard.Yellow <==>
              0 < CategoryBudget(budgets, category.id) &&
              CategorySpending(expenses, category.id) <= CategoryBudget(budgets, category.id) &&
              CategorySpending(expenses, category.id) * 100 > 80 * CategoryBudget(budgets, category.id)
    ensures CategorySpending(expenses, category.id) > CategoryBudget(budgets, category.id) ==>
              StatusOf(CardOf(category, expenses, budgets)).caption ==
              CategoryCard.OverBy(CategorySpending(expenses, category.id) - CategoryBudget(budgets, category.id))
    ensures CategorySpending(expenses, category.id) <= CategoryBudget(budgets, category.id) ==>
              StatusOf(CardOf(category, expenses, budgets)).caption ==
              CategoryCard.Left(CategoryBudget(budgets, category.id) - CategorySpending(expenses, category.id))
  {
    var card := CardOf(category, expenses, budgets);
    CategoryCard.TierByAmounts(card.spent, card.budget, card.remaining);
    CategoryCard.LabelByAmounts(card.spent, card.budget, card.remaining);
  }

  /** A worked month: Food budgeted 20000 cents with expenses 5000 and 3000,
      Transport budgeted 10000 with one expense of 12000. */
  const Food := Category("food", "Food", "#10B981")
  const Transport := Category("transport", "Transport", "#3B82F6")
  const Groceries := Expense("food", 5000, "groceries")
  const Lunch := Expense("food", 3000, "lunch")
  const TrainPass := Expense("transport", 12000, "train pass")
  const MonthBudgets := [Budget("food", 20000), Budget("transport", 10000)]

  lemma MonthSpending()
    ensures CategorySpending([Groceries, Lunch, TrainPass], Food.id) == 8000
    ensures CategorySpending([Groceries, Lunch, TrainPass], Transport.id) == 12000
  {
    var g, l, t := Groceries, Lunch, TrainPass;
    assert "food"[0] != "transport"[0];
    assert [g, l, t][1..] == [l, t] && [l, t][1..] == [t] && [t][1..] == [];
    assert ExpensesOf([t], "food") == [];
    assert ExpensesOf([l, t], "food") == [l];
    assert ExpensesOf([g, l, t], "food") == [g, l];
    assert ExpensesOf([l, t], "transport") == [t];
    assert ExpensesOf([g, l, t], "transport") == [t];
    assert [g, l][..1] == [g];
    TotalAppend([g], [l]);
  }

  lemma FoodAndTransportMonth()
    ensures Render([Food, Transport], [Groceries, Lunch, TrainPass], MonthBudgets) ==
              Grid([Card(Food, 8000, 20000, 12000), Card(Transport, 12000, 10000, -2000)])
  {
    MonthSpending();
    assert "food"[0] != "transport"[0];
    assert CategoryBudget(MonthBudgets, "food") == 20000;
    assert CategoryBudget(MonthBudgets, "transport") == 10000;
  }
}
