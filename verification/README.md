# Budget dashboard arithmetic

A Dafny model of the per-category budget arithmetic of a personal expense
tracker's web frontend. The dashboard receives the user's categories and the
month's budget rows and expenses. For each category it:

- filters the expenses by category id and sums their amounts from the left,
  starting at 0 (`getCategorySpending`);
- takes the amount of the first budget row for the category, or 0 when there
  is none (`getCategoryBudget`);
- renders one card per category, in the order the categories were supplied,
  with `remaining = budget - spent`. Without categories it shows the
  "No categories yet" state instead.

Each card derives its status from `spent`, `budget` and `remaining`:

- the percentage of the budget used, which is 0 when the budget is not positive;
- the over-budget flag `remaining < 0`;
- the bar colour: red when over budget, else yellow above 80 percent, else green;
- the bar width: the percentage capped at 100;
- the "Over by" or "Left" amount, and the "OVER BUDGET" badge.

Amounts are integer cents. The percentage is an exact `real`. Both source
files are pure, so the model is datatypes, functions and lemmas:

- `dashboard.dfy` (module `Dashboard`) covers the aggregation and the card list;
- `category_card.dfy` (module `CategoryCard`) covers one card's status.

Two behaviours are modelled exactly as the code has them:

- Negative expense and budget amounts are accepted and summed. The lemmas
  that need non-negative amounts (`SpendingBounds`, `BarWidthInRange`) say
  so in their requires.
- Red is decided by `remaining < 0` alone, and yellow means strictly above
  80 percent. A zero budget with spending shows 0 percent on a red card.

## Model

| member | source | states |
|---|---|---|
| `Dashboard.ExpensesOf` | src/pages/Dashboard.jsx:47-48 | the filter keeps only expenses of the category, all taken from the input, and keeps every expense of that category |
| `Dashboard.ExpensesOfCounts` | src/pages/Dashboard.jsx:47-48 | the filter keeps each expense of the category exactly as many times as it occurs in the input, and no other expense |
| `Dashboard.Total` | src/pages/Dashboard.jsx:49 | the reduce starting at 0 gives 0 for no expenses, the single amount for one expense, and a non-negative sum when no amount is negative |
| `Dashboard.CategorySpending` | src/pages/Dashboard.jsx:46-50 | `getCategorySpending` is 0 when no expense has the category (so 0 for an empty list) and non-negative when no amount is negative; with MatchingExpenseCounted, OtherCategoryIgnored and SpendingAppend this characterises it fully |
| `Dashboard.TotalAppend` | src/pages/Dashboard.jsx:49 | the left-fold sum of a concatenation is the sum of the two parts' sums |
| `Dashboard.TotalBounds` | src/pages/Dashboard.jsx:49 | with no negative amounts the sum is non-negative and at least every single amount |
| `Dashboard.ExpensesOfAppend` | src/pages/Dashboard.jsx:47-48 | filtering a concatenation is concatenating the filtered parts |
| `Dashboard.SpendingAppend` | src/pages/Dashboard.jsx:47-49 | spending over E1 ++ E2 is the spending over E1 plus that over E2 |
| `Dashboard.OtherCategoryIgnored` | src/pages/Dashboard.jsx:47-49 | inserting or removing an expense of another category anywhere leaves the spending unchanged |
| `Dashboard.MatchingExpenseCounted` | src/pages/Dashboard.jsx:47-49 | inserting an expense of the category anywhere raises its spending by exactly that amount |
| `Dashboard.SpendingBounds` | src/pages/Dashboard.jsx:47-49 | with no negative amounts, spending is non-negative and at least any one matching expense's amount |
| `Dashboard.FindBudget` | src/pages/Dashboard.jsx:53 | `find` returns nothing iff no row has the category id; otherwise it returns a row with that id that has no matching row before it |
| `Dashboard.CategoryBudget` | src/pages/Dashboard.jsx:52-55 | the budget is 0 when no row matches, otherwise the amount of the first matching row |
| `Dashboard.LaterDuplicatesIgnored` | src/pages/Dashboard.jsx:52-55 | once a row for the category exists, rows appended after it never change the budget |
| `Dashboard.CardOf` | src/pages/Dashboard.jsx:98-100 | a category's card keeps the category, carries its spending (`getCategorySpending`) and its budget (`getCategoryBudget`), and has remaining = budget - spent, which is negative iff spent exceeds budget |
| `Dashboard.Cards` | src/pages/Dashboard.jsx:97-111 | one card per category, in the supplied order, carrying that category's spending, budget and remaining = budget - spent |
| `Dashboard.Render` | src/pages/Dashboard.jsx:79-113 | the empty state shows iff there are no categories; otherwise the grid has one card per category, in order, with the derived amounts |
| `Dashboard.NoBudgetRow` | src/pages/Dashboard.jsx:98-100 | without a budget row the budget is 0, remaining is -spent, and the card is over budget iff spent > 0 |
| `Dashboard.StatusOf` | src/pages/Dashboard.jsx:103-109 | the props wiring: the card component's status is computed from exactly the card's spent, budget and remaining, and is over budget iff remaining < 0 |
| `Dashboard.CardStatusByAmounts` | src/pages/Dashboard.jsx:97-111 | every card is red iff the category's spending exceeds its budget, yellow iff it is within a positive budget and above 80 percent of it, and labelled "Over by spent - budget" or "Left: budget - spent" |
| `Dashboard.MonthSpending` | src/pages/Dashboard.jsx:46-50 | in the worked month, Food has spent 8000 cents and Transport 12000 |
| `Dashboard.FoodAndTransportMonth` | src/pages/Dashboard.jsx:97-111 | a worked month: Food spends 8000 of 20000 (12000 left), Transport spends 12000 of 10000 (-2000) |
| `CategoryCard.Percentage` | src/components/CategoryCard.jsx:4 | 0 when the budget is not positive; otherwise the percentage times the budget equals 100 times spent |
| `CategoryCard.PercentageAboveEighty` | src/components/CategoryCard.jsx:4 | for a positive budget, the percentage exceeds 80 iff 100 * spent > 80 * budget |
| `CategoryCard.PercentageAtMostHundred` | src/components/CategoryCard.jsx:4 | for a positive budget, the percentage is at most 100 iff spent <= budget |
| `CategoryCard.IsOverBudget` | src/components/CategoryCard.jsx:5 | the over-budget test is strict: remaining 0 is not over budget, remaining -1 cent is; OverBudgetIffOverspent states it in terms of spent and budget |
| `CategoryCard.OverBudgetIffOverspent` | src/components/CategoryCard.jsx:5 | with remaining = budget - spent, over budget iff spent > budget; a budget spent exactly is not over budget |
| `CategoryCard.BarTier` | src/components/CategoryCard.jsx:26 | exactly one tier: red iff over budget, yellow iff not over and above 80 percent, green iff not over and at most 80 percent |
| `CategoryCard.TierByAmounts` | src/components/CategoryCard.jsx:26 | the tier in integer terms: red iff spent > budget, yellow iff 0 < budget, spent <= budget and 100 * spent > 80 * budget, green otherwise |
| `CategoryCard.BarWidth` | src/components/CategoryCard.jsx:28 | the width never exceeds 100 nor the percentage, and is one of the two |
| `CategoryCard.BarWidthByAmounts` | src/components/CategoryCard.jsx:28 | for a positive budget the width is the percentage when spent <= budget and a full 100 when spent >= budget |
| `CategoryCard.BarWidthInRange` | src/components/CategoryCard.jsx:28 | with non-negative spending the width lies between 0 and 100 |
| `CategoryCard.AmountLabel` | src/components/CategoryCard.jsx:37 | "Over by" iff remaining < 0, with a positive amount equal to -remaining; otherwise "Left" with remaining, which is non-negative |
| `CategoryCard.LabelByAmounts` | src/components/CategoryCard.jsx:37 | with remaining = budget - spent, the label is "Over by spent - budget" when spent > budget, else "Left: budget - spent" |
| `CategoryCard.CardStatus` | src/components/CategoryCard.jsx:4-44 | the card shows the percentage, tier, bar width and label given by Percentage, BarTier, BarWidth and AmountLabel; the badge, the "Over by" label and the red tier all appear together, exactly when remaining < 0; the width stays at most 100 |
| `CategoryCard.ZeroBudgetOverspent` | src/components/CategoryCard.jsx:4-37 | a zero budget with positive spending gives 0 percent and a zero-width bar, yet a red card labelled "Over by" the whole amount |

## Left out

- HTTP loading of categories, budgets and expenses (src/pages/Dashboard.jsx:26-44). This is network I/O to a server. The model takes the three lists as parameters, already scoped to the month as the server returns them. It does not re-filter by month.
- React state, the loading spinner, the month picker, the expense form and the toast timer (src/pages/Dashboard.jsx:9-24, 57-63, 67-77, 115-140). These are UI session state and timers.
- JavaScript floating-point amounts and the `toFixed`/`Math.abs` text formatting (src/components/CategoryCard.jsx:19-20, 37). Amounts are integer cents and the percentage is an exact real, so no rounding is reproduced.
- The category's name and colour on the card (src/components/CategoryCard.jsx:8-14). They are markup only.
- Monthly totals and the report page (src/pages/Reports.jsx). The server computes them and they are not in the code modelled here.
- Category and budget editing (src/pages/Settings.jsx). It is HTTP forms. Its budget lookup repeats `getCategoryBudget`.
- Warnings about duplicate budget rows, expenses of unknown categories, and the rejection of negative amounts. The code has none of these: it silently takes the first budget row, ignores expenses whose populated category is not among the listed categories, and sums negative amounts.
- Expense and budget rows whose `category` object is missing (null or undefined, for instance because the category was not populated or was deleted) make the filter at src/pages/Dashboard.jsx:48 or the find at src/pages/Dashboard.jsx:53 throw a TypeError, and the dashboard does not render. The model assumes every row carries a category id, so it has no such error path.
- Dashboard.ExpensesOf: its contract does not state that the filter keeps the original order, and does not itself fix how often a kept expense appears. ExpensesOfCounts states the multiplicity. The order does not change the sum; together with the singleton case, ExpensesOfAppend determines the filter completely.
