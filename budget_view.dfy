/** The monthly budget screen (components/BudgetView.tsx): saving the
    limit, and the progress bar, remaining amount, colour tier, highlight
    and daily allowance that it derives from this month's expense. */
module BudgetView {
  import opened Types
  import Constants
  import FinanceContext

  function Min(a: real, b: real): real
  {
    if a <= b then a else b
  }

  function Max(a: real, b: real): real
  {
    if a >= b then a else b
  }

  // ----- derived figures -----

  /** Dividing by a positive amount keeps the order. */
  lemma DivMonotone(a: real, b: real, d: real)
    requires d > 0.0 && a <= b
    ensures a / d <= b / d
  {
    var qa, qb := a / d, b / d;
    assert qa * d == a;
    assert qb * d == b;
  }

  /** A quotient by a positive amount reaches `k` exactly when the
      dividend reaches `k` times the divisor. */
  lemma DivAtLeast(a: real, d: real, k: real)
    requires d > 0.0
    ensures a / d >= k <==> a >= k * d
  {
    var q := a / d;
    assert q * d == a;
    if q >= k {
      assert (q - k) * d >= 0.0;
      assert q * d - k * d == (q - k) * d;
    } else {
      assert (k - q) * d > 0.0;
      assert k * d - q * d == (k - q) * d;
    }
  }

  /** For a positive budget, the spent percentage reaches 100 exactly when
      the expense reaches the budget, and 80 when it reaches four fifths. */
  lemma RatioReachesHundred(budget: real, expense: real)
    requires budget > 0.0
    ensures expense / budget * 100.0 >= 100.0 <==> expense >= budget
    ensures expense / budget * 100.0 >= 80.0 <==> expense >= budget * 0.8
    ensures expense >= 0.0 ==> expense / budget * 100.0 >= 0.0
  {
    DivAtLeast(expense, budget, 1.0);
    DivAtLeast(expense, budget, 0.8);
    DivAtLeast(expense, budget, 0.0);
  }

  /** `budgetProgress`: the percentage of the budget spent, capped at 100,
      and 0 when no positive budget is set. */
  function Progress(budget: real, expense: real): (pct: real)
    ensures budget <= 0.0 ==> pct == 0.0
    ensures pct <= 100.0
    ensures expense >= 0.0 ==> pct >= 0.0
    ensures budget > 0.0 ==> (pct == 100.0 <==> expense >= budget)
  {
    if budget > 0.0 then
      RatioReachesHundred(budget, expense);
      Min(expense / budget * 100.0, 100.0)
    else 0.0
  }

  /** `remaining`: what is left of the budget, never negative. */
  function Remaining(budget: real, expense: real): (r: real)
    ensures r >= 0.0 && r >= budget - expense
    ensures r == 0.0 <==> expense >= budget
    ensures expense < budget ==> r == budget - expense
  {
    Max(budget - expense, 0.0)
  }

  /** The daily allowance: the remaining amount spread over thirty days. */
  function DailySafeSpend(remaining: real): (d: real)
    ensures d >= 0.0
    ensures remaining >= 0.0 ==> d * 30.0 == remaining
    ensures remaining <= 0.0 ==> d == 0.0
  {
    Max(remaining / 30.0, 0.0)
  }

  /** The progress bar's colour. */
  datatype Tier = OnTrack | Warning | Danger

  /** At least 100 is danger, at least 80 a warning, anything less on track. */
  function TierOf(progress: real): (t: Tier)
    ensures t == Danger <==> progress >= 100.0
    ensures t == Warning <==> 80.0 <= progress < 100.0
    ensures t == OnTrack <==> progress < 80.0
  {
    if progress >= 100.0 then Danger
    else if progress >= 80.0 then Warning
    else OnTrack
  }

  /** The remaining amount turns red below a fifth of the budget. */
  predicate LowRemaining(remaining: real, budget: real)
    ensures budget > 0.0 ==> (LowRemaining(remaining, budget) <==> remaining * 5.0 < budget)
    ensures budget > 0.0 && remaining <= 0.0 ==> LowRemaining(remaining, budget)
    ensures budget <= 0.0 && remaining >= 0.0 ==> !LowRemaining(remaining, budget)
  {
    remaining < budget * 0.2
  }

  /** What the screen shows below the input: nothing but a prompt without a
      budget, the status cards with one. */
  datatype Status =
    | NoBudget
    | Tracking(used: real, remaining: real, progress: real, tier: Tier, lowRemaining: bool, daily: real)

  function StatusOf(budget: real, expense: real): (s: Status)
    ensures s.NoBudget? <==> budget <= 0.0
  {
    if budget > 0.0 then
      var left := Remaining(budget, expense);
      var pct := Progress(budget, expense);
      Tracking(expense, left, pct, TierOf(pct), LowRemaining(left, budget), DailySafeSpend(left))
    else NoBudget
  }

  /** The screen for a profile and ledger: this month's expense against the
      monthly budget. */
  function Screen(p: UserProfile, txs: seq<Transaction>, now: YearMonth): Status
  {
    StatusOf(p.monthlyBudget, FinanceContext.MonthlyStats(txs, now).expense)
  }

  // ----- what the figures mean -----

  /** With a budget set, the bar is full, red, exactly when nothing remains,
      which is exactly when the expense has reached the budget. */
  lemma DangerIffExhausted(budget: real, expense: real)
    requires budget > 0.0
    ensures StatusOf(budget, expense).tier == Danger <==> StatusOf(budget, expense).remaining == 0.0
    ensures StatusOf(budget, expense).remaining == 0.0 <==> expense >= budget
    ensures StatusOf(budget, expense).progress == 100.0 <==> expense >= budget
  {
  }

  /** The amber band is 80% up to (not including) 100% of the budget. */
  lemma WarningBand(budget: real, expense: real)
    requires budget > 0.0
    ensures StatusOf(budget, expense).tier == Warning <==> budget * 0.8 <= expense < budget
  {
    RatioReachesHundred(budget, expense);
  }

  /** The red remaining amount appears once more than 80% is spent. */
  lemma LowRemainingIff(budget: real, expense: real)
    requires budget > 0.0
    ensures StatusOf(budget, expense).lowRemaining <==> expense > budget * 0.8
  {
  }

  /** Exactly at 80% the bar is already amber while the remaining amount is
      not yet red: the two thresholds differ at the boundary. */
  lemma EightyPercentBoundary()
    ensures StatusOf(100.0, 80.0).tier == Warning && !StatusOf(100.0, 80.0).lowRemaining
  {
    WarningBand(100.0, 80.0);
  }

  /** Below the budget, the spent percentage and the remaining amount
      account for the whole budget. */
  lemma ProgressAndRemainingAddUp(budget: real, expense: real)
    requires budget > 0.0 && expense < budget
    ensures Progress(budget, expense) / 100.0 * budget + Remaining(budget, expense) == budget
  {
    RatioReachesHundred(budget, expense);
    var q := expense / budget;
    assert q * budget == expense;
    assert Progress(budget, expense) == q * 100.0;
  }

  /** More expense never lowers the progress or raises what remains. */
  lemma MonotoneInExpense(budget: real, e1: real, e2: real)
    requires e1 <= e2
    ensures Progress(budget, e1) <= Progress(budget, e2)
    ensures Remaining(budget, e2) <= Remaining(budget, e1)
  {
    if budget > 0.0 {
      DivMonotone(e1, e2, budget);
    }
  }

  /** Recording an expense dated this month never frees budget. */
  lemma ExpenseNeverFreesBudget(p: UserProfile, t: Transaction, txs: seq<Transaction>, now: YearMonth)
    requires t.txType == Expense && t.amount >= 0.0
    ensures Remaining(p.monthlyBudget, FinanceContext.MonthlyStats([t] + txs, now).expense)
            <= Remaining(p.monthlyBudget, FinanceContext.MonthlyStats(txs, now).expense)
    ensures Progress(p.monthlyBudget, FinanceContext.MonthlyStats(txs, now).expense)
            <= Progress(p.monthlyBudget, FinanceContext.MonthlyStats([t] + txs, now).expense)
  {
    FinanceContext.MonthlyStatsCons(t, txs, now);
    MonotoneInExpense(p.monthlyBudget,
      FinanceContext.MonthlyStats(txs, now).expense, FinanceContext.MonthlyStats([t] + txs, now).expense);
  }

  /** Budget 100 with 150 spent: a full red bar, nothing remaining, nothing
      to spend per day. */
  lemma OverBudgetExample()
    ensures StatusOf(100.0, 150.0) == Tracking(150.0, 0.0, 100.0, Danger, true, 0.0)
  {
  }

  /** Budget 300 with 60 spent: 20%, on track, 240 left, 8 a day. */
  lemma OnTrackExample()
    ensures StatusOf(300.0, 60.0) == Tracking(60.0, 240.0, 20.0, OnTrack, false, 8.0)
  {
    RatioReachesHundred(300.0, 60.0);
    assert 60.0 / 300.0 == 0.2;
  }

  // ----- saving the budget -----

  /** `{ monthlyBudget: val }` with `val` the parsed input, or 0 when the
      input is not a number (`parsed == None` stands for NaN). */
  function BudgetPatch(parsed: Option<real>): (patch: Patch)
    ensures WellTyped(patch) && patch.Keys == {MonthlyBudgetField}
    ensures parsed.None? ==> patch[MonthlyBudgetField] == Number(0.0)
    ensures parsed.Some? ==> patch[MonthlyBudgetField] == Number(parsed.value)
  {
    match parsed
    case Some(v) => map[MonthlyBudgetField := Number(v)]
    case None => map[MonthlyBudgetField := Number(0.0)]
  }

  /** Saving changes the budget and nothing else; unparsable input clears
      the budget, which hides the status cards. */
  lemma SaveChangesOnlyBudget(p: UserProfile, parsed: Option<real>, expense: real)
    ensures FinanceContext.Merge(p, BudgetPatch(parsed))
            == p.(monthlyBudget := if parsed.Some? then parsed.value else 0.0)
    ensures parsed.None? ==> StatusOf(FinanceContext.Merge(p, BudgetPatch(parsed)).monthlyBudget, expense) == NoBudget
  {
    var q := p.(monthlyBudget := if parsed.Some? then parsed.value else 0.0);
    ProfileExtensionality(FinanceContext.Merge(p, BudgetPatch(parsed)), q);
  }

  /** `handleSaveBudget` against the store. */
  method SaveBudget(store: FinanceContext.FinanceStore, parsed: Option<real>)
    modifies store
    ensures store.profile == old(store.profile).(monthlyBudget := if parsed.Some? then parsed.value else 0.0)
    ensures store.transactions == old(store.transactions)
  {
    SaveChangesOnlyBudget(store.profile, parsed, 0.0);
    store.UpdateProfile(BudgetPatch(parsed));
  }
}
