/** The ledger-and-profile store (context/FinanceContext.tsx): the profile
    merge, the newest-first transaction list, and the two statistics that
    every screen reads from it. */
module FinanceContext {
  import opened Types
  import opened Seqs
  import Constants

  // ----- profile merge: `{ ...prev, ...patch }` -----

  /** The value a merge gives one key. */
  function Pick(patch: Patch, f: Field, previous: Value): Value
  {
    if f in patch then patch[f] else previous
  }

  /** The object spread `{ ...prev, ...patch }` on a profile. */
  function Merge(prev: UserProfile, patch: Patch): (r: UserProfile)
    requires WellTyped(patch)
    ensures forall f :: Get(r, f) == if f in patch then patch[f] else Get(prev, f)
  {
    UserProfile(
      name := Pick(patch, NameField, Text(prev.name)).text,
      currency := Pick(patch, CurrencyField, Code(prev.currency)).code,
      initialBalance := Pick(patch, InitialBalanceField, Number(prev.initialBalance)).number,
      isOnboarded := Pick(patch, IsOnboardedField, Flag(prev.isOnboarded)).flag,
      theme := Pick(patch, ThemeField, Mode(prev.theme)).mode,
      avatar := Pick(patch, AvatarField, MaybeText(prev.avatar)).maybe,
      monthlyBudget := Pick(patch, MonthlyBudgetField, Number(prev.monthlyBudget)).number)
  }

  /** Merging an empty object changes nothing. */
  lemma MergeEmpty(p: UserProfile)
    ensures Merge(p, map[]) == p
  {
    ProfileExtensionality(Merge(p, map[]), p);
  }

  /** Repeating an update has no further effect. */
  lemma MergeIdempotent(p: UserProfile, patch: Patch)
    requires WellTyped(patch)
    ensures Merge(Merge(p, patch), patch) == Merge(p, patch)
  {
    ProfileExtensionality(Merge(Merge(p, patch), patch), Merge(p, patch));
  }

  /** Two updates in a row are one update with the later keys winning,
      as spreading `{ ...a, ...b }` does. */
  lemma MergeCompose(p: UserProfile, a: Patch, b: Patch)
    requires WellTyped(a) && WellTyped(b)
    ensures WellTyped(a + b)
    ensures Merge(Merge(p, a), b) == Merge(p, a + b)
  {
    ProfileExtensionality(Merge(Merge(p, a), b), Merge(p, a + b));
  }

  /** Initial load of the profile: a stored object is spread over the
      defaults, so each key it lacks takes its default value. */
  function LoadProfile(stored: Option<Patch>): (p: UserProfile)
    requires stored.Some? ==> WellTyped(stored.value)
    ensures stored.None? ==> p == Constants.InitialProfile
    ensures stored.Some? ==>
      (forall f :: Get(p, f) == (if f in stored.value then stored.value[f] else Get(Constants.InitialProfile, f)))
  {
    match stored
    case None => Constants.InitialProfile
    case Some(saved) => Merge(Constants.InitialProfile, saved)
  }

  /** Initial load of the ledger: no stored record means an empty list. */
  function LoadLedger(stored: Option<seq<Transaction>>): (txs: seq<Transaction>)
    ensures stored.None? ==> txs == []
    ensures stored.Some? ==> txs == stored.value
  {
    match stored
    case None => []
    case Some(saved) => saved
  }

  // ----- the ledger -----

  /** `{ ...t, id }`. */
  function WithId(d: Draft, id: string): (t: Transaction)
    ensures t.id == id && t.amount == d.amount && t.txType == d.txType
    ensures t.category == d.category && t.note == d.note && t.date == d.date
  {
    Transaction(id, d.amount, d.txType, d.category, d.note, d.date)
  }

  function IdIsNot(id: string): Transaction -> bool
  {
    (t: Transaction) => t.id != id
  }

  /** `prev.filter(t => t.id !== id)`: never longer, and every record kept
      comes from the ledger and has another id. */
  function Without(txs: seq<Transaction>, id: string): (r: seq<Transaction>)
    ensures |r| <= |txs|
    ensures forall i :: 0 <= i < |r| ==> r[i].id != id && r[i] in txs
  {
    Filter(txs, IdIsNot(id))
  }

  ghost predicate HasId(txs: seq<Transaction>, id: string)
  {
    exists i :: 0 <= i < |txs| && txs[i].id == id
  }

  /** No two records share an id. */
  ghost predicate UniqueIds(txs: seq<Transaction>)
  {
    forall i, j :: 0 <= i < j < |txs| ==> txs[i].id != txs[j].id
  }

  /** Deleting leaves no record with the id, removes every record with it,
      and keeps every other record, in the original relative order. */
  lemma DeleteRemovesAll(txs: seq<Transaction>, id: string)
    ensures !HasId(Without(txs, id), id)
    ensures IsSubsequence(Without(txs, id), txs)
    ensures forall t: Transaction :: t.id != id ==> multiset(Without(txs, id))[t] == multiset(txs)[t]
    ensures |Without(txs, id)| == |txs| - |Filter(txs, IdIs(id))|
  {
    FilterSubsequence(txs, IdIsNot(id));
    forall t: Transaction | t.id != id ensures multiset(Without(txs, id))[t] == multiset(txs)[t] {
      FilterCount(txs, IdIsNot(id), t);
    }
    FilterSplit(txs, IdIsNot(id), IdIs(id));
    assert |multiset(Without(txs, id))| + |multiset(Filter(txs, IdIs(id)))| == |multiset(txs)|;
  }

  function IdIs(id: string): Transaction -> bool
  {
    (t: Transaction) => t.id == id
  }

  /** Deleting an id that is absent leaves the list unchanged. */
  lemma DeleteAbsent(txs: seq<Transaction>, id: string)
    requires !HasId(txs, id)
    ensures Without(txs, id) == txs
  {
    FilterKeepsAll(txs, IdIsNot(id));
  }

  /** Deleting the same id twice is deleting it once. */
  lemma DeleteIdempotent(txs: seq<Transaction>, id: string)
    ensures Without(Without(txs, id), id) == Without(txs, id)
  {
    FilterIdempotent(txs, IdIsNot(id));
  }

  /** A fresh id keeps the ids unique when prepended. */
  lemma AddKeepsIdsUnique(t: Transaction, txs: seq<Transaction>)
    requires UniqueIds(txs) && !HasId(txs, t.id)
    ensures UniqueIds([t] + txs)
  {
    var r := [t] + txs;
    forall i, j | 0 <= i < j < |r| ensures r[i].id != r[j].id {
      if i == 0 {
        assert r[j] == txs[j - 1];
      } else {
        assert r[i] == txs[i - 1] && r[j] == txs[j - 1];
      }
    }
  }

  /** Deleting keeps the ids unique. */
  lemma DeleteKeepsIdsUnique(txs: seq<Transaction>, id: string)
    requires UniqueIds(txs)
    ensures UniqueIds(Without(txs, id))
  {
    FilterPreservesUniqueIds(txs, IdIsNot(id));
  }

  lemma UniqueIdsTail(txs: seq<Transaction>)
    requires UniqueIds(txs) && txs != []
    ensures UniqueIds(txs[1..])
    ensures forall t :: t in txs[1..] ==> t.id != txs[0].id
  {
    forall a, b | 0 <= a < b < |txs[1..]| ensures txs[1..][a].id != txs[1..][b].id {
      assert txs[1..][a] == txs[a + 1] && txs[1..][b] == txs[b + 1];
    }
  }

  lemma {:induction false} FilterPreservesUniqueIds(txs: seq<Transaction>, p: Transaction -> bool)
    requires UniqueIds(txs)
    ensures UniqueIds(Filter(txs, p))
    decreases |txs|
  {
    if txs != [] {
      UniqueIdsTail(txs);
      FilterPreservesUniqueIds(txs[1..], p);
      var rest := Filter(txs[1..], p);
      if p(txs[0]) {
        assert Filter(txs, p) == [txs[0]] + rest;
        assert !HasId(rest, txs[0].id) by {
          forall i | 0 <= i < |rest| ensures rest[i].id != txs[0].id {
            assert rest[i] in txs[1..];
          }
        }
        AddKeepsIdsUnique(txs[0], rest);
      }
    }
  }

  // ----- statistics -----

  function Amount(t: Transaction): real
  {
    t.amount
  }

  function TypeIs(ty: TransactionType): Transaction -> bool
  {
    (t: Transaction) => t.txType == ty
  }

  /** `txs.filter(t => t.type === ty).reduce((sum, t) => sum + t.amount, 0)`. */
  function TotalOf(txs: seq<Transaction>, ty: TransactionType): real
  {
    SumBy(Filter(txs, TypeIs(ty)), Amount)
  }

  /** A transaction's effect on the balance. */
  function Signed(t: Transaction): real
  {
    if t.txType == Income then t.amount else -t.amount
  }

  /** `getNetWorth`: the initial balance plus all income minus all expense,
      which is the initial balance plus every record's signed amount. */
  function NetWorth(p: UserProfile, txs: seq<Transaction>): (r: real)
    ensures r == p.initialBalance + SumBy(txs, Signed)
  {
    SignedSumIsIncomeMinusExpense(txs);
    p.initialBalance + TotalOf(txs, Income) - TotalOf(txs, Expense)
  }

  /** The totals grow by a prepended record's amount, for its own type only. */
  lemma TotalOfCons(t: Transaction, txs: seq<Transaction>, ty: TransactionType)
    ensures TotalOf([t] + txs, ty) == TotalOf(txs, ty) + (if t.txType == ty then t.amount else 0.0)
  {
    FilterCons(t, txs, TypeIs(ty));
    var r := Filter(txs, TypeIs(ty));
    if t.txType == ty {
      assert ([t] + r)[0] == t && ([t] + r)[1..] == r;
    } else {
      assert [] + r == r;
    }
  }

  /** One pass over the signed amounts gives all income minus all expense. */
  lemma {:induction false} SignedSumIsIncomeMinusExpense(txs: seq<Transaction>)
    ensures SumBy(txs, Signed) == TotalOf(txs, Income) - TotalOf(txs, Expense)
    decreases |txs|
  {
    if txs != [] {
      SignedSumIsIncomeMinusExpense(txs[1..]);
      assert txs == [txs[0]] + txs[1..];
      TotalOfCons(txs[0], txs[1..], Income);
      TotalOfCons(txs[0], txs[1..], Expense);
    }
  }

  /** Adding a record moves net worth by its signed amount. */
  lemma NetWorthAfterAdd(p: UserProfile, t: Transaction, txs: seq<Transaction>)
    ensures NetWorth(p, [t] + txs) == NetWorth(p, txs) + Signed(t)
  {
    TotalOfCons(t, txs, Income);
    TotalOfCons(t, txs, Expense);
  }

  /** Net worth does not depend on the order of the ledger. */
  lemma NetWorthPermutation(p: UserProfile, a: seq<Transaction>, b: seq<Transaction>)
    requires multiset(a) == multiset(b)
    ensures NetWorth(p, a) == NetWorth(p, b)
  {
    FilterPermutation(a, b, TypeIs(Income));
    SumByPermutation(Filter(a, TypeIs(Income)), Filter(b, TypeIs(Income)), Amount);
    FilterPermutation(a, b, TypeIs(Expense));
    SumByPermutation(Filter(a, TypeIs(Expense)), Filter(b, TypeIs(Expense)), Amount);
  }

  /** On an empty ledger net worth is the initial balance. */
  lemma NetWorthEmpty(p: UserProfile)
    ensures NetWorth(p, []) == p.initialBalance
  {
  }

  /** Balance 1000, income 500, expense 200: net worth 1300. */
  lemma NetWorthExample(p: UserProfile, m: YearMonth)
    requires p.initialBalance == 1000.0
    ensures NetWorth(p, [Transaction("a", 500.0, Income, "Salary", "", m),
                         Transaction("b", 200.0, Expense, "Food", "", m)]) == 1300.0
  {
    var b := Transaction("b", 200.0, Expense, "Food", "", m);
    var a := Transaction("a", 500.0, Income, "Salary", "", m);
    NetWorthAfterAdd(p, a, [b]);
    NetWorthAfterAdd(p, b, []);
    assert [a] + [b] == [a, b];
  }

  datatype MonthlyTotals = MonthlyTotals(income: real, expense: real)

  function InMonth(now: YearMonth): Transaction -> bool
  {
    (t: Transaction) => t.date.month == now.month && t.date.year == now.year
  }

  /** `getMonthlyStats`: income and expense of the transactions dated in the
      month and year of `now`. */
  function MonthlyStats(txs: seq<Transaction>, now: YearMonth): (r: MonthlyTotals)
    ensures r.income - r.expense == SumBy(Filter(txs, InMonth(now)), Signed)
    ensures (forall i :: 0 <= i < |txs| ==> txs[i].date != now) ==> r == MonthlyTotals(0.0, 0.0)
  {
    SignedSumIsIncomeMinusExpense(Filter(txs, InMonth(now)));
    assert (forall i :: 0 <= i < |txs| ==> txs[i].date != now) ==> Filter(txs, InMonth(now)) == [] by {
      if forall i :: 0 <= i < |txs| ==> txs[i].date != now {
        FilterDropsAll(txs, InMonth(now));
      }
    }
    var monthly := Filter(txs, InMonth(now));
    MonthlyTotals(TotalOf(monthly, Income), TotalOf(monthly, Expense))
  }

  /** A prepended record counts towards its type exactly when it is dated
      in the current month; a record from another month changes nothing. */
  lemma MonthlyStatsCons(t: Transaction, txs: seq<Transaction>, now: YearMonth)
    ensures var before := MonthlyStats(txs, now);
            var after := MonthlyStats([t] + txs, now);
            if t.date == now then
              after.income == before.income + (if t.txType == Income then t.amount else 0.0)
              && after.expense == before.expense + (if t.txType == Expense then t.amount else 0.0)
            else after == before
  {
    FilterCons(t, txs, InMonth(now));
    var m := Filter(txs, InMonth(now));
    if t.date == now {
      assert Filter([t] + txs, InMonth(now)) == [t] + m;
      TotalOfCons(t, m, Income);
      TotalOfCons(t, m, Expense);
    } else {
      assert Filter([t] + txs, InMonth(now)) == [] + m == m;
    }
  }

  /** On an empty ledger both monthly totals are zero. */
  lemma MonthlyStatsEmpty(now: YearMonth)
    ensures MonthlyStats([], now) == MonthlyTotals(0.0, 0.0)
  {
  }

  /** The monthly totals do not depend on the order of the ledger. */
  lemma MonthlyStatsPermutation(a: seq<Transaction>, b: seq<Transaction>, now: YearMonth)
    requires multiset(a) == multiset(b)
    ensures MonthlyStats(a, now) == MonthlyStats(b, now)
  {
    var ma, mb := Filter(a, InMonth(now)), Filter(b, InMonth(now));
    FilterPermutation(a, b, InMonth(now));
    FilterPermutation(ma, mb, TypeIs(Income));
    SumByPermutation(Filter(ma, TypeIs(Income)), Filter(mb, TypeIs(Income)), Amount);
    FilterPermutation(ma, mb, TypeIs(Expense));
    SumByPermutation(Filter(ma, TypeIs(Expense)), Filter(mb, TypeIs(Expense)), Amount);
  }

  // ----- the provider's state -----

  /** The provider: the current profile and the newest-first ledger. */
  class FinanceStore {
    var profile: UserProfile
    var transactions: seq<Transaction>

    /** Mount: load both records from storage or fall back to defaults. */
    constructor (storedProfile: Option<Patch>, storedTransactions: Option<seq<Transaction>>)
      requires storedProfile.Some? ==> WellTyped(storedProfile.value)
      ensures profile == LoadProfile(storedProfile)
      ensures transactions == LoadLedger(storedTransactions)
    {
      profile := LoadProfile(storedProfile);
      transactions := LoadLedger(storedTransactions);
    }

    /** `updateProfile`: each key of the patch overwrites, the rest stay. */
    method UpdateProfile(patch: Patch)
      requires WellTyped(patch)
      modifies this
      ensures forall f :: Get(profile, f) == if f in patch then patch[f] else Get(old(profile), f)
      ensures profile == Merge(old(profile), patch)
      ensures transactions == old(transactions)
    {
      profile := Merge(profile, patch);
    }

    /** `addTransaction`: the new record, with its generated id, goes first;
        `id` stands for the value of `crypto.randomUUID()`. */
    method AddTransaction(draft: Draft, id: string)
      modifies this
      ensures transactions == [WithId(draft, id)] + old(transactions)
      ensures |transactions| == |old(transactions)| + 1 && transactions[0].id == id
      ensures transactions[1..] == old(transactions)
      ensures UniqueIds(old(transactions)) && !HasId(old(transactions), id) ==> UniqueIds(transactions)
      ensures profile == old(profile)
    {
      transactions := [WithId(draft, id)] + transactions;
      if UniqueIds(old(transactions)) && !HasId(old(transactions), id) {
        AddKeepsIdsUnique(WithId(draft, id), old(transactions));
      }
    }

    /** `deleteTransaction`: drops every record with the id. */
    method DeleteTransaction(id: string)
      modifies this
      ensures transactions == Without(old(transactions), id)
      ensures !HasId(transactions, id)
      ensures IsSubsequence(transactions, old(transactions))
      ensures !HasId(old(transactions), id) ==> transactions == old(transactions)
      ensures profile == old(profile)
    {
      DeleteRemovesAll(transactions, id);
      if !HasId(transactions, id) {
        DeleteAbsent(transactions, id);
      }
      transactions := Without(transactions, id);
    }

    /** `resetData`: back to the default profile and an empty ledger. */
    method ResetData()
      modifies this
      ensures profile == Constants.InitialProfile && transactions == []
    {
      profile := Constants.InitialProfile;
      transactions := [];
    }
  }
}
