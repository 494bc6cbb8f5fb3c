/** The category breakdown of the analytics screen (components/Analytics.tsx):
    filter by type, group by category into sum and count, list the groups in
    `Object.entries` order, sort them by value, descending. */
module Analytics {
  import opened Types
  import opened Seqs
  import opened Strings
  import opened FinanceContext
  import Constants

  /** The accumulator entry `{ amount, count }` of one category. */
  datatype Tally = Tally(amount: real, count: nat)

  /** The accumulator object: its own keys in insertion order, and their entries. */
  datatype Groups = Groups(keys: seq<string>, acc: map<string, Tally>)

  /** One chart row `{ name, value, count }`. */
  datatype Slice = Slice(name: string, value: real, count: nat)

  // ----- the specification of a group -----

  function CategoryIs(c: string): Transaction -> bool
  {
    (t: Transaction) => t.category == c
  }

  /** Sum of the amounts of category `c`. */
  function SumIn(s: seq<Transaction>, c: string): real
  {
    SumBy(Filter(s, CategoryIs(c)), Amount)
  }

  /** Number of transactions of category `c`. */
  function CountIn(s: seq<Transaction>, c: string): nat
  {
    |Filter(s, CategoryIs(c))|
  }

  /** `s.map(t => t.category)`. */
  function Categories(s: seq<Transaction>): (cats: seq<string>)
    ensures |cats| == |s| && forall i :: 0 <= i < |s| ==> cats[i] == s[i].category
    decreases |s|
  {
    if s == [] then [] else Categories(s[..|s| - 1]) + [s[|s| - 1].category]
  }

  /** The distinct elements in order of first occurrence. */
  function Dedup(s: seq<string>): (r: seq<string>)
    ensures NoDup(r) && forall k :: k in r <==> k in s
    decreases |s|
  {
    if s == [] then []
    else
      var init := s[..|s| - 1];
      var r0 := Dedup(init);
      assert s == init + [s[|s| - 1]];
      Dedup(init) + (if s[|s| - 1] in init then [] else [s[|s| - 1]])
  }

  // ----- the grouping reduce (lines 25-32), corrected -----

  /** One call of the reducer with an own-key test: create
      `{ amount: 0, count: 0 }` when the category has no entry yet, then add
      the amount and one to the count. The source tests `!acc[t.category]`,
      which differs for the names in `Inherited`; `AddToAsWritten` below is
      that version. */
  function AddTo(g: Groups, t: Transaction): Groups
  {
    var c := t.category;
    var g1 := if c in g.acc then g else Groups(g.keys + [c], g.acc[c := Tally(0.0, 0)]);
    Groups(g1.keys, g1.acc[c := Tally(g1.acc[c].amount + t.amount, g1.acc[c].count + 1)])
  }

  /** `s.reduce(reducer, {})`, left to right, with the corrected reducer;
      `GroupAllSpec` states what it computes. */
  function GroupAll(s: seq<Transaction>): Groups
    decreases |s|
  {
    if s == [] then Groups([], map[]) else AddTo(GroupAll(s[..|s| - 1]), s[|s| - 1])
  }

  /** One reducer call: a new category is appended to the keys with
      `{ amount: 0, count: 0 }`, then its entry gains the amount and one
      more count; every other entry stays as it was. */
  lemma AddToEffect(g: Groups, t: Transaction)
    ensures AddTo(g, t).keys == if t.category in g.acc then g.keys else g.keys + [t.category]
    ensures t.category in AddTo(g, t).acc
    ensures AddTo(g, t).acc[t.category].count == (if t.category in g.acc then g.acc[t.category].count else 0) + 1
    ensures AddTo(g, t).acc[t.category].amount == (if t.category in g.acc then g.acc[t.category].amount else 0.0) + t.amount
    ensures forall k :: k != t.category ==> (k in AddTo(g, t).acc <==> k in g.acc)
    ensures forall k :: k in g.acc && k != t.category ==> AddTo(g, t).acc[k] == g.acc[k]
  {
  }

  lemma SumInSnoc(s: seq<Transaction>, t: Transaction, c: string)
    ensures SumIn(s + [t], c) == SumIn(s, c) + (if t.category == c then t.amount else 0.0)
    ensures CountIn(s + [t], c) == CountIn(s, c) + (if t.category == c then 1 else 0)
  {
    FilterConcat(s, [t], CategoryIs(c));
    FilterCons(t, [], CategoryIs(c));
    assert [t] == [t] + [];
    SumByConcat(Filter(s, CategoryIs(c)), Filter([t], CategoryIs(c)), Amount);
  }

  /** The accumulator's own keys are the categories in order of first
      occurrence, and each one has an entry. */
  lemma {:induction false} GroupAllKeys(s: seq<Transaction>)
    ensures GroupAll(s).keys == Dedup(Categories(s))
    ensures forall k :: k in GroupAll(s).acc <==> k in Categories(s)
    decreases |s|
  {
    if s != [] {
      var init := s[..|s| - 1];
      GroupAllKeys(init);
      assert Categories(s)[..|s| - 1] == Categories(init);
    }
  }

  /** Each entry of the accumulator holds the sum and the count of its category. */
  lemma {:induction false} GroupAllTally(s: seq<Transaction>, k: string)
    requires k in GroupAll(s).acc
    ensures GroupAll(s).acc[k] == Tally(SumIn(s, k), CountIn(s, k))
    decreases |s|
  {
    var init, t := s[..|s| - 1], s[|s| - 1];
    assert s == init + [t];
    var g0 := GroupAll(init);
    assert GroupAll(s) == AddTo(g0, t);
    SumInSnoc(init, t, k);
    if k in g0.acc {
      GroupAllTally(init, k);
    } else {
      GroupAllKeys(init);
      assert forall i :: 0 <= i < |init| ==> Categories(init)[i] == init[i].category;
      FilterDropsAll(init, CategoryIs(k));
    }
  }

  /** The accumulator after the reduce: one own key per category, in order of
      first occurrence, each holding the sum and the count of its category. */
  lemma GroupAllSpec(s: seq<Transaction>)
    ensures GroupAll(s).keys == Dedup(Categories(s)) && NoDup(GroupAll(s).keys)
    ensures forall k :: k in GroupAll(s).acc <==> k in GroupAll(s).keys
    ensures forall k :: k in GroupAll(s).keys <==> k in Categories(s)
    ensures forall k :: k in GroupAll(s).acc ==> GroupAll(s).acc[k] == Tally(SumIn(s, k), CountIn(s, k))
  {
    GroupAllKeys(s);
    forall k | k in GroupAll(s).acc ensures GroupAll(s).acc[k] == Tally(SumIn(s, k), CountIn(s, k)) {
      GroupAllTally(s, k);
    }
  }

  // ----- Object.entries order -----

  /** The order in which `Object.entries` lists an object's own keys: the
      array-index keys in ascending numeric order, then the other keys in
      insertion order; that is, a stable sort by `EntryRank`. */
  function EntriesOrder(keys: seq<string>): (r: seq<string>)
    ensures multiset(r) == multiset(keys)
    ensures forall k :: k in r <==> k in keys
  {
    var r := SortBy(keys, EntryRank);
    assert forall k :: k in r <==> k in multiset(keys);
    r
  }

  /** Keys that are not array indices keep their insertion order. */
  lemma EntriesOrderKeepsNamedKeys(keys: seq<string>)
    ensures Filter(EntriesOrder(keys), IsNotArrayIndex) == Filter(keys, IsNotArrayIndex)
  {
    SortByStable(keys, EntryRank, IsNotArrayIndex, 4294967295.0);
  }

  /** Array-index keys come before all other keys, in ascending numeric order. */
  lemma EntriesOrderIndicesFirst(keys: seq<string>)
    ensures var r := EntriesOrder(keys);
      forall i, j :: 0 <= i < j < |r| && IsArrayIndex(r[j]) ==>
        IsArrayIndex(r[i]) && DigitsValue(r[i]) <= DigitsValue(r[j])
  {
    var r := EntriesOrder(keys);
    forall i, j | 0 <= i < j < |r| && IsArrayIndex(r[j])
      ensures IsArrayIndex(r[i]) && DigitsValue(r[i]) <= DigitsValue(r[j])
    {
      assert EntryRank(r[i]) <= EntryRank(r[j]);
    }
  }

  // ----- the chart rows -----

  /** `.map(([name, { amount, count }]) => ({ name, value: amount, count }))`. */
  function ToSlices(keys: seq<string>, acc: map<string, Tally>): (r: seq<Slice>)
    requires forall k :: k in keys ==> k in acc
    ensures |r| == |keys|
    ensures forall i :: 0 <= i < |keys| ==> r[i] == Slice(keys[i], acc[keys[i]].amount, acc[keys[i]].count)
    decreases |keys|
  {
    if keys == [] then []
    else [Slice(keys[0], acc[keys[0]].amount, acc[keys[0]].count)] + ToSlices(keys[1..], acc)
  }

  function Value(sl: Slice): real
  {
    sl.value
  }

  function NegValue(sl: Slice): real
  {
    -sl.value
  }

  function CountOf(sl: Slice): real
  {
    sl.count as real
  }

  /** The rows before sorting: `Object.entries(grouped)` mapped to slices,
      for the corrected grouping; `RowsAccurate` and `RowsOrder` state what
      they hold. */
  function Rows(s: seq<Transaction>): seq<Slice>
  {
    GroupAllKeys(s);
    var g := GroupAll(s);
    ToSlices(EntriesOrder(g.keys), g.acc)
  }

  /** `chartData` (lines 20-41) with the corrected grouping: the rows of
      the transactions of `viewType`, rearranged by value, descending.
      `BreakdownAsWritten` below follows the source's `!acc[...]` test. */
  function Breakdown(txs: seq<Transaction>, viewType: TransactionType): (data: seq<Slice>)
    ensures multiset(data) == multiset(Rows(Filter(txs, TypeIs(viewType))))
    ensures SortedBy(data, NegValue)
  {
    SortBy(Rows(Filter(txs, TypeIs(viewType))), NegValue)
  }

  /** The grouping reduce run in place, as the component does, one
      transaction at a time, with the corrected own-key test of `AddTo`. */
  method GroupByCategory(relevant: seq<Transaction>) returns (keys: seq<string>, acc: map<string, Tally>)
    ensures Groups(keys, acc) == GroupAll(relevant)
  {
    keys, acc := [], map[];
    for i := 0 to |relevant|
      invariant Groups(keys, acc) == GroupAll(relevant[..i])
    {
      var t := relevant[i];
      assert relevant[..i + 1][..i] == relevant[..i];
      assert GroupAll(relevant[..i + 1]) == AddTo(GroupAll(relevant[..i]), t);
      if t.category !in acc {
        acc := acc[t.category := Tally(0.0, 0)];
        keys := keys + [t.category];
      }
      acc := acc[t.category := Tally(acc[t.category].amount + t.amount, acc[t.category].count + 1)];
    }
    assert relevant[..|relevant|] == relevant;
  }

  /** `chartData` with the grouping done in place; the corrected
      breakdown. */
  method ChartData(txs: seq<Transaction>, viewType: TransactionType) returns (data: seq<Slice>)
    ensures data == Breakdown(txs, viewType)
  {
    var relevant := Filter(txs, TypeIs(viewType));
    var keys, acc := GroupByCategory(relevant);
    GroupAllKeys(relevant);
    data := SortBy(ToSlices(EntriesOrder(keys), acc), NegValue);
  }

  /** A row that states the sum and the count of its category of `s`. */
  ghost predicate Accurate(sl: Slice, s: seq<Transaction>)
  {
    sl.name in Categories(s) && sl.value == SumIn(s, sl.name) && sl.count == CountIn(s, sl.name)
  }

  /** `keys` lists each category of `s` once, and `acc` holds its sum and count. */
  ghost predicate Tallied(keys: seq<string>, acc: map<string, Tally>, s: seq<Transaction>)
  {
    && NoDup(keys)
    && (forall k :: k in keys <==> k in Categories(s))
    && (forall k :: k in keys ==> k in acc && acc[k] == Tally(SumIn(s, k), CountIn(s, k)))
  }

  /** The accumulator's keys, in `Object.entries` order, are tallied, and
      they are the rows' names. */
  lemma RowsTallied(s: seq<Transaction>)
    ensures var g := GroupAll(s);
      && Tallied(EntriesOrder(g.keys), g.acc, s)
      && Rows(s) == ToSlices(EntriesOrder(g.keys), g.acc)
  {
    GroupAllKeys(s);
    var g := GroupAll(s);
    var keys := EntriesOrder(g.keys);
    NoDupPermutation(g.keys, keys);
    forall k | k in keys ensures k in g.acc && g.acc[k] == Tally(SumIn(s, k), CountIn(s, k)) {
      GroupAllTally(s, k);
    }
  }

  /** The rows follow the `Object.entries` order of the categories taken in
      order of first occurrence. */
  lemma RowsOrder(s: seq<Transaction>)
    ensures |Rows(s)| == |Dedup(Categories(s))|
    ensures forall i :: 0 <= i < |Rows(s)| ==> Rows(s)[i].name == EntriesOrder(Dedup(Categories(s)))[i]
  {
    GroupAllKeys(s);
    var g := GroupAll(s);
    assert Rows(s) == ToSlices(EntriesOrder(g.keys), g.acc);
  }

  /** Slices of tallied keys are accurate, one per category. */
  lemma SlicesAccurate(keys: seq<string>, acc: map<string, Tally>, s: seq<Transaction>)
    requires Tallied(keys, acc, s)
    ensures forall i :: 0 <= i < |keys| ==> Accurate(ToSlices(keys, acc)[i], s)
    ensures forall i, j :: 0 <= i < j < |keys| ==> ToSlices(keys, acc)[i].name != ToSlices(keys, acc)[j].name
  {
    var rows := ToSlices(keys, acc);
    forall i | 0 <= i < |keys| ensures Accurate(rows[i], s) {
      assert rows[i] == Slice(keys[i], acc[keys[i]].amount, acc[keys[i]].count);
      assert keys[i] in keys;
    }
    forall i, j | 0 <= i < j < |keys| ensures rows[i].name != rows[j].name {
      assert rows[i].name == keys[i] && rows[j].name == keys[j];
    }
  }

  /** Every row is accurate, no category has two rows, and every category has one. */
  lemma RowsAccurate(s: seq<Transaction>)
    ensures forall i :: 0 <= i < |Rows(s)| ==> Accurate(Rows(s)[i], s)
    ensures forall i, j :: 0 <= i < j < |Rows(s)| ==> Rows(s)[i].name != Rows(s)[j].name
    ensures forall c :: c in Categories(s) ==> exists i :: 0 <= i < |Rows(s)| && Rows(s)[i].name == c
  {
    RowsTallied(s);
    var g := GroupAll(s);
    var keys := EntriesOrder(g.keys);
    SlicesAccurate(keys, g.acc, s);
    forall c | c in Categories(s) ensures exists i :: 0 <= i < |Rows(s)| && Rows(s)[i].name == c {
      assert c in keys;
      var i :| 0 <= i < |keys| && keys[i] == c;
      assert Rows(s)[i].name == c;
    }
  }

  /** Sorting accurate rows, one per category, keeps them so and orders
      them by value, descending. */
  lemma SortedRows(rows: seq<Slice>, s: seq<Transaction>)
    requires forall i :: 0 <= i < |rows| ==> Accurate(rows[i], s)
    requires forall i, j :: 0 <= i < j < |rows| ==> rows[i].name != rows[j].name
    requires forall c :: c in Categories(s) ==> exists i :: 0 <= i < |rows| && rows[i].name == c
    ensures var data := SortBy(rows, NegValue);
      && (forall i :: 0 <= i < |data| ==> Accurate(data[i], s))
      && (forall c :: c in Categories(s) ==> exists i :: 0 <= i < |data| && data[i].name == c)
      && (forall i, j :: 0 <= i < j < |data| ==> data[i].name != data[j].name)
      && (forall i, j :: 0 <= i < j < |data| ==> data[i].value >= data[j].value)
  {
    var data := SortBy(rows, NegValue);
    forall i | 0 <= i < |data| ensures Accurate(data[i], s) {
      assert data[i] in multiset(rows);
    }
    forall c | c in Categories(s) ensures exists i :: 0 <= i < |data| && data[i].name == c {
      var k :| 0 <= k < |rows| && rows[k].name == c;
      assert rows[k] in multiset(data);
    }
    assert NoDup(rows) by {
      forall i, j | 0 <= i < j < |rows| ensures rows[i] != rows[j] {
        assert rows[i].name != rows[j].name;
      }
    }
    NoDupPermutation(rows, data);
    forall i, j | 0 <= i < j < |data| ensures data[i].name != data[j].name {
      assert data[i] != data[j];
    }
    forall i, j | 0 <= i < j < |data| ensures data[i].value >= data[j].value {
      assert NegValue(data[i]) <= NegValue(data[j]);
    }
  }

  /** The number of distinct categories. */
  lemma DedupCardinality(cats: seq<string>)
    ensures |Dedup(cats)| == |set c | c in cats|
  {
    assert (set c | c in cats) == (set c | c in Dedup(cats));
    NoDupCardinality(Dedup(cats));
  }

  /** What the chart shows, row by row: each row is one category of the
      transactions of `viewType`, with the sum and the count of that
      category; every such category has exactly one row; and the rows run
      from the largest value down. */
  lemma BreakdownRows(txs: seq<Transaction>, viewType: TransactionType)
    ensures var data := Breakdown(txs, viewType);
            var relevant := Filter(txs, TypeIs(viewType));
      && (forall i :: 0 <= i < |data| ==> Accurate(data[i], relevant))
      && (forall c :: c in Categories(relevant) ==> exists i :: 0 <= i < |data| && data[i].name == c)
      && (forall i, j :: 0 <= i < j < |data| ==> data[i].name != data[j].name)
      && (forall i, j :: 0 <= i < j < |data| ==> data[i].value >= data[j].value)
  {
    var relevant := Filter(txs, TypeIs(viewType));
    RowsAccurate(relevant);
    SortedRows(Rows(relevant), relevant);
    assert Breakdown(txs, viewType) == SortBy(Rows(relevant), NegValue);
  }

  /** No category is dropped: the chart has one row per distinct category. */
  lemma BreakdownSize(txs: seq<Transaction>, viewType: TransactionType)
    ensures |Breakdown(txs, viewType)| == |set c | c in Categories(Filter(txs, TypeIs(viewType)))|
  {
    var relevant := Filter(txs, TypeIs(viewType));
    RowsOrder(relevant);
    assert |Breakdown(txs, viewType)| == |Rows(relevant)|;
    DedupCardinality(Categories(relevant));
  }

  // ----- conservation laws -----

  /** The sum of the per-category sums over the keys `keys`. */
  function SumOverKeys(keys: seq<string>, s: seq<Transaction>): real
    decreases |keys|
  {
    if keys == [] then 0.0 else SumIn(s, keys[0]) + SumOverKeys(keys[1..], s)
  }

  /** The sum of the per-category counts over the keys `keys`. */
  function CountOverKeys(keys: seq<string>, s: seq<Transaction>): int
    decreases |keys|
  {
    if keys == [] then 0 else CountIn(s, keys[0]) + CountOverKeys(keys[1..], s)
  }

  /** Splitting off the first transaction adds its amount to exactly the key
      of its category. */
  lemma {:induction false} SumOverKeysCons(keys: seq<string>, t: Transaction, s: seq<Transaction>)
    requires NoDup(keys)
    ensures SumOverKeys(keys, [t] + s) == SumOverKeys(keys, s) + (if t.category in keys then t.amount else 0.0)
    ensures CountOverKeys(keys, [t] + s) == CountOverKeys(keys, s) + (if t.category in keys then 1 else 0)
    decreases |keys|
  {
    if keys != [] {
      var k := keys[0];
      assert NoDup(keys[1..]) by {
        forall i, j | 0 <= i < j < |keys[1..]| ensures keys[1..][i] != keys[1..][j] {
          assert keys[1..][i] == keys[i + 1] && keys[1..][j] == keys[j + 1];
        }
      }
      SumOverKeysCons(keys[1..], t, s);
      FilterCons(t, s, CategoryIs(k));
      var f := Filter(s, CategoryIs(k));
      if t.category == k {
        assert ([t] + f)[0] == t && ([t] + f)[1..] == f;
        assert k !in keys[1..];
      } else {
        assert [] + f == f;
      }
      assert t.category in keys <==> t.category == k || t.category in keys[1..];
    }
  }

  lemma {:induction false} ZeroOverKeys(keys: seq<string>)
    ensures SumOverKeys(keys, []) == 0.0 && CountOverKeys(keys, []) == 0
    decreases |keys|
  {
    if keys != [] {
      ZeroOverKeys(keys[1..]);
    }
  }

  /** Grouping conserves totals: over any duplicate-free list of keys that
      holds every category, the group sums add up to the sum of all amounts
      and the group counts to the number of transactions. */
  lemma {:induction false} SumOverKeysTotal(keys: seq<string>, s: seq<Transaction>)
    requires NoDup(keys)
    requires forall i :: 0 <= i < |s| ==> s[i].category in keys
    ensures SumOverKeys(keys, s) == SumBy(s, Amount)
    ensures CountOverKeys(keys, s) == |s|
    decreases |s|
  {
    if s == [] {
      ZeroOverKeys(keys);
    } else {
      assert s == [s[0]] + s[1..];
      SumOverKeysTotal(keys, s[1..]);
      SumOverKeysCons(keys, s[0], s[1..]);
    }
  }

  /** The slices of accurately tallied keys carry the group sums. */
  lemma {:induction false} SlicesCarryGroupSums(keys: seq<string>, acc: map<string, Tally>, s: seq<Transaction>)
    requires forall k :: k in keys ==> k in acc && acc[k] == Tally(SumIn(s, k), CountIn(s, k))
    ensures SumBy(ToSlices(keys, acc), Value) == SumOverKeys(keys, s)
    ensures SumBy(ToSlices(keys, acc), CountOf) == CountOverKeys(keys, s) as real
    decreases |keys|
  {
    if keys != [] {
      SlicesCarryGroupSums(keys[1..], acc, s);
      assert ToSlices(keys, acc)[1..] == ToSlices(keys[1..], acc);
    }
  }

  /** The rows' values add up to the sum of all amounts, their counts to
      the number of transactions. */
  lemma RowsConserve(s: seq<Transaction>)
    ensures SumBy(Rows(s), Value) == SumBy(s, Amount)
    ensures SumBy(Rows(s), CountOf) == |s| as real
  {
    GroupAllSpec(s);
    var g := GroupAll(s);
    var keys := EntriesOrder(g.keys);
    NoDupPermutation(g.keys, keys);
    forall i | 0 <= i < |s| ensures s[i].category in keys {
      assert Categories(s)[i] == s[i].category;
    }
    SumOverKeysTotal(keys, s);
    SlicesCarryGroupSums(keys, g.acc, s);
  }

  /** `totalAmount` (lines 43-45): zero for no rows, and not negative when
      no row is. */
  function TotalAmount(data: seq<Slice>): (total: real)
    ensures data == [] ==> total == 0.0
    ensures (forall k :: 0 <= k < |data| ==> data[k].value >= 0.0) ==> total >= 0.0
  {
    assert (forall k :: 0 <= k < |data| ==> data[k].value >= 0.0) ==> SumBy(data, Value) >= 0.0 by {
      if forall k :: 0 <= k < |data| ==> data[k].value >= 0.0 {
        SlicesNonNegative(data);
      }
    }
    SumBy(data, Value)
  }

  /** The chart total equals the sum of the amounts of the transactions of
      `viewType`, and the item counts add up to their number. */
  lemma BreakdownConserves(txs: seq<Transaction>, viewType: TransactionType)
    ensures TotalAmount(Breakdown(txs, viewType)) == SumBy(Filter(txs, TypeIs(viewType)), Amount)
    ensures SumBy(Breakdown(txs, viewType), CountOf) == |Filter(txs, TypeIs(viewType))| as real
  {
    var rows := Rows(Filter(txs, TypeIs(viewType)));
    RowsConserve(Filter(txs, TypeIs(viewType)));
    SumByPermutation(rows, SortBy(rows, NegValue), Value);
    SumByPermutation(rows, SortBy(rows, NegValue), CountOf);
  }

  function ValueIs(v: real): Slice -> bool
  {
    (sl: Slice) => sl.value == v
  }

  /** The sort is stable: rows of equal value keep their `Object.entries` order. */
  lemma BreakdownTiesKeepEntriesOrder(txs: seq<Transaction>, viewType: TransactionType, v: real)
    ensures Filter(Breakdown(txs, viewType), ValueIs(v)) == Filter(Rows(Filter(txs, TypeIs(viewType))), ValueIs(v))
  {
    var rows := Rows(Filter(txs, TypeIs(viewType)));
    assert Breakdown(txs, viewType) == SortBy(rows, NegValue);
    SortByStable(rows, NegValue, ValueIs(v), -v);
  }

  /** No transactions of the type, no rows. */
  lemma BreakdownEmpty(txs: seq<Transaction>, viewType: TransactionType)
    requires forall i :: 0 <= i < |txs| ==> txs[i].txType != viewType
    ensures Breakdown(txs, viewType) == []
  {
    FilterDropsAll(txs, TypeIs(viewType));
  }

  lemma SingleGroup(t: Transaction)
    ensures GroupAll([t]) == Groups([t.category], map[t.category := Tally(t.amount, 1)])
  {
    var s := [t];
    assert s[..|s| - 1] == [] && s[|s| - 1] == t;
    assert GroupAll([]) == Groups([], map[]);
    assert GroupAll(s) == AddTo(Groups([], map[]), t);
    assert [] + [t.category] == [t.category];
    assert map[t.category := Tally(0.0, 0)][t.category := Tally(0.0 + t.amount, 0 + 1)]
        == map[t.category := Tally(t.amount, 1)];
  }

  /** One transaction groups into one row. */
  lemma SingleRows(t: Transaction)
    ensures Rows([t]) == [Slice(t.category, t.amount, 1)]
  {
    SingleGroup(t);
    var g := GroupAll([t]);
    assert EntriesOrder([t.category]) == [t.category] by {
      assert [t.category][1..] == [];
    }
    assert ToSlices([t.category], g.acc) == [Slice(t.category, t.amount, 1)];
  }

  /** A single transaction of the shown type makes a one-row chart. */
  lemma SingleRow(t: Transaction)
    ensures Breakdown([t], t.txType) == [Slice(t.category, t.amount, 1)]
  {
    FilterKeepsAll([t], TypeIs(t.txType));
    SingleRows(t);
    var row := Slice(t.category, t.amount, 1);
    assert SortBy([row], NegValue) == [row] by {
      assert [row][1..] == [];
    }
  }

  lemma ExampleGroups(a: Transaction, b: Transaction, c: Transaction)
    requires a.category == "Food" && a.amount == 10.0
    requires b.category == "Food" && b.amount == 5.0
    requires c.category == "Transport" && c.amount == 20.0
    ensures GroupAll([a, b, c])
         == Groups(["Food", "Transport"], map["Food" := Tally(15.0, 2), "Transport" := Tally(20.0, 1)])
  {
    assert [a, b, c][..2] == [a, b] && [a, b][..1] == [a] && [a][..0] == [];
    var g1 := Groups(["Food"], map["Food" := Tally(10.0, 1)]);
    assert GroupAll([a]) == g1 by {
      assert GroupAll([a]) == AddTo(Groups([], map[]), a);
      assert [] + ["Food"] == ["Food"];
    }
    var g2 := Groups(["Food"], map["Food" := Tally(15.0, 2)]);
    assert GroupAll([a, b]) == g2 by {
      assert GroupAll([a, b]) == AddTo(g1, b);
    }
    assert GroupAll([a, b, c]) == AddTo(g2, c);
  }

  lemma ExampleEntriesOrder()
    ensures EntriesOrder(["Food", "Transport"]) == ["Food", "Transport"]
  {
    assert !IsDigit("Food"[0]) && !IsDigit("Transport"[0]);
    assert EntryRank("Food") == EntryRank("Transport");
    assert ["Food", "Transport"][1..] == ["Transport"] && ["Transport"][1..] == [];
  }

  lemma ExampleRows(a: Transaction, b: Transaction, c: Transaction)
    requires a.category == "Food" && a.amount == 10.0
    requires b.category == "Food" && b.amount == 5.0
    requires c.category == "Transport" && c.amount == 20.0
    ensures Rows([a, b, c]) == [Slice("Food", 15.0, 2), Slice("Transport", 20.0, 1)]
  {
    ExampleGroups(a, b, c);
    ExampleEntriesOrder();
    ExampleSlices();
  }

  lemma ExampleSlices()
    ensures ToSlices(["Food", "Transport"], map["Food" := Tally(15.0, 2), "Transport" := Tally(20.0, 1)])
         == [Slice("Food", 15.0, 2), Slice("Transport", 20.0, 1)]
  {
  }

  lemma ExampleSort()
    ensures SortBy([Slice("Food", 15.0, 2), Slice("Transport", 20.0, 1)], NegValue)
         == [Slice("Transport", 20.0, 1), Slice("Food", 15.0, 2)]
  {
    var rows := [Slice("Food", 15.0, 2), Slice("Transport", 20.0, 1)];
    assert rows[1..] == [rows[1]] && [rows[1]][1..] == [];
  }

  /** Expenses Food 10, Food 5 and Transport 20 chart as Transport 20 (one
      item), then Food 15 (two items). */
  lemma BreakdownExample(m: YearMonth)
    ensures Breakdown([Transaction("1", 10.0, Expense, "Food", "", m),
                       Transaction("2", 5.0, Expense, "Food", "", m),
                       Transaction("3", 20.0, Expense, "Transport", "", m)], Expense)
         == [Slice("Transport", 20.0, 1), Slice("Food", 15.0, 2)]
  {
    var a := Transaction("1", 10.0, Expense, "Food", "", m);
    var b := Transaction("2", 5.0, Expense, "Food", "", m);
    var c := Transaction("3", 20.0, Expense, "Transport", "", m);
    FilterKeepsAll([a, b, c], TypeIs(Expense));
    ExampleRows(a, b, c);
    ExampleSort();
  }

  // ----- percentages and colours (lines 170-171) -----

  /** `item.value / totalAmount * 100`, with the JavaScript outcome of a zero
      total: `NaN` or an infinity, which `toFixed` shows as text. */
  datatype Percent = Finite(x: real) | NotFinite

  function PercentageAsWritten(value: real, total: real): (p: Percent)
    ensures p.NotFinite? <==> total == 0.0
    ensures total != 0.0 ==> p.x * total == value * 100.0
  {
    if total == 0.0 then NotFinite else Finite(value / total * 100.0)
  }

  /** A single expense of amount 0 gives a one-row chart whose total is 0,
      so its row shows a percentage that is not a number. */
  lemma PercentageOfZeroTotal(m: YearMonth)
    ensures var data := Breakdown([Transaction("1", 0.0, Expense, "Food", "", m)], Expense);
            |data| == 1 && PercentageAsWritten(data[0].value, TotalAmount(data)).NotFinite?
  {
    var t := Transaction("1", 0.0, Expense, "Food", "", m);
    var data := Breakdown([t], Expense);
    SingleRow(t);
    assert data == [Slice("Food", 0.0, 1)];
    OneRowTotal(Slice("Food", 0.0, 1));
    assert TotalAmount(data) == 0.0;
  }

  lemma OneRowTotal(row: Slice)
    ensures TotalAmount([row]) == row.value
  {
    assert [row][1..] == [];
    assert SumBy([row], Value) == Value(row) + SumBy([], Value);
  }

  /** The percentage with a guard for a zero total, which then shows 0. */
  function Percentage(value: real, total: real): (p: real)
    ensures total == 0.0 ==> p == 0.0
    ensures total != 0.0 ==> p * total == value * 100.0
  {
    if total == 0.0 then 0.0 else value / total * 100.0
  }

  /** Sum of the rows' percentages of `total`. */
  function SumPercentages(data: seq<Slice>, total: real): real
    decreases |data|
  {
    if data == [] then 0.0 else Percentage(data[0].value, total) + SumPercentages(data[1..], total)
  }

  lemma {:induction false} SumPercentagesScaled(data: seq<Slice>, total: real)
    requires total != 0.0
    ensures SumPercentages(data, total) * total == SumBy(data, Value) * 100.0
    decreases |data|
  {
    if data != [] {
      SumPercentagesScaled(data[1..], total);
      var p := Percentage(data[0].value, total);
      var rest := SumPercentages(data[1..], total);
      assert (p + rest) * total == p * total + rest * total;
    }
  }

  /** The rows' percentages add up to 100 whenever the total is not zero. */
  lemma PercentagesSumTo100(data: seq<Slice>)
    requires TotalAmount(data) != 0.0
    ensures SumPercentages(data, TotalAmount(data)) == 100.0
  {
    var total := TotalAmount(data);
    SumPercentagesScaled(data, total);
    assert SumPercentages(data, total) * total == 100.0 * total;
  }

  /** A share of a total it is part of lies in [0, 100]. */
  lemma PercentageBounds(value: real, total: real)
    requires 0.0 <= value <= total
    ensures 0.0 <= Percentage(value, total) <= 100.0
  {
    if total != 0.0 {
      assert value / total <= 1.0;
    }
  }

  /** With amounts that are not negative, every row's value is not negative. */
  lemma RowsNonNegative(txs: seq<Transaction>, viewType: TransactionType)
    requires forall k :: 0 <= k < |txs| ==> txs[k].amount >= 0.0
    ensures forall i :: 0 <= i < |Breakdown(txs, viewType)| ==> Breakdown(txs, viewType)[i].value >= 0.0
  {
    var data := Breakdown(txs, viewType);
    var relevant := Filter(txs, TypeIs(viewType));
    BreakdownRows(txs, viewType);
    forall i | 0 <= i < |data| ensures data[i].value >= 0.0 {
      var f := Filter(relevant, CategoryIs(data[i].name));
      forall j | 0 <= j < |f| ensures f[j].amount >= 0.0 {
        assert f[j] in relevant;
      }
      SumNonNegative(f);
    }
  }

  /** With amounts that are not negative, each row's share lies in [0, 100]. */
  lemma PercentageInRange(txs: seq<Transaction>, viewType: TransactionType, i: int)
    requires forall k :: 0 <= k < |txs| ==> txs[k].amount >= 0.0
    requires 0 <= i < |Breakdown(txs, viewType)|
    ensures var data := Breakdown(txs, viewType);
            0.0 <= Percentage(data[i].value, TotalAmount(data)) <= 100.0
  {
    var data := Breakdown(txs, viewType);
    RowsNonNegative(txs, viewType);
    TermAtMostSum(data, i);
    PercentageBounds(data[i].value, TotalAmount(data));
  }

  lemma {:induction false} SumNonNegative(s: seq<Transaction>)
    requires forall j :: 0 <= j < |s| ==> s[j].amount >= 0.0
    ensures SumBy(s, Amount) >= 0.0
    decreases |s|
  {
    if s != [] {
      SumNonNegative(s[1..]);
    }
  }

  lemma {:induction false} SlicesNonNegative(data: seq<Slice>)
    requires forall k :: 0 <= k < |data| ==> data[k].value >= 0.0
    ensures SumBy(data, Value) >= 0.0
    decreases |data|
  {
    if data != [] {
      SlicesNonNegative(data[1..]);
    }
  }

  lemma {:induction false} TermAtMostSum(data: seq<Slice>, i: int)
    requires forall k :: 0 <= k < |data| ==> data[k].value >= 0.0
    requires 0 <= i < |data|
    ensures 0.0 <= data[i].value <= SumBy(data, Value)
    decreases |data|
  {
    if i == 0 {
      SlicesNonNegative(data[1..]);
    } else {
      TermAtMostSum(data[1..], i - 1);
    }
  }

  const ExpenseColors: seq<string> := ["#f43f5e", "#ec4899", "#d946ef", "#a855f7", "#8b5cf6", "#6366f1", "#3b82f6"]
  const IncomeColors: seq<string> := ["#06b6d4", "#10b981", "#3b82f6", "#0ea5e9", "#6366f1"]

  /** `EXPENSE_COLORS` or `INCOME_COLORS`: seven colours or five. */
  function Palette(viewType: TransactionType): (colors: seq<string>)
    ensures |colors| == if viewType == Expense then 7 else 5
  {
    if viewType == Expense then ExpenseColors else IncomeColors
  }

  /** `currentColors[index % currentColors.length]`: always a palette colour. */
  function ColorAt(viewType: TransactionType, index: nat): (color: string)
    ensures color in Palette(viewType)
  {
    var palette := Palette(viewType);
    palette[index % |palette|]
  }

  /** The colours repeat with the palette's length: seven for expenses,
      five for income. */
  lemma ColorAtPeriodic(viewType: TransactionType, index: nat)
    ensures ColorAt(viewType, index + |Palette(viewType)|) == ColorAt(viewType, index)
  {
    var n := |Palette(viewType)|;
    assert (index + n) % n == index % n;
  }

  // ----- the grouping as written -----

  /** The keys that every object literal inherits from `Object.prototype`.
      None of them is a predefined category, so only custom names are hit. */
  predicate Inherited(c: string)
    ensures Inherited(c) ==> forall t: TransactionType, i :: 0 <= i < |Constants.CategoriesFor(t)| ==>
              Constants.CategoriesFor(t)[i].id != c
  {
    c in {"constructor", "__defineGetter__", "__defineSetter__", "hasOwnProperty",
          "__lookupGetter__", "__lookupSetter__", "isPrototypeOf", "propertyIsEnumerable",
          "toString", "valueOf", "__proto__", "toLocaleString"}
  }

  /** The reducer as written: `!acc[t.category]` is false for an inherited
      key, so no own entry is created and the additions land on the
      inherited value, which `Object.entries` does not list. */
  function AddToAsWritten(g: Groups, t: Transaction): (r: Groups)
    ensures r == AddTo(g, t) <==> t.category in g.acc || !Inherited(t.category)
  {
    if t.category !in g.acc && Inherited(t.category) then g else AddTo(g, t)
  }

  /** The reduce as written: every listed key has an entry. */
  function GroupAllAsWritten(s: seq<Transaction>): (g: Groups)
    ensures forall k :: k in g.keys ==> k in g.acc
    decreases |s|
  {
    if s == [] then Groups([], map[]) else AddToAsWritten(GroupAllAsWritten(s[..|s| - 1]), s[|s| - 1])
  }

  /** Without inherited names the reduce as written agrees with the
      corrected one. */
  lemma {:induction false} AsWrittenAgreesWithoutInherited(s: seq<Transaction>)
    requires forall i :: 0 <= i < |s| ==> !Inherited(s[i].category)
    ensures GroupAllAsWritten(s) == GroupAll(s)
    decreases |s|
  {
    if s != [] {
      AsWrittenAgreesWithoutInherited(s[..|s| - 1]);
    }
  }

  /** `chartData` as written: it equals the corrected breakdown whenever no
      category is an inherited name. */
  function BreakdownAsWritten(txs: seq<Transaction>, viewType: TransactionType): (data: seq<Slice>)
    ensures (forall i :: 0 <= i < |txs| ==> !Inherited(txs[i].category)) ==> data == Breakdown(txs, viewType)
  {
    var relevant := Filter(txs, TypeIs(viewType));
    var g := GroupAllAsWritten(relevant);
    assert (forall i :: 0 <= i < |txs| ==> !Inherited(txs[i].category)) ==> g == GroupAll(relevant) by {
      if forall i :: 0 <= i < |txs| ==> !Inherited(txs[i].category) {
        forall i | 0 <= i < |relevant| ensures !Inherited(relevant[i].category) {
          var k :| 0 <= k < |txs| && txs[k] == relevant[i];
        }
        AsWrittenAgreesWithoutInherited(relevant);
      }
    }
    SortBy(ToSlices(EntriesOrder(g.keys), g.acc), NegValue)
  }

  /** An expense in a custom category named "constructor" disappears from
      the chart as written, while the corrected grouping lists it. */
  lemma InheritedCategoryDropped(m: YearMonth)
    ensures var txs := [Transaction("1", 10.0, Expense, "constructor", "", m)];
            BreakdownAsWritten(txs, Expense) == []
            && Breakdown(txs, Expense) == [Slice("constructor", 10.0, 1)]
  {
    var t := Transaction("1", 10.0, Expense, "constructor", "", m);
    FilterKeepsAll([t], TypeIs(Expense));
    assert [t][..0] == [];
    assert Inherited("constructor");
    assert GroupAllAsWritten([t]) == Groups([], map[]);
    SingleRow(t);
  }
}
