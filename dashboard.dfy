/** The home screen (components/Dashboard.tsx): the currency lookups, the
    transaction filter, the five-record preview, the category chips, and
    the state of the filter panel. */
module Dashboard {
  import opened Types
  import opened Seqs
  import opened Strings
  import Constants
  import FinanceContext
  import Analytics

  // ----- currency lookups -----

  /** `CURRENCIES.find(c => c.code === code)`: the first entry with the code. */
  function FindCurrency(table: seq<Constants.CurrencyItem>, code: CurrencyCode): (r: Option<Constants.CurrencyItem>)
    ensures r.None? <==> forall i :: 0 <= i < |table| ==> table[i].code != code
    ensures r.Some? ==> exists i :: 0 <= i < |table| && table[i] == r.value && r.value.code == code
                                    && forall j :: 0 <= j < i ==> table[j].code != code
    decreases |table|
  {
    if table == [] then None
    else if table[0].code == code then Some(table[0])
    else
      var r := FindCurrency(table[1..], code);
      assert r.Some? ==> exists i :: 0 < i < |table| && table[i] == r.value && r.value.code == code
                                     && forall j :: 0 <= j < i ==> table[j].code != code by {
        if r.Some? {
          var i :| 0 <= i < |table[1..]| && table[1..][i] == r.value && r.value.code == code
                   && forall j :: 0 <= j < i ==> table[1..][j].code != code;
          assert table[i + 1] == r.value;
          forall j | 0 <= j < i + 1 ensures table[j].code != code {
            if j > 0 {
              assert table[j] == table[1..][j - 1];
            }
          }
        }
      }
      r
  }

  /** `find(...)?.symbol || '$'`: the entry's symbol, or '$' when there is
      no entry or its symbol is empty. */
  function CurrencySymbol(table: seq<Constants.CurrencyItem>, code: CurrencyCode): (s: string)
    ensures s != ""
    ensures (forall i :: 0 <= i < |table| ==> table[i].code != code) ==> s == "$"
  {
    match FindCurrency(table, code)
    case Some(c) => if c.symbol != "" then c.symbol else "$"
    case None => "$"
  }

  /** `find(...)?.locale || 'en-US'`. */
  function CurrencyLocale(table: seq<Constants.CurrencyItem>, code: CurrencyCode): (s: string)
    ensures s != ""
    ensures (forall i :: 0 <= i < |table| ==> table[i].code != code) ==> s == "en-US"
  {
    match FindCurrency(table, code)
    case Some(c) => if c.locale != "" then c.locale else "en-US"
    case None => "en-US"
  }

  /** In a table whose codes are distinct, the lookup finds the one entry
      with the code. */
  lemma FindDistinct(table: seq<Constants.CurrencyItem>, code: CurrencyCode, k: nat)
    requires forall i, j :: 0 <= i < j < |table| ==> table[i].code != table[j].code
    requires k < |table| && table[k].code == code
    ensures FindCurrency(table, code) == Some(table[k])
  {
    var r := FindCurrency(table, code);
    var i :| 0 <= i < |table| && table[i] == r.value && r.value.code == code
             && forall j :: 0 <= j < i ==> table[j].code != code;
    if i < k {
      assert false;
    } else if k < i {
      assert false;
    }
  }

  /** In the shipped table every code finds its own entry, so neither
      fallback is ever used. */
  lemma FindsOwnEntry(code: CurrencyCode)
    ensures FindCurrency(Constants.Currencies, code) == Some(Constants.Currencies[Constants.TableIndex(code)])
    ensures CurrencySymbol(Constants.Currencies, code) == Constants.Currencies[Constants.TableIndex(code)].symbol
    ensures CurrencyLocale(Constants.Currencies, code) == Constants.Currencies[Constants.TableIndex(code)].locale
  {
    Constants.CurrencyTableDistinct();
    Constants.CurrencyEntriesNonEmpty();
    FindDistinct(Constants.Currencies, code, Constants.TableIndex(code));
  }

  /** A euro profile shows the euro sign and German number formatting. */
  lemma EuroSymbol()
    ensures CurrencySymbol(Constants.Currencies, EUR) == "\U{20AC}"
    ensures CurrencyLocale(Constants.Currencies, EUR) == "de-DE"
  {
    FindsOwnEntry(EUR);
  }

  // ----- the transaction filter -----

  /** The type segment: `'all'`, `'income'` or `'expense'`. */
  datatype TypeFilter = AllTypes | OnlyType(ty: TransactionType)

  /** The category chip value that means "no category filter". */
  const AllCategories: string := "all"

  predicate TypeMatches(ft: TypeFilter, t: Transaction)
  {
    ft.AllTypes? || t.txType == ft.ty
  }

  predicate CategoryMatches(fc: string, t: Transaction)
  {
    fc == AllCategories || t.category == fc
  }

  function Matches(ft: TypeFilter, fc: string): Transaction -> bool
  {
    (t: Transaction) => TypeMatches(ft, t) && CategoryMatches(fc, t)
  }

  /** `filteredTransactions`: records of the ledger that match both the
      type segment and the category chip. */
  function Filtered(txs: seq<Transaction>, ft: TypeFilter, fc: string): (r: seq<Transaction>)
    ensures |r| <= |txs|
    ensures forall i :: 0 <= i < |r| ==> r[i] in txs && TypeMatches(ft, r[i]) && CategoryMatches(fc, r[i])
  {
    Filter(txs, Matches(ft, fc))
  }

  /** With both filters on 'all' nothing is filtered out. */
  lemma FilteredAllIsIdentity(txs: seq<Transaction>)
    ensures Filtered(txs, AllTypes, AllCategories) == txs
  {
    FilterKeepsAll(txs, Matches(AllTypes, AllCategories));
  }

  /** The filtered list keeps the ledger's order, and every matching
      record is kept as often as it occurs. */
  lemma FilteredExact(txs: seq<Transaction>, ft: TypeFilter, fc: string)
    ensures IsSubsequence(Filtered(txs, ft, fc), txs)
    ensures forall t :: TypeMatches(ft, t) && CategoryMatches(fc, t) ==>
              multiset(Filtered(txs, ft, fc))[t] == multiset(txs)[t]
  {
    FilterSubsequence(txs, Matches(ft, fc));
    forall t | TypeMatches(ft, t) && CategoryMatches(fc, t)
      ensures multiset(Filtered(txs, ft, fc))[t] == multiset(txs)[t]
    {
      FilterCount(txs, Matches(ft, fc), t);
    }
  }

  // ----- what the list shows -----

  /** `displayTransactions`: the filtered list while the panel is open,
      otherwise `transactions.slice(0, 5)`. */
  function Displayed(txs: seq<Transaction>, showFilters: bool, ft: TypeFilter, fc: string): (shown: seq<Transaction>)
    ensures !showFilters ==> |shown| <= 5 && shown <= txs
    ensures !showFilters ==> |shown| == if |txs| < 5 then |txs| else 5
    ensures showFilters ==> shown == Filtered(txs, ft, fc)
  {
    if showFilters then Filtered(txs, ft, fc)
    else txs[..if |txs| < 5 then |txs| else 5]
  }

  /** "View all history" is offered while the panel is closed and there are
      more than five records: exactly when the closed preview hides some. */
  predicate ShowViewAll(txs: seq<Transaction>, showFilters: bool)
    ensures ShowViewAll(txs, showFilters) <==> !showFilters && Displayed(txs, false, AllTypes, AllCategories) != txs
  {
    assert |txs| > 5 <==> Displayed(txs, false, AllTypes, AllCategories) != txs by {
      if |txs| <= 5 {
        assert Displayed(txs, false, AllTypes, AllCategories) == txs[..|txs|] == txs;
      }
    }
    !showFilters && |txs| > 5
  }

  // ----- category chips -----

  /** `relevantTx`: the records of the selected type. */
  function Relevant(txs: seq<Transaction>, ft: TypeFilter): (r: seq<Transaction>)
    ensures ft.AllTypes? ==> r == txs
    ensures forall i :: 0 <= i < |r| ==> r[i] in txs && TypeMatches(ft, r[i])
  {
    if ft.AllTypes? then txs else Filter(txs, FinanceContext.TypeIs(ft.ty))
  }

  /** `Array.from(new Set(relevantTx.map(t => t.category))).sort()`: in
      strictly increasing order, so no chip repeats. */
  function AvailableCategories(txs: seq<Transaction>, ft: TypeFilter): (chips: seq<string>)
    ensures Ascending(chips) && NoDup(chips)
  {
    SortStringsAscending(Analytics.Dedup(Analytics.Categories(Relevant(txs, ft))));
    AscendingNoDup(SortStrings(Analytics.Dedup(Analytics.Categories(Relevant(txs, ft)))));
    SortStrings(Analytics.Dedup(Analytics.Categories(Relevant(txs, ft))))
  }

  /** A record is relevant exactly when it is in the ledger and has the
      selected type. */
  lemma RelevantMembers(txs: seq<Transaction>, ft: TypeFilter, t: Transaction)
    ensures t in Relevant(txs, ft) <==> t in txs && TypeMatches(ft, t)
  {
    if !ft.AllTypes? {
      FilterCount(txs, FinanceContext.TypeIs(ft.ty), t);
      assert t in Relevant(txs, ft) <==> t in multiset(Relevant(txs, ft));
      assert t in txs <==> t in multiset(txs);
    }
  }

  /** A category is on the chips exactly when some relevant record has it. */
  lemma ChipsOfRelevant(txs: seq<Transaction>, ft: TypeFilter, c: string)
    ensures c in AvailableCategories(txs, ft) <==>
            exists k :: 0 <= k < |Relevant(txs, ft)| && Relevant(txs, ft)[k].category == c
  {
    var rel := Relevant(txs, ft);
    var cats := Analytics.Categories(rel);
    SortStringsMembers(Analytics.Dedup(cats), c);
    if c in cats {
      var k :| 0 <= k < |cats| && cats[k] == c;
      assert rel[k].category == c;
    }
    if exists k :: 0 <= k < |rel| && rel[k].category == c {
      var k :| 0 <= k < |rel| && rel[k].category == c;
      assert cats[k] == c;
    }
  }

  /** Every chip is the category of some record of the selected type. */
  lemma ChipHasRecord(txs: seq<Transaction>, ft: TypeFilter, c: string)
    requires c in AvailableCategories(txs, ft)
    ensures exists i :: 0 <= i < |txs| && txs[i].category == c && TypeMatches(ft, txs[i])
  {
    var rel := Relevant(txs, ft);
    ChipsOfRelevant(txs, ft, c);
    var k :| 0 <= k < |rel| && rel[k].category == c;
    RelevantMembers(txs, ft, rel[k]);
    var i :| 0 <= i < |txs| && txs[i] == rel[k];
    assert txs[i].category == c && TypeMatches(ft, txs[i]);
  }

  /** The category of every record of the selected type is a chip. */
  lemma RecordHasChip(txs: seq<Transaction>, ft: TypeFilter, i: nat)
    requires i < |txs| && TypeMatches(ft, txs[i])
    ensures txs[i].category in AvailableCategories(txs, ft)
  {
    var rel := Relevant(txs, ft);
    ChipsOfRelevant(txs, ft, txs[i].category);
    RelevantMembers(txs, ft, txs[i]);
    var k :| 0 <= k < |rel| && rel[k] == txs[i];
    assert rel[k].category == txs[i].category;
  }

  /** A category is on the chips exactly when some record of the selected
      type has it. */
  lemma AvailableCategoriesExact(txs: seq<Transaction>, ft: TypeFilter, c: string)
    ensures c in AvailableCategories(txs, ft) <==>
            exists i :: 0 <= i < |txs| && txs[i].category == c && TypeMatches(ft, txs[i])
  {
    if c in AvailableCategories(txs, ft) {
      ChipHasRecord(txs, ft, c);
    }
    if exists i :: 0 <= i < |txs| && txs[i].category == c && TypeMatches(ft, txs[i]) {
      var i :| 0 <= i < |txs| && txs[i].category == c && TypeMatches(ft, txs[i]);
      RecordHasChip(txs, ft, i);
    }
  }

  // ----- the filter panel -----

  /** A closed panel means no filter is in force: every way of closing it
      clears both filters, and the filters can only be set while it is open. */
  predicate Consistent(showFilters: bool, ft: TypeFilter, fc: string)
  {
    !showFilters ==> ft == AllTypes && fc == AllCategories
  }

  /** The Filter/Hide button is highlighted while the panel is open or a
      filter is set. */
  predicate Highlighted(showFilters: bool, ft: TypeFilter, fc: string)
    ensures Consistent(showFilters, ft, fc) ==> (Highlighted(showFilters, ft, fc) <==> showFilters)
  {
    showFilters || ft != AllTypes || fc != AllCategories
  }

  /** With the panel closed, the list is the plain five-record preview
      whatever the filters hold. */
  lemma ClosedPanelIgnoresFilters(txs: seq<Transaction>, ft: TypeFilter, fc: string)
    ensures Displayed(txs, false, ft, fc) == Displayed(txs, false, AllTypes, AllCategories)
  {
  }

  /** The dashboard's own state: `showFilters`, `filterType`, `filterCategory`. */
  class FilterPanel {
    var showFilters: bool
    var filterType: TypeFilter
    var filterCategory: string

    predicate Valid()
      reads this
    {
      Consistent(showFilters, filterType, filterCategory)
    }

    /** Mount: panel closed, both filters on 'all'. */
    constructor ()
      ensures Valid()
      ensures !showFilters && filterType == AllTypes && filterCategory == AllCategories
    {
      showFilters := false;
      filterType := AllTypes;
      filterCategory := AllCategories;
    }

    /** `clearFilters`. */
    method ClearFilters()
      modifies this
      ensures filterType == AllTypes && filterCategory == AllCategories
      ensures showFilters == old(showFilters)
      ensures Valid()
    {
      filterType := AllTypes;
      filterCategory := AllCategories;
    }

    /** The Filter/Hide button: flips the panel, and closing it clears both
        filters; opening it keeps them. */
    method Toggle()
      modifies this
      ensures showFilters == !old(showFilters)
      ensures old(showFilters) ==> filterType == AllTypes && filterCategory == AllCategories
      ensures !old(showFilters) ==> filterType == old(filterType) && filterCategory == old(filterCategory)
      ensures Valid()
    {
      var wasOpen := showFilters;
      showFilters := !showFilters;
      if wasOpen {
        ClearFilters();
      }
    }

    /** A type segment: sets the type and resets the category to 'all'.
        The segments are only rendered while the panel is open. */
    method SelectType(ft: TypeFilter)
      requires showFilters
      modifies this
      ensures filterType == ft && filterCategory == AllCategories && showFilters
      ensures Valid()
    {
      filterType := ft;
      filterCategory := AllCategories;
    }

    /** A category chip, including 'All'; rendered only while the panel is open. */
    method SelectCategory(c: string)
      requires showFilters
      modifies this
      ensures filterCategory == c && filterType == old(filterType) && showFilters
      ensures Valid()
    {
      filterCategory := c;
    }

    /** "View all history": opens the panel. */
    method ViewAll()
      modifies this
      ensures showFilters && filterType == old(filterType) && filterCategory == old(filterCategory)
      ensures Valid()
    {
      showFilters := true;
    }
  }
}
