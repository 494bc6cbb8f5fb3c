/** The add-transaction form (components/TransactionModal.tsx): its fields,
    the handlers that change them, the custom-category entry, the label
    under the category grid, and the submission into the ledger. */
module TransactionModal {
  import opened Types
  import opened Strings
  import Constants
  import FinanceContext
  import Dashboard

  /** The first entry of the type's list: what opening the form or
      switching type selects. */
  function DefaultCategory(t: TransactionType): (id: string)
    ensures id == Constants.CategoriesFor(t)[0].id
    ensures id == if t == Income then "Salary" else "Food"
  {
    Constants.CategoriesFor(t)[0].id
  }

  /** The id names one of the type's predefined categories. */
  predicate Listed(t: TransactionType, id: string)
  {
    exists i :: 0 <= i < |Constants.CategoriesFor(t)| && Constants.CategoriesFor(t)[i].id == id
  }

  /** `currentCategories.find(c => c.id === id)`: the first entry with the id. */
  function FindCategory(items: seq<Constants.CategoryItem>, id: string): (r: Option<Constants.CategoryItem>)
    ensures r.None? <==> forall i :: 0 <= i < |items| ==> items[i].id != id
    ensures r.Some? ==> exists i :: 0 <= i < |items| && items[i] == r.value && r.value.id == id
    decreases |items|
  {
    if items == [] then None
    else if items[0].id == id then Some(items[0])
    else
      var r := FindCategory(items[1..], id);
      assert r.Some? ==> exists i :: 0 < i < |items| && items[i] == r.value && r.value.id == id by {
        if r.Some? {
          var i :| 0 <= i < |items[1..]| && items[1..][i] == r.value && r.value.id == id;
          assert items[i + 1] == r.value;
        }
      }
      r
  }

  /** The label under the grid: for the id 'Custom' the typed name (or
      'Custom'); otherwise the matching entry's label, falling back to the
      id itself. */
  function SelectedLabel(selected: string, customName: string, t: TransactionType): (shown: string)
    ensures selected == "Custom" ==> shown == (if customName != "" then customName else "Custom")
    ensures selected != "Custom" && !Listed(t, selected) ==> shown == selected
  {
    if selected == "Custom" then (if customName != "" then customName else "Custom")
    else
      match FindCategory(Constants.CategoriesFor(t), selected)
      case Some(c) => if c.labelText != "" then c.labelText else selected
      case None => selected
  }

  /** Within each list the ids are distinct, none is 'Custom', and every
      label is non-empty. */
  lemma CategoryListsWellFormed(t: TransactionType)
    ensures forall i, j :: 0 <= i < j < |Constants.CategoriesFor(t)| ==>
              Constants.CategoriesFor(t)[i].id != Constants.CategoriesFor(t)[j].id
    ensures forall i :: 0 <= i < |Constants.CategoriesFor(t)| ==>
              Constants.CategoriesFor(t)[i].id != "Custom" && Constants.CategoriesFor(t)[i].labelText != ""
  {
  }

  /** A predefined category shows its own label. */
  lemma LabelOfListed(t: TransactionType, i: nat, customName: string)
    requires i < |Constants.CategoriesFor(t)|
    ensures SelectedLabel(Constants.CategoriesFor(t)[i].id, customName, t) == Constants.CategoriesFor(t)[i].labelText
  {
    var items := Constants.CategoriesFor(t);
    CategoryListsWellFormed(t);
    var r := FindCategory(items, items[i].id);
    var k :| 0 <= k < |items| && items[k] == r.value && r.value.id == items[i].id;
    if k != i {
      assert false;
    }
  }

  /** The defaults read "Food & Dining" and "Salary". */
  lemma DefaultLabels(customName: string)
    ensures SelectedLabel(DefaultCategory(Expense), customName, Expense) == "Food & Dining"
    ensures SelectedLabel(DefaultCategory(Income), customName, Income) == "Salary"
  {
    LabelOfListed(Expense, 0, customName);
    LabelOfListed(Income, 0, customName);
  }

  /** A category shows up as a dashboard chip for its type as soon as a
      record with it is added. */
  lemma SubmittedCategoryOffered(d: Draft, id: string, txs: seq<Transaction>)
    ensures d.category in Dashboard.AvailableCategories([FinanceContext.WithId(d, id)] + txs, Dashboard.OnlyType(d.txType))
  {
    Dashboard.RecordHasChip([FinanceContext.WithId(d, id)] + txs, Dashboard.OnlyType(d.txType), 0);
  }

  /** The form's fields. `date` holds the month of the date input; the
      string conversions around it are not modelled. */
  class TransactionForm {
    var amount: string
    var txType: TransactionType
    var selectedCategory: string
    var isCustomMode: bool
    var customCategoryName: string
    var date: YearMonth
    var note: string

    /** Once the form has been opened a category is always selected. */
    predicate Ready()
      reads this
    {
      selectedCategory != ""
    }

    /** Mount, before the opening effect runs. */
    constructor (initialType: TransactionType, today: YearMonth)
      ensures amount == "" && txType == initialType && selectedCategory == ""
      ensures !isCustomMode && customCategoryName == "" && date == today && note == ""
    {
      amount := "";
      txType := initialType;
      selectedCategory := "";
      isCustomMode := false;
      customCategoryName := "";
      date := today;
      note := "";
    }

    /** The opening effect: the requested type with its default category,
        and every other field cleared. */
    method Open(initialType: TransactionType, today: YearMonth)
      modifies this
      ensures txType == initialType && selectedCategory == DefaultCategory(initialType)
      ensures !isCustomMode && customCategoryName == "" && amount == "" && note == "" && date == today
      ensures Ready()
    {
      txType := initialType;
      selectedCategory := DefaultCategory(initialType);
      isCustomMode := false;
      customCategoryName := "";
      amount := "";
      note := "";
      date := today;
    }

    /** `handleTypeChange`: the new type's default category, back to the grid. */
    method ChangeType(newType: TransactionType)
      modifies this
      ensures txType == newType && selectedCategory == DefaultCategory(newType) && !isCustomMode
      ensures amount == old(amount) && note == old(note) && date == old(date)
      ensures customCategoryName == old(customCategoryName)
      ensures Ready()
    {
      txType := newType;
      selectedCategory := DefaultCategory(newType);
      isCustomMode := false;
    }

    /** A tile of the grid; only the current type's entries are shown. */
    method PickCategory(id: string)
      requires Listed(txType, id)
      modifies this
      ensures selectedCategory == id && txType == old(txType) && isCustomMode == old(isCustomMode)
      ensures amount == old(amount) && note == old(note) && date == old(date)
      ensures customCategoryName == old(customCategoryName)
      ensures Ready()
    {
      CategoryListsWellFormed(txType);
      selectedCategory := id;
    }

    /** The '+' tile: switches to typing a custom name. */
    method StartCustom()
      modifies this
      ensures isCustomMode && selectedCategory == old(selectedCategory) && customCategoryName == old(customCategoryName)
      ensures txType == old(txType) && amount == old(amount) && note == old(note) && date == old(date)
    {
      isCustomMode := true;
    }

    /** "Back to Grid": leaves custom mode without selecting anything. */
    method BackToGrid()
      modifies this
      ensures !isCustomMode && selectedCategory == old(selectedCategory) && customCategoryName == old(customCategoryName)
      ensures txType == old(txType) && amount == old(amount) && note == old(note) && date == old(date)
    {
      isCustomMode := false;
    }

    method EditCustomName(s: string)
      modifies this
      ensures customCategoryName == s && selectedCategory == old(selectedCategory) && isCustomMode == old(isCustomMode)
      ensures txType == old(txType) && amount == old(amount) && note == old(note) && date == old(date)
    {
      customCategoryName := s;
    }

    method EditAmount(s: string)
      modifies this
      ensures amount == s && selectedCategory == old(selectedCategory) && isCustomMode == old(isCustomMode)
      ensures txType == old(txType) && customCategoryName == old(customCategoryName) && note == old(note) && date == old(date)
    {
      amount := s;
    }

    method EditNote(s: string)
      modifies this
      ensures note == s && selectedCategory == old(selectedCategory) && isCustomMode == old(isCustomMode)
      ensures txType == old(txType) && customCategoryName == old(customCategoryName) && amount == old(amount) && date == old(date)
    {
      note := s;
    }

    method EditDate(d: YearMonth)
      modifies this
      ensures date == d && selectedCategory == old(selectedCategory) && isCustomMode == old(isCustomMode)
      ensures txType == old(txType) && customCategoryName == old(customCategoryName) && amount == old(amount) && note == old(note)
    {
      date := d;
    }

    /** `handleConfirmCustom`: a name that is not all whitespace is
        selected, trimmed, and the grid comes back; otherwise nothing
        changes. */
    method ConfirmCustom()
      modifies this
      ensures Trim(old(customCategoryName)) != "" ==>
                selectedCategory == Trim(old(customCategoryName)) && !isCustomMode
      ensures Trim(old(customCategoryName)) == "" ==>
                selectedCategory == old(selectedCategory) && isCustomMode == old(isCustomMode)
      ensures customCategoryName == old(customCategoryName) && txType == old(txType)
      ensures amount == old(amount) && note == old(note) && date == old(date)
      ensures old(Ready()) ==> Ready()
    {
      var trimmed := Trim(customCategoryName);
      if trimmed != "" {
        selectedCategory := trimmed;
        isCustomMode := false;
      }
    }

    /** `handleSubmit`: an empty amount field adds nothing; otherwise the
        record with the form's type, category, note and month goes to the
        front of the ledger. `parsedAmount` stands for `parseFloat(amount)`
        and `id` for the generated id. */
    method Submit(store: FinanceContext.FinanceStore, parsedAmount: real, id: string) returns (added: bool)
      modifies store
      ensures added <==> amount != ""
      ensures added ==> (store.transactions ==
                [Transaction(id, parsedAmount, txType, selectedCategory, note, date)] + old(store.transactions))
      ensures !added ==> store.transactions == old(store.transactions)
      ensures store.profile == old(store.profile)
    {
      if amount == "" {
        return false;
      }
      store.AddTransaction(Draft(parsedAmount, txType, selectedCategory, note, date), id);
      added := true;
    }
  }
}
