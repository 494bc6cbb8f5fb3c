/** The app's fixed tables (constants.tsx): the default profile, the
    currency table and the two predefined category lists. */
module Constants {
  import opened Types

  datatype CurrencyItem = CurrencyItem(code: CurrencyCode, symbol: string, name: string, locale: string)

  datatype CategoryItem = CategoryItem(id: string, labelText: string)

  /** `INITIAL_PROFILE`: the profile before onboarding and after a reset. */
  const InitialProfile: UserProfile := UserProfile(
    name := "",
    currency := USD,
    initialBalance := 0.0,
    isOnboarded := false,
    theme := Light,
    avatar := Some(""),
    monthlyBudget := 0.0)

  /** `CURRENCIES`, in the order the currency picker lists them. */
  const Currencies: seq<CurrencyItem> := [
    CurrencyItem(USD, "$", "United States Dollar", "en-US"),
    CurrencyItem(EUR, "\U{20AC}", "Euro", "de-DE"),
    CurrencyItem(GBP, "\U{00A3}", "British Pound", "en-GB"),
    CurrencyItem(PKR, "Rs", "Pakistani Rupee", "ur-PK"),
    CurrencyItem(INR, "\U{20B9}", "Indian Rupee", "en-IN"),
    CurrencyItem(SAR, "\U{FDFC}", "Saudi Riyal", "ar-SA"),
    CurrencyItem(AED, "dh", "UAE Dirham", "ar-AE"),
    CurrencyItem(JPY, "\U{00A5}", "Japanese Yen", "ja-JP"),
    CurrencyItem(CNY, "\U{00A5}", "Chinese Yuan", "zh-CN"),
    CurrencyItem(CAD, "$", "Canadian Dollar", "en-CA"),
    CurrencyItem(AUD, "$", "Australian Dollar", "en-AU"),
    CurrencyItem(CHF, "Fr", "Swiss Franc", "de-CH"),
    CurrencyItem(TRY, "\U{20BA}", "Turkish Lira", "tr-TR"),
    CurrencyItem(RUB, "\U{20BD}", "Russian Ruble", "ru-RU"),
    CurrencyItem(KRW, "\U{20A9}", "South Korean Won", "ko-KR"),
    CurrencyItem(BRL, "R$", "Brazilian Real", "pt-BR"),
    CurrencyItem(ZAR, "R", "South African Rand", "en-ZA"),
    CurrencyItem(SGD, "$", "Singapore Dollar", "en-SG"),
    CurrencyItem(MXN, "$", "Mexican Peso", "es-MX"),
    CurrencyItem(NZD, "$", "New Zealand Dollar", "en-NZ")
  ]

  const ExpenseCategories: seq<CategoryItem> := [
    CategoryItem("Food", "Food & Dining"),
    CategoryItem("Transport", "Transport"),
    CategoryItem("Shopping", "Shopping"),
    CategoryItem("Entertainment", "Entertainment"),
    CategoryItem("Health", "Health"),
    CategoryItem("Bills", "Bills & Utilities"),
    CategoryItem("Education", "Education"),
    CategoryItem("Other", "Other")
  ]

  const IncomeCategories: seq<CategoryItem> := [
    CategoryItem("Salary", "Salary"),
    CategoryItem("Finance", "Investments"),
    CategoryItem("Freelancing", "Freelancing"),
    CategoryItem("Business", "Business"),
    CategoryItem("Gift", "Gift"),
    CategoryItem("Rental", "Rental"),
    CategoryItem("Sold Items", "Sold Items"),
    CategoryItem("Other", "Other")
  ]

  /** The predefined list shown for a transaction type. */
  function CategoriesFor(t: TransactionType): (cats: seq<CategoryItem>)
    ensures |cats| == 8
    ensures cats[0].id == (if t == Income then "Salary" else "Food")
  {
    if t == Income then IncomeCategories else ExpenseCategories
  }

  /** The position of a code in the currency table. */
  function TableIndex(c: CurrencyCode): (i: nat)
    ensures i < |Currencies| && Currencies[i].code == c
  {
    match c
    case USD => 0 case EUR => 1 case GBP => 2 case PKR => 3 case INR => 4
    case SAR => 5 case AED => 6 case JPY => 7 case CNY => 8 case CAD => 9
    case AUD => 10 case CHF => 11 case TRY => 12 case RUB => 13 case KRW => 14
    case BRL => 15 case ZAR => 16 case SGD => 17 case MXN => 18 case NZD => 19
  }

  /** The default profile: not onboarded, zero balance and budget, USD,
      light theme, empty name and avatar. */
  lemma InitialProfileDefaults()
    ensures !InitialProfile.isOnboarded
    ensures InitialProfile.initialBalance == 0.0 && InitialProfile.monthlyBudget == 0.0
    ensures InitialProfile.currency == USD && InitialProfile.theme == Light
    ensures InitialProfile.name == "" && InitialProfile.avatar == Some("")
  {
  }

  /** The codes of a currency table, in table order. */
  function Codes(table: seq<CurrencyItem>): (codes: seq<CurrencyCode>)
    ensures |codes| == |table| && forall i :: 0 <= i < |table| ==> codes[i] == table[i].code
    decreases |table|
  {
    if table == [] then [] else [table[0].code] + Codes(table[1..])
  }

  /** Every code has an entry in the currency table, and USD's comes first. */
  lemma CurrencyTableCoversCodes()
    ensures |Currencies| == 20 && Currencies[0].code == USD
    ensures forall c :: c in Codes(Currencies)
  {
    var codes := Codes(Currencies);
    forall c ensures c in codes {
      assert codes[TableIndex(c)] == c;
    }
  }

  /** No code has two entries: each entry sits at its code's table index. */
  lemma CurrencyTableDistinct()
    ensures forall i, j :: 0 <= i < j < |Currencies| ==> Currencies[i].code != Currencies[j].code
  {
    forall i | 0 <= i < |Currencies| ensures TableIndex(Currencies[i].code) == i {
      var c := Currencies[i];
      if i < 10 {
        if i < 5 {
          assert i == 0 || i == 1 || i == 2 || i == 3 || i == 4;
        } else {
          assert i == 5 || i == 6 || i == 7 || i == 8 || i == 9;
        }
      } else {
        if i < 15 {
          assert i == 10 || i == 11 || i == 12 || i == 13 || i == 14;
        } else {
          assert i == 15 || i == 16 || i == 17 || i == 18 || i == 19;
        }
      }
    }
  }

  /** Every entry has a non-empty symbol and locale, so the `|| '$'` and
      `|| 'en-US'` fallbacks never replace a table entry. */
  lemma CurrencyEntriesNonEmpty()
    ensures forall i :: 0 <= i < |Currencies| ==> Currencies[i].symbol != "" && Currencies[i].locale != ""
  {
  }
}
