/** The entities of the finance tracker (types.ts): transactions, the user
    profile, and the partial profile objects that `updateProfile` merges. */
module Types {

  datatype Option<T> = None | Some(value: T)

  /** The twenty supported currency codes. */
  datatype CurrencyCode =
    | USD | EUR | GBP | PKR | INR
    | SAR | AED | JPY | CNY | CAD
    | AUD | CHF | TRY | RUB | KRW
    | BRL | ZAR | SGD | MXN | NZD

  datatype TransactionType = Income | Expense

  datatype Theme = Light | Dark

  /** The calendar month of a transaction's date, as seen in local time.
      Day and time of day play no part in any computation of the core. */
  datatype YearMonth = YearMonth(year: int, month: int)

  /** A ledger record. `amount` is a magnitude; its sign comes from `txType`. */
  datatype Transaction = Transaction(
    id: string,
    amount: real,
    txType: TransactionType,
    category: string,
    note: string,
    date: YearMonth)

  /** `Omit<Transaction, 'id'>`: what a caller hands to `addTransaction`. */
  datatype Draft = Draft(
    amount: real,
    txType: TransactionType,
    category: string,
    note: string,
    date: YearMonth)

  /** `avatar` is optional in the interface; `monthlyBudget == 0` means no budget. */
  datatype UserProfile = UserProfile(
    name: string,
    currency: CurrencyCode,
    initialBalance: real,
    isOnboarded: bool,
    theme: Theme,
    avatar: Option<string>,
    monthlyBudget: real)

  /** The keys of a `UserProfile` object. */
  datatype Field =
    | NameField | CurrencyField | InitialBalanceField | IsOnboardedField
    | ThemeField | AvatarField | MonthlyBudgetField

  /** A field's value, tagged with its type. */
  datatype Value =
    | Text(text: string)
    | Code(code: CurrencyCode)
    | Number(number: real)
    | Flag(flag: bool)
    | Mode(mode: Theme)
    | MaybeText(maybe: Option<string>)

  /** `Partial<UserProfile>`: an object holding some of the profile's keys. */
  type Patch = map<Field, Value>

  /** The value has the type the interface gives the field. */
  predicate Fits(f: Field, v: Value)
  {
    match f
    case NameField => v.Text?
    case CurrencyField => v.Code?
    case InitialBalanceField => v.Number?
    case IsOnboardedField => v.Flag?
    case ThemeField => v.Mode?
    case AvatarField => v.MaybeText?
    case MonthlyBudgetField => v.Number?
  }

  /** Every present key holds a value of its declared type. */
  predicate WellTyped(patch: Patch)
  {
    forall f :: f in patch ==> Fits(f, patch[f])
  }

  /** `profile[f]`. */
  function Get(p: UserProfile, f: Field): (v: Value)
    ensures Fits(f, v)
  {
    match f
    case NameField => Text(p.name)
    case CurrencyField => Code(p.currency)
    case InitialBalanceField => Number(p.initialBalance)
    case IsOnboardedField => Flag(p.isOnboarded)
    case ThemeField => Mode(p.theme)
    case AvatarField => MaybeText(p.avatar)
    case MonthlyBudgetField => Number(p.monthlyBudget)
  }

  /** Two profiles that agree on every key are the same profile. */
  lemma ProfileExtensionality(p: UserProfile, q: UserProfile)
    requires forall f :: Get(p, f) == Get(q, f)
    ensures p == q
  {
    assert Get(p, NameField) == Get(q, NameField);
    assert Get(p, CurrencyField) == Get(q, CurrencyField);
    assert Get(p, InitialBalanceField) == Get(q, InitialBalanceField);
    assert Get(p, IsOnboardedField) == Get(q, IsOnboardedField);
    assert Get(p, ThemeField) == Get(q, ThemeField);
    assert Get(p, AvatarField) == Get(q, AvatarField);
    assert Get(p, MonthlyBudgetField) == Get(q, MonthlyBudgetField);
  }
}
