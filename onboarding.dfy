/** The first-run flow (components/Onboarding.tsx): a welcome step, then a
    form whose completion writes the name, currency and opening balance
    into the profile and marks it onboarded. */
module Onboarding {
  import opened Types
  import Constants
  import FinanceContext

  /** The finish button is disabled, and the handler does nothing, while
      the name or the balance field is empty. */
  predicate FinishBlocked(name: string, balance: string)
    ensures FinishBlocked(name, balance) <==> |name| == 0 || |balance| == 0
  {
    name == "" || balance == ""
  }

  /** `{ name, currency, initialBalance, isOnboarded: true, theme: 'dark' }`;
      `parsedBalance` stands for `parseFloat(balance)`. */
  function FinishPatch(name: string, currency: CurrencyCode, parsedBalance: real): (patch: Patch)
    ensures WellTyped(patch)
    ensures patch.Keys == {NameField, CurrencyField, InitialBalanceField, IsOnboardedField, ThemeField}
  {
    map[NameField := Text(name), CurrencyField := Code(currency),
        InitialBalanceField := Number(parsedBalance), IsOnboardedField := Flag(true),
        ThemeField := Mode(Dark)]
  }

  /** Finishing sets the five fields, forces the dark theme and the
      onboarded flag whatever they were, and keeps the budget and avatar. */
  lemma FinishSetsProfile(p: UserProfile, name: string, currency: CurrencyCode, parsedBalance: real)
    ensures var q := FinanceContext.Merge(p, FinishPatch(name, currency, parsedBalance));
            q == p.(name := name, currency := currency, initialBalance := parsedBalance,
                    isOnboarded := true, theme := Dark)
            && q.isOnboarded && q.theme == Dark
            && q.monthlyBudget == p.monthlyBudget && q.avatar == p.avatar
  {
    var q := FinanceContext.Merge(p, FinishPatch(name, currency, parsedBalance));
    ProfileExtensionality(q, p.(name := name, currency := currency, initialBalance := parsedBalance,
                                isOnboarded := true, theme := Dark));
  }

  /** From the default profile, finishing gives a profile with the entered
      values, no budget, the '' avatar and the dark theme. */
  lemma FinishFromDefault(name: string, currency: CurrencyCode, parsedBalance: real)
    ensures FinanceContext.Merge(Constants.InitialProfile, FinishPatch(name, currency, parsedBalance))
            == UserProfile(name, currency, parsedBalance, true, Dark, Some(""), 0.0)
  {
    FinishSetsProfile(Constants.InitialProfile, name, currency, parsedBalance);
  }

  /** The form's state: `step` (1 or 2), `name`, `currency`, `balance`. */
  class OnboardingForm {
    var step: int
    var name: string
    var currency: CurrencyCode
    var balance: string

    predicate Valid()
      reads this
    {
      step == 1 || step == 2
    }

    /** Mount: the welcome step, empty fields, US dollars. */
    constructor ()
      ensures Valid() && step == 1
      ensures name == "" && currency == USD && balance == ""
    {
      step := 1;
      name := "";
      currency := USD;
      balance := "";
    }

    /** "Get Started": on to the form. */
    method GetStarted()
      requires Valid()
      modifies this
      ensures Valid() && step == 2
      ensures name == old(name) && currency == old(currency) && balance == old(balance)
    {
      step := 2;
    }

    method EditName(s: string)
      requires Valid()
      modifies this
      ensures Valid()
      ensures name == s && step == old(step) && currency == old(currency) && balance == old(balance)
    {
      name := s;
    }

    method PickCurrency(c: CurrencyCode)
      requires Valid()
      modifies this
      ensures Valid()
      ensures currency == c && step == old(step) && name == old(name) && balance == old(balance)
    {
      currency := c;
    }

    method EditBalance(s: string)
      requires Valid()
      modifies this
      ensures Valid()
      ensures balance == s && step == old(step) && name == old(name) && currency == old(currency)
    {
      balance := s;
    }

    /** `handleFinish`: nothing while a field is empty; otherwise one
        profile update. Returns whether the update was made. The button
        that calls it exists only on the form step. */
    method Finish(store: FinanceContext.FinanceStore, parsedBalance: real) returns (done: bool)
      requires Valid() && step == 2
      modifies store
      ensures done <==> !FinishBlocked(name, balance)
      ensures !done ==> store.profile == old(store.profile)
      ensures done ==> store.profile == old(store.profile).(name := name, currency := currency,
                          initialBalance := parsedBalance, isOnboarded := true, theme := Dark)
      ensures store.transactions == old(store.transactions)
    {
      if FinishBlocked(name, balance) {
        return false;
      }
      FinishSetsProfile(store.profile, name, currency, parsedBalance);
      store.UpdateProfile(FinishPatch(name, currency, parsedBalance));
      done := true;
    }
  }
}
