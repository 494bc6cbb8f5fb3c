/** The settings screen (components/Settings.tsx): the profile editor, the
    theme switch, the currency choice, the reset, and the avatar rule that
    the dashboard header shares. */
module Settings {
  import opened Types
  import Constants
  import FinanceContext

  // ----- the avatar rule -----

  /** What stands in the avatar circle. */
  datatype AvatarView = Picture(src: string) | Glyph(glyph: string) | Initial(letter: string)

  /** `name.charAt(0)`: the first character, or '' for an empty name. */
  function FirstChar(name: string): (s: string)
    ensures |s| <= 1 && s <= name
    ensures name != "" ==> |s| == 1
  {
    if name == "" then "" else name[..1]
  }

  /** A set, non-empty avatar longer than ten characters is an image
      source; a shorter one is drawn as a glyph; an absent or empty one
      gives way to the first letter of the name. */
  function AvatarDisplay(name: string, avatar: Option<string>): (v: AvatarView)
    ensures v.Picture? <==> avatar.Some? && |avatar.value| > 10
    ensures v.Glyph? <==> avatar.Some? && 0 < |avatar.value| <= 10
    ensures v.Initial? <==> avatar.None? || avatar.value == ""
    ensures v.Picture? ==> v.src == avatar.value
    ensures v.Glyph? ==> v.glyph == avatar.value
    ensures v.Initial? ==> v.letter == FirstChar(name)
  {
    match avatar
    case Some(a) =>
      if a == "" then Initial(FirstChar(name))
      else if |a| > 10 then Picture(a)
      else Glyph(a)
    case None => Initial(FirstChar(name))
  }

  /** `userProfile.avatar || ''`. */
  function AvatarOrEmpty(avatar: Option<string>): (s: string)
    ensures avatar.Some? ==> s == avatar.value
    ensures avatar.None? ==> s == ""
  {
    match avatar
    case Some(a) => a
    case None => ""
  }

  /** Filling the editor from an avatar and storing it back never changes
      what the header shows: an absent avatar comes back as '', which
      displays the same. */
  lemma AvatarRoundTrip(name: string, avatar: Option<string>)
    ensures AvatarDisplay(name, Some(AvatarOrEmpty(avatar))) == AvatarDisplay(name, avatar)
    ensures avatar.Some? ==> Some(AvatarOrEmpty(avatar)) == avatar
  {
  }

  /** The default profile shows the first letter of its (empty) name. */
  lemma DefaultAvatarIsInitial()
    ensures AvatarDisplay(Constants.InitialProfile.name, Constants.InitialProfile.avatar) == Initial("")
  {
  }

  // ----- the profile updates -----

  /** The theme the switch moves to. */
  function Toggled(t: Theme): (r: Theme)
    ensures r != t
  {
    if t == Light then Dark else Light
  }

  /** Flipping twice is the identity. */
  lemma ToggledInvolution(t: Theme)
    ensures Toggled(Toggled(t)) == t
  {
  }

  /** `{ name: tempName, avatar: tempAvatar }`. */
  function ProfilePatch(name: string, avatar: string): (patch: Patch)
    ensures WellTyped(patch) && patch.Keys == {NameField, AvatarField}
  {
    map[NameField := Text(name), AvatarField := MaybeText(Some(avatar))]
  }

  /** `{ theme }`. */
  function ThemePatch(t: Theme): (patch: Patch)
    ensures WellTyped(patch) && patch.Keys == {ThemeField}
  {
    map[ThemeField := Mode(t)]
  }

  /** `{ currency: code }`. */
  function CurrencyPatch(code: CurrencyCode): (patch: Patch)
    ensures WellTyped(patch) && patch.Keys == {CurrencyField}
  {
    map[CurrencyField := Code(code)]
  }

  /** Saving the editor changes the name and avatar and nothing else. */
  lemma SaveChangesOnlyNameAndAvatar(p: UserProfile, name: string, avatar: string)
    ensures FinanceContext.Merge(p, ProfilePatch(name, avatar)) == p.(name := name, avatar := Some(avatar))
  {
    ProfileExtensionality(FinanceContext.Merge(p, ProfilePatch(name, avatar)), p.(name := name, avatar := Some(avatar)));
  }

  /** The theme switch changes the theme and nothing else; switching
      twice restores the profile. */
  lemma ToggleChangesOnlyTheme(p: UserProfile)
    ensures FinanceContext.Merge(p, ThemePatch(Toggled(p.theme))) == p.(theme := Toggled(p.theme))
    ensures var q := FinanceContext.Merge(p, ThemePatch(Toggled(p.theme)));
            FinanceContext.Merge(q, ThemePatch(Toggled(q.theme))) == p
  {
    var q := FinanceContext.Merge(p, ThemePatch(Toggled(p.theme)));
    ProfileExtensionality(q, p.(theme := Toggled(p.theme)));
    var r := FinanceContext.Merge(q, ThemePatch(Toggled(q.theme)));
    ProfileExtensionality(r, q.(theme := Toggled(q.theme)));
  }

  /** Picking a currency changes the currency and nothing else. */
  lemma CurrencyChangesOnlyCurrency(p: UserProfile, code: CurrencyCode)
    ensures FinanceContext.Merge(p, CurrencyPatch(code)) == p.(currency := code)
  {
    ProfileExtensionality(FinanceContext.Merge(p, CurrencyPatch(code)), p.(currency := code));
  }

  /** Opening the editor and saving it untouched leaves the profile as it
      was, except that an absent avatar is stored as ''. */
  lemma EditorRoundTrip(p: UserProfile)
    ensures var q := FinanceContext.Merge(p, ProfilePatch(p.name, AvatarOrEmpty(p.avatar)));
            q == p.(avatar := Some(AvatarOrEmpty(p.avatar)))
            && (p.avatar.Some? ==> q == p)
            && AvatarDisplay(q.name, q.avatar) == AvatarDisplay(p.name, p.avatar)
  {
    SaveChangesOnlyNameAndAvatar(p, p.name, AvatarOrEmpty(p.avatar));
    AvatarRoundTrip(p.name, p.avatar);
  }

  // ----- the screen's state -----

  /** `showEditProfile`, `tempName`, `tempAvatar`. */
  class SettingsScreen {
    var showEditProfile: bool
    var tempName: string
    var tempAvatar: string

    /** Mount: the editor closed, the fields filled from the profile. */
    constructor (p: UserProfile)
      ensures !showEditProfile && tempName == p.name && tempAvatar == AvatarOrEmpty(p.avatar)
    {
      showEditProfile := false;
      tempName := p.name;
      tempAvatar := AvatarOrEmpty(p.avatar);
    }

    /** `handleOpenEditProfile`: copies the current name and avatar (or '')
        and opens the editor. */
    method OpenEditProfile(store: FinanceContext.FinanceStore)
      modifies this
      ensures showEditProfile
      ensures tempName == store.profile.name && tempAvatar == AvatarOrEmpty(store.profile.avatar)
    {
      tempName := store.profile.name;
      tempAvatar := AvatarOrEmpty(store.profile.avatar);
      showEditProfile := true;
    }

    /** Typing in the name field. */
    method EditName(name: string)
      modifies this
      ensures tempName == name && tempAvatar == old(tempAvatar) && showEditProfile == old(showEditProfile)
    {
      tempName := name;
    }

    /** Picking one of the avatar glyphs. */
    method PickAvatar(avatar: string)
      modifies this
      ensures tempAvatar == avatar && tempName == old(tempName) && showEditProfile == old(showEditProfile)
    {
      tempAvatar := avatar;
    }

    /** The backdrop or the close button: closes without saving. */
    method CloseEditor()
      modifies this
      ensures !showEditProfile && tempName == old(tempName) && tempAvatar == old(tempAvatar)
    {
      showEditProfile := false;
    }

    /** `handleSaveProfile`: stores the name and avatar, nothing else, and
        closes the editor. */
    method SaveProfile(store: FinanceContext.FinanceStore)
      modifies this, store
      ensures store.profile == old(store.profile).(name := old(tempName), avatar := Some(old(tempAvatar)))
      ensures store.transactions == old(store.transactions)
      ensures !showEditProfile && tempName == old(tempName) && tempAvatar == old(tempAvatar)
    {
      SaveChangesOnlyNameAndAvatar(store.profile, tempName, tempAvatar);
      store.UpdateProfile(ProfilePatch(tempName, tempAvatar));
      showEditProfile := false;
    }

    /** `toggleTheme`. */
    method ToggleTheme(store: FinanceContext.FinanceStore)
      modifies store
      ensures store.profile == old(store.profile).(theme := Toggled(old(store.profile.theme)))
      ensures store.transactions == old(store.transactions)
    {
      ToggleChangesOnlyTheme(store.profile);
      store.UpdateProfile(ThemePatch(Toggled(store.profile.theme)));
    }

    /** The currency picker's `onChange`. */
    method SelectCurrency(store: FinanceContext.FinanceStore, code: CurrencyCode)
      modifies store
      ensures store.profile == old(store.profile).(currency := code)
      ensures store.transactions == old(store.transactions)
    {
      CurrencyChangesOnlyCurrency(store.profile, code);
      store.UpdateProfile(CurrencyPatch(code));
    }

    /** `handleReset`: `confirmed` stands for the answer to the browser's
        confirmation dialog; only a yes resets the data. */
    method Reset(store: FinanceContext.FinanceStore, confirmed: bool)
      modifies store
      ensures confirmed ==> store.profile == Constants.InitialProfile && store.transactions == []
      ensures !confirmed ==> store.profile == old(store.profile) && store.transactions == old(store.transactions)
    {
      if confirmed {
        store.ResetData();
      }
    }
  }
}
