/**
 * The profile context of context/ProfileContext.tsx: an in-memory copy of the
 * stored profile that is loaded once and kept in step with every save made
 * through it.
 */
module ProfileContext {
  import opened Storage

  /**
   * The profile the provider and the default context start from. The source
   * literal names only `weeklyLimit`; its other fields (`sex`, `weight`,
   * `height`) are undefined there and empty text here.
   */
  const InitialProfile: Profile := Profile("", "", "", "")

  class ProfileProvider {
    /** The `profile` state. */
    var profile: Profile
    /** The device store the provider reads and writes. */
    const store: Store

    /** First render: the state holds the initial profile, weekly limit unset. */
    constructor (store: Store)
      ensures this.store == store
      ensures profile == InitialProfile && profile.weeklyLimit == ""
    {
      this.store := store;
      profile := InitialProfile;
    }

    /**
     * The load effect: the state becomes what `getProfile` returns, the
     * all-empty default when nothing is stored. The store is only read.
     */
    method Load()
      requires store.Valid()
      modifies this
      ensures profile == store.GetProfile()
      ensures store.items == old(store.items)
      ensures ProfileKey !in store.items ==> profile == DefaultProfile
    {
      var savedProfile := store.GetProfile();
      profile := savedProfile;
    }

    /**
     * `handleSaveProfile`: writes the store first and only then the state.
     * `written` is whether the store accepted the write; when it did not, the
     * state is not updated either.
     */
    method HandleSaveProfile(newProfile: Profile, written: bool)
      requires store.Valid()
      modifies this, store
      ensures store.Valid()
      ensures written ==> store.items == old(store.items)[ProfileKey := ProfileValue(newProfile)]
      ensures written ==> profile == newProfile && store.GetProfile() == newProfile
      ensures !written ==> store.items == old(store.items) && profile == old(profile)
      ensures store.GetDrinks() == old(store.GetDrinks())
    {
      if written {
        store.SaveProfile(newProfile);
        profile := newProfile;
      }
    }
  }

  /**
   * `saveProfile` as a consumer of the context sees it: the provider's handler
   * when one is mounted above, otherwise the default context's, which leaves
   * the store and everything else as it was.
   */
  method SaveThroughContext(provider: ProfileProvider?, store: Store, newProfile: Profile, written: bool)
    requires store.Valid()
    requires provider != null ==> provider.store == store
    modifies store, if provider != null then {provider} else {}
    ensures store.Valid()
    ensures provider == null ==> store.items == old(store.items)
    ensures provider != null && written ==> store.items == old(store.items)[ProfileKey := ProfileValue(newProfile)]
    ensures provider != null && written ==> provider.profile == newProfile && store.GetProfile() == newProfile
    ensures store.GetDrinks() == old(store.GetDrinks())
    ensures provider != null && !written ==> store.items == old(store.items) && provider.profile == old(provider.profile)
  {
    if provider != null {
      provider.HandleSaveProfile(newProfile, written);
    }
  }

  /** The profile a consumer reads: the provider's state, or the default context's. */
  function ProfileThroughContext(provider: ProfileProvider?): (p: Profile)
    reads provider
    ensures provider == null ==> p.weeklyLimit == ""
    ensures provider != null ==> p == provider.profile
  {
    if provider != null then provider.profile else InitialProfile
  }
}
