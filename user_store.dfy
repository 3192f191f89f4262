/**
 * The mock account store (src/lib/store/user.ts): the signed-in profile and a
 * logged-in flag. Login and registration accept any non-empty credentials.
 */
module UserStore {
  import opened Text
  import opened Currency
  import opened Lists

  datatype Discount = Discount(code: string, value: real, kind: DiscountKind, description: string)

  datatype UserProfile = UserProfile(
    id: string,
    name: string,
    email: string,
    favorites: Option<seq<string>>,
    discounts: Option<seq<Discount>>)

  /** The fields a `Partial<UserProfile>` may carry; `None` means the key is absent. */
  datatype ProfileUpdate = ProfileUpdate(
    id: Option<string>,
    name: Option<string>,
    email: Option<string>,
    favorites: Option<Option<seq<string>>>,
    discounts: Option<Option<seq<Discount>>>)

  const WelcomeDiscount := Discount("BIENVENIDO10", 10.0, Percent, "Descuento de bienvenida del 10%")
  const FreeShippingDiscount := Discount("ENVIOGRATIS", 5.0, Amount, "Envío gratis en compras mayores a $50")

  const MockUser := UserProfile("1", "Usuario Demo", "demo@suplementos.com", Some([]),
                                Some([WelcomeDiscount, FreeShippingDiscount]))

  /** `{ ...profile, ...updates }`: every key the update carries wins. */
  function Merge(p: UserProfile, u: ProfileUpdate): (r: UserProfile)
    ensures u.id.Some? ==> r.id == u.id.value
    ensures u.id.None? ==> r.id == p.id
    ensures u.name.Some? ==> r.name == u.name.value
    ensures u.name.None? ==> r.name == p.name
    ensures u.email.Some? ==> r.email == u.email.value
    ensures u.email.None? ==> r.email == p.email
    ensures u.favorites.Some? ==> r.favorites == u.favorites.value
    ensures u.favorites.None? ==> r.favorites == p.favorites
    ensures u.discounts.Some? ==> r.discounts == u.discounts.value
    ensures u.discounts.None? ==> r.discounts == p.discounts
  {
    UserProfile(
      if u.id.Some? then u.id.value else p.id,
      if u.name.Some? then u.name.value else p.name,
      if u.email.Some? then u.email.value else p.email,
      if u.favorites.Some? then u.favorites.value else p.favorites,
      if u.discounts.Some? then u.discounts.value else p.discounts)
  }

  const NoUpdate := ProfileUpdate(None, None, None, None, None)

  /** An empty update changes nothing, and applying the same update twice is applying it once. */
  lemma MergeLaws(p: UserProfile, u: ProfileUpdate)
    ensures Merge(p, NoUpdate) == p
    ensures Merge(Merge(p, u), u) == Merge(p, u)
  {
  }

  /** A key given by a later update wins over the same key given by an earlier one. */
  lemma LaterUpdateWins(p: UserProfile, u: ProfileUpdate, v: ProfileUpdate)
    requires v.name.Some? && v.email.Some?
    ensures Merge(Merge(p, u), v).name == v.name.value
    ensures Merge(Merge(p, u), v).email == v.email.value
    ensures u.id.None? && v.id.None? ==> Merge(Merge(p, u), v).id == p.id
  {
  }

  /** `discounts.find(d => d.code.toUpperCase() === code.toUpperCase())`: the first code that matches ignoring case. */
  function FindDiscount(discounts: seq<Discount>, code: string): (r: Option<Discount>)
    ensures r.Some? ==> r.value in discounts && Upper(r.value.code) == Upper(code)
    ensures r.None? <==> forall d :: d in discounts ==> Upper(d.code) != Upper(code)
    ensures r.Some? ==> (exists i :: 0 <= i < |discounts| && discounts[i] == r.value
                          && forall k :: 0 <= k < i ==> Upper(discounts[k].code) != Upper(code))
  {
    Find(discounts, (d: Discount) => Upper(d.code) == Upper(code))
  }

  /** `applyDiscount(code)`: no profile or no discount list gives null, otherwise the first case-insensitive match. */
  function ApplyDiscount(profile: Option<UserProfile>, code: string): (r: Option<Discount>)
    ensures profile.None? || profile.value.discounts.None? ==> r.None?
    ensures r.Some? ==> r.value in profile.value.discounts.value && Upper(r.value.code) == Upper(code)
  {
    if profile.None? || profile.value.discounts.None? then None
    else FindDiscount(profile.value.discounts.value, code)
  }

  /** The code typed in any case finds the same discount. */
  lemma ApplyDiscountIgnoresCase(profile: Option<UserProfile>, code: string)
    ensures ApplyDiscount(profile, Lower(code)) == ApplyDiscount(profile, code)
    ensures ApplyDiscount(profile, Upper(code)) == ApplyDiscount(profile, code)
  {
    UpperOfLower(code);
    UpperOfUpper(code);
    if profile.Some? && profile.value.discounts.Some? {
      FindSameUpper(profile.value.discounts.value, Lower(code), code);
      FindSameUpper(profile.value.discounts.value, Upper(code), code);
    }
  }

  lemma {:induction false} FindSameUpper(discounts: seq<Discount>, a: string, b: string)
    requires Upper(a) == Upper(b)
    ensures FindDiscount(discounts, a) == FindDiscount(discounts, b)
  {
    if discounts != [] {
      FindSameUpper(discounts[1..], a, b);
    }
  }

  class UserStoreState {
    var profile: Option<UserProfile>
    var isLoggedIn: bool

    constructor()
      ensures profile.None? && !isLoggedIn
    {
      profile := None;
      isLoggedIn := false;
    }

    /** `login(email, password)`: any non-empty pair signs in as the mock user. */
    method Login(email: string, password: string) returns (ok: bool)
      modifies this
      ensures ok <==> email != [] && password != []
      ensures ok ==> profile == Some(MockUser) && isLoggedIn
      ensures !ok ==> profile == old(profile) && isLoggedIn == old(isLoggedIn)
    {
      if email != [] && password != [] {
        profile := Some(MockUser);
        isLoggedIn := true;
        return true;
      }
      return false;
    }

    /** `register(name, email, password)`; `now` stands for `Date.now()`, whose decimal digits become the id. */
    method Register(name: string, email: string, password: string, now: nat) returns (ok: bool)
      modifies this
      ensures ok <==> name != [] && email != [] && password != []
      ensures ok ==> isLoggedIn && profile == Some(UserProfile(NatToString(now), name, email, Some([]), Some([WelcomeDiscount])))
      ensures !ok ==> profile == old(profile) && isLoggedIn == old(isLoggedIn)
    {
      if name != [] && email != [] && password != [] {
        var newUser := UserProfile(NatToString(now), name, email, Some([]), Some([MockUser.discounts.value[0]]));
        profile := Some(newUser);
        isLoggedIn := true;
        return true;
      }
      return false;
    }

    method Logout()
      modifies this
      ensures profile.None? && !isLoggedIn
    {
      profile := None;
      isLoggedIn := false;
    }

    /** `updateProfile(updates)`: merges into the profile, and does nothing when nobody is signed in. */
    method UpdateProfile(updates: ProfileUpdate)
      modifies this
      ensures old(profile).None? ==> profile.None?
      ensures old(profile).Some? ==> profile == Some(Merge(old(profile).value, updates))
      ensures isLoggedIn == old(isLoggedIn)
    {
      profile := if profile.Some? then Some(Merge(profile.value, updates)) else None;
    }
  }
}
