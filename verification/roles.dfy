/** The role checks of the authentication hook: the signed-in user's row of
    the `profiles` table is looked up with a single-row query and its `role`
    column compared with a fixed string. */
module Roles {
  import opened Wrappers
  import opened Lookup

  /** A row of the `profiles` table; `role` may be null. */
  datatype Profile = Profile(id: string, role: Option<string>)

  function ProfileIds(profiles: seq<Profile>): (ids: seq<string>)
    ensures |ids| == |profiles|
    ensures forall i :: 0 <= i < |profiles| ==> ids[i] == profiles[i].id
  {
    seq(|profiles|, i requires 0 <= i < |profiles| => profiles[i].id)
  }

  /** `data?.role` of the single-row query: the role of the one profile
      with the user's id, or `None` when the query returns no data (no row,
      several rows, or a null role). */
  function LookupRole(profiles: seq<Profile>, userId: string): (r: Option<string>)
    ensures r.Some? ==> exists i :: UniqueMatch(ProfileIds(profiles), userId, i) && profiles[i].role == r
    ensures forall i :: UniqueMatch(ProfileIds(profiles), userId, i) ==> r == profiles[i].role
    ensures (forall i :: !UniqueMatch(ProfileIds(profiles), userId, i)) ==> r.None?
  {
    match SingleIndex(ProfileIds(profiles), userId)
    case None => None
    case Some(i) => profiles[i].role
  }

  /** The role test shared by both checks: no user means `false` without a
      lookup; otherwise the user must have exactly one profile row and that
      row's role must equal `role` exactly. */
  function HasRole(user: Option<string>, profiles: seq<Profile>, role: string): (r: bool)
    ensures r <==> user.Some? && exists i :: UniqueMatch(ProfileIds(profiles), user.value, i) && profiles[i].role == Some(role)
  {
    if user.None? then false else LookupRole(profiles, user.value) == Some(role)
  }

  /** `isAdmin`: a signed-in user whose single profile row has the role
      `admin`. */
  function IsAdmin(user: Option<string>, profiles: seq<Profile>): (r: bool)
    ensures r <==> user.Some? && exists i :: UniqueMatch(ProfileIds(profiles), user.value, i) && profiles[i].role == Some("admin")
  {
    HasRole(user, profiles, "admin")
  }

  /** `isSeller`: a signed-in user whose single profile row has the role
      `seller`. */
  function IsSeller(user: Option<string>, profiles: seq<Profile>): (r: bool)
    ensures r <==> user.Some? && exists i :: UniqueMatch(ProfileIds(profiles), user.value, i) && profiles[i].role == Some("seller")
  {
    HasRole(user, profiles, "seller")
  }

  /** A missing profile row or a null role makes both checks false. */
  lemma NoProfileNoRole(user: Option<string>, profiles: seq<Profile>)
    requires user.None? || (forall i :: 0 <= i < |profiles| ==> profiles[i].id != user.value || profiles[i].role.None?)
    ensures !IsAdmin(user, profiles) && !IsSeller(user, profiles)
  {
  }

  /** For one state of the `profiles` table, nobody is both admin and
      seller. */
  lemma AdminAndSellerExclusive(user: Option<string>, profiles: seq<Profile>)
    ensures !(IsAdmin(user, profiles) && IsSeller(user, profiles))
  {
  }
}
