/** The reducer-based account store of the delivery client
    (src/context/UserContext.js): the signed-in user, favorites, loyalty
    points, badges and preferences, with the copies kept in key-value
    storage. User records and preferences are JSON objects, so they are
    modelled as maps from keys to JSON values. */
module User {
  import opened Common
  import opened Seqs

  /** A parsed JSON value (numbers restricted to integers). */
  datatype Json =
    | JNull
    | JBool(b: bool)
    | JNumber(n: int)
    | JString(s: string)
    | JArray(elems: seq<Json>)
    | JObject(fields: map<string, Json>)

  type Record = map<string, Json>

  datatype UserState = UserState(user: Option<Record>, isAuthenticated: bool, loading: bool,
                                 error: Option<string>, favorites: seq<Json>, loyaltyPoints: int,
                                 badges: seq<Json>, preferences: Record)

  datatype UserAction =
    | SetLoading(loading: bool)
    | SetUser(user: Option<Record>)
    | LoginSuccess(account: Record)
    | LoginFailure(message: string)
    | Logout
    | UpdateProfile(profile: Record)
    | AddFavorite(favorite: Json)
    | RemoveFavorite(id: Json)
    | UpdateLoyaltyPoints(points: int)
    | AddBadge(badge: Json)
    | UpdatePreferences(changes: Record)
    | SetError(message: string)
    | ClearError
    | Unrecognized(tag: string)  // any other action type

  const DefaultPreferences: Record :=
    map["notifications" := JBool(true), "locationSharing" := JBool(true),
        "language" := JString("en"), "theme" := JString("light")]

  /** Nobody signed in, still loading, nothing collected. */
  const Initial: UserState := UserState(None, false, true, None, [], 0, [], DefaultPreferences)

  /** `fav.id`: the `id` field of an object, missing for anything else. */
  function IdOf(v: Json): Option<Json>
  {
    if v.JObject? && "id" in v.fields then Some(v.fields["id"]) else None
  }

  /** `fav.id !== id`. */
  predicate Keeps(v: Json, id: Json)
  {
    IdOf(v) != Some(id)
  }

  function KeepsId(id: Json): Json -> bool
  {
    (v: Json) => Keeps(v, id)
  }

  /** `{ ...record, ...changes }`: the keys of both, with the changes winning. */
  function Spread(record: Record, changes: Record): (r: Record)
    ensures r.Keys == record.Keys + changes.Keys
    ensures forall k :: k in changes ==> r[k] == changes[k]
    ensures forall k :: k in record && k !in changes ==> r[k] == record[k]
  {
    record + changes
  }

  /** `{ ...state.user, ...profile }`; spreading a missing user adds no keys. */
  function MergeProfile(user: Option<Record>, profile: Record): Record
  {
    Spread(if user.Some? then user.value else map[], profile)
  }

  /** `userReducer`. */
  function Reduce(s: UserState, a: UserAction): UserState
  {
    match a
    case SetLoading(b) => s.(loading := b)
    case SetUser(u) => s.(user := u, isAuthenticated := u.Some?, loading := false)
    case LoginSuccess(u) => s.(user := Some(u), isAuthenticated := true, loading := false, error := None)
    case LoginFailure(m) => s.(user := None, isAuthenticated := false, loading := false, error := Some(m))
    case Logout => Initial.(loading := false)
    case UpdateProfile(p) => s.(user := Some(MergeProfile(s.user, p)))
    case AddFavorite(f) => s.(favorites := s.favorites + [f])
    case RemoveFavorite(id) => s.(favorites := Filter(s.favorites, KeepsId(id)))
    case UpdateLoyaltyPoints(n) => s.(loyaltyPoints := n)
    case AddBadge(b) => s.(badges := s.badges + [b])
    case UpdatePreferences(p) => s.(preferences := Spread(s.preferences, p))
    case SetError(m) => s.(error := Some(m), loading := false)
    case ClearError => s.(error := None)
    case Unrecognized(_) => s
  }

  // ---------------------------------------------------------------------------
  // The name a login derives from the e-mail address
  // ---------------------------------------------------------------------------

  /** `email.split('@')[0]`: the text before the first `@`, or all of it when
      there is none. */
  function NameFromEmail(email: string): (name: string)
    ensures |name| <= |email| && name == email[..|name|]
    ensures '@' !in name
    ensures |name| < |email| ==> email[|name|] == '@'
  {
    if email == [] || email[0] == '@' then []
    else
      var rest := NameFromEmail(email[1..]);
      assert [email[0]] + rest == email[..|rest| + 1];
      [email[0]] + rest
  }

  /** The name of `local@domain` is `local` whenever `local` has no `@`,
      whatever the domain holds. */
  lemma {:induction false} NameFromEmailOfAddress(local: string, domain: string)
    requires '@' !in local
    ensures NameFromEmail(local + "@" + domain) == local
  {
    if local != [] {
      assert (local + "@" + domain)[1..] == local[1..] + "@" + domain;
      assert local[0] in local;
      NameFromEmailOfAddress(local[1..], domain);
    }
  }

  /** The record `login` and `register` store and sign in with. */
  function Account(id: int, email: string, name: string, joinedDate: string): Record
  {
    map["id" := JNumber(id), "email" := JString(email), "name" := JString(name),
        "avatar" := JNull, "joinedDate" := JString(joinedDate)]
  }

  // ---------------------------------------------------------------------------
  // Properties of the reducer
  // ---------------------------------------------------------------------------

  /** SET_USER signs in exactly when a user is given and ends loading. */
  lemma SetUserAuthenticates(s: UserState, u: Option<Record>)
    ensures var r := Reduce(s, SetUser(u));
      && r.user == u && (r.isAuthenticated <==> u.Some?) && !r.loading
      && r.error == s.error && r.favorites == s.favorites && r.preferences == s.preferences
  {
  }

  /** LOGIN_SUCCESS signs the user in and clears the error; LOGIN_FAILURE
      signs out and records the message; both end loading and keep the
      collections. */
  lemma LoginOutcomes(s: UserState, u: Record, m: string)
    ensures var r := Reduce(s, LoginSuccess(u));
      && r.user == Some(u) && r.isAuthenticated && !r.loading && r.error.None?
      && r.favorites == s.favorites && r.badges == s.badges && r.loyaltyPoints == s.loyaltyPoints
    ensures var r := Reduce(s, LoginFailure(m));
      && r.user.None? && !r.isAuthenticated && !r.loading && r.error == Some(m)
      && r.favorites == s.favorites && r.badges == s.badges && r.loyaltyPoints == s.loyaltyPoints
  {
  }

  /** LOGOUT forgets everything: no user, no favorites, badges or points, the
      default preferences, and loading over. */
  lemma LogoutResets(s: UserState)
    ensures var r := Reduce(s, Logout);
      && r.user.None? && !r.isAuthenticated && !r.loading && r.error.None?
      && r.favorites == [] && r.badges == [] && r.loyaltyPoints == 0
      && r.preferences == DefaultPreferences
      && r.preferences["language"] == JString("en") && r.preferences["theme"] == JString("light")
  {
  }

  /** UPDATE_PROFILE and UPDATE_PREFERENCES are shallow merges: every key of
      the changes takes the new value, every other key keeps its old one, and
      no key is lost. A profile change with nobody signed in makes the
      changes the user record. */
  lemma ShallowMerges(s: UserState, p: Record)
    ensures var u := Reduce(s, UpdateProfile(p)).user;
      && u.Some?
      && (forall k :: k in p ==> k in u.value && u.value[k] == p[k])
      && (s.user.Some? ==> forall k :: k in s.user.value && k !in p ==> k in u.value && u.value[k] == s.user.value[k])
      && (s.user.None? ==> u.value == p)
    ensures var q := Reduce(s, UpdatePreferences(p)).preferences;
      && q.Keys == s.preferences.Keys + p.Keys
      && (forall k :: k in p ==> q[k] == p[k])
      && (forall k :: k in s.preferences && k !in p ==> q[k] == s.preferences[k])
  {
    if s.user.None? {
      var u := Reduce(s, UpdateProfile(p)).user.value;
      assert u.Keys == p.Keys;
    }
  }

  /** ADD_FAVORITE appends; REMOVE_FAVORITE drops every favorite carrying the
      id and keeps each of the rest as often as before and in order. */
  lemma FavoriteLists(s: UserState, f: Json, id: Json)
    ensures Reduce(s, AddFavorite(f)).favorites == s.favorites + [f]
    ensures var r := Reduce(s, RemoveFavorite(id)).favorites;
      && (forall v :: v in r <==> v in s.favorites && IdOf(v) != Some(id))
      && (forall v :: IdOf(v) != Some(id) ==> multiset(r)[v] == multiset(s.favorites)[v])
      && Subsequence(r, s.favorites)
  {
    FilterOrder(s.favorites, KeepsId(id));
    FilterCounts(s.favorites, KeepsId(id));
    var r := Reduce(s, RemoveFavorite(id)).favorites;
    forall v ensures v in r <==> v in s.favorites && IdOf(v) != Some(id) {
      assert KeepsId(id)(v) == (IdOf(v) != Some(id));
    }
    forall v | IdOf(v) != Some(id) ensures multiset(r)[v] == multiset(s.favorites)[v] {
      assert KeepsId(id)(v);
    }
  }

  /** SET_ERROR ends loading, CLEAR_ERROR only clears the error, and an unknown
      action changes nothing. */
  lemma BookkeepingActions(s: UserState, m: string, tag: string)
    ensures Reduce(s, SetError(m)) == s.(error := Some(m), loading := false)
    ensures Reduce(s, ClearError) == s.(error := None)
    ensures Reduce(s, Unrecognized(tag)) == s
  {
  }

  // ---------------------------------------------------------------------------
  // Loading from storage
  // ---------------------------------------------------------------------------

  /** What storage holds under `userData`, `favorites`, `loyaltyPoints`,
      `badges` and `preferences`, already parsed. */
  datatype Stored = Stored(userData: Option<Record>, favorites: Option<Json>, loyaltyPoints: Option<int>,
                           badges: Option<Json>, preferences: Option<Record>)

  function Then(s: UserState, present: bool, a: UserAction): UserState
  {
    if present then Reduce(s, a) else s
  }

  /** `loadUserData` as written: each stored value present is dispatched once,
      the favorites and badges lists as single entries. */
  function LoadAsWritten(s: UserState, st: Stored): UserState
  {
    var s1 := Reduce(s, SetLoading(true));
    var s2 := Then(s1, st.userData.Some?, SetUser(st.userData));
    var s3 := Then(s2, st.favorites.Some?, AddFavorite(if st.favorites.Some? then st.favorites.value else JNull));
    var s4 := Then(s3, st.loyaltyPoints.Some?, UpdateLoyaltyPoints(OrZero(st.loyaltyPoints)));
    var s5 := Then(s4, st.badges.Some?, AddBadge(if st.badges.Some? then st.badges.value else JNull));
    var s6 := Then(s5, st.preferences.Some?,
                   UpdatePreferences(if st.preferences.Some? then st.preferences.value else map[]));
    Reduce(s6, SetLoading(false))
  }

  /** The entries a stored list holds; anything else is one entry. */
  function Entries(v: Json): seq<Json>
  {
    if v.JArray? then v.elems else [v]
  }

  /** Dispatches ADD_FAVORITE (or ADD_BADGE) once per entry of a stored list. */
  function AddEach(s: UserState, vs: seq<Json>, badges: bool): (r: UserState)
    ensures !badges ==> r == s.(favorites := s.favorites + vs)
    ensures badges ==> r == s.(badges := s.badges + vs)
    decreases |vs|
  {
    if vs == [] then s
    else
      var next := Reduce(s, if badges then AddBadge(vs[0]) else AddFavorite(vs[0]));
      assert vs == [vs[0]] + vs[1..];
      AddEach(next, vs[1..], badges)
  }

  /** `loadUserData` as evidently intended: the stored lists' entries are
      added one by one. */
  function LoadIntended(s: UserState, st: Stored): UserState
  {
    var s1 := Reduce(s, SetLoading(true));
    var s2 := Then(s1, st.userData.Some?, SetUser(st.userData));
    var s3 := if st.favorites.Some? then AddEach(s2, Entries(st.favorites.value), false) else s2;
    var s4 := Then(s3, st.loyaltyPoints.Some?, UpdateLoyaltyPoints(OrZero(st.loyaltyPoints)));
    var s5 := if st.badges.Some? then AddEach(s4, Entries(st.badges.value), true) else s4;
    var s6 := Then(s5, st.preferences.Some?,
                   UpdatePreferences(if st.preferences.Some? then st.preferences.value else map[]));
    Reduce(s6, SetLoading(false))
  }

  /** As written, a fresh start with favorites or badges in storage holds the
      whole stored list as one favorite (one badge), so a favorite saved with
      id "v1" is neither listed nor removable by that id. */
  lemma LoadNestsStoredLists(fav: Json, badge: Json)
    requires IdOf(fav).Some?
    ensures var r := LoadAsWritten(Initial, Stored(None, Some(JArray([fav])), None, Some(JArray([badge])), None));
      && r.favorites == [JArray([fav])] && r.badges == [JArray([badge])]
      && fav !in r.favorites
      && Reduce(r, RemoveFavorite(IdOf(fav).value)).favorites == r.favorites
  {
    var r := LoadAsWritten(Initial, Stored(None, Some(JArray([fav])), None, Some(JArray([badge])), None));
    assert r.favorites == [JArray([fav])];
    assert JArray([fav]) != fav by {
      assert fav in JArray([fav]).elems;
    }
    assert KeepsId(IdOf(fav).value)(r.favorites[0]);
  }

  /** As intended, loading lists saved by the provider on a fresh start
      restores them entry for entry, together with the user, the points and
      the preferences, and signs the stored user in. */
  lemma LoadRestoresStoredLists(st: Stored, favorites: seq<Json>, badges: seq<Json>)
    requires st.favorites == Some(JArray(favorites)) && st.badges == Some(JArray(badges))
    ensures var r := LoadIntended(Initial, st);
      && r.favorites == favorites && r.badges == badges
      && r.user == st.userData && (r.isAuthenticated <==> st.userData.Some?)
      && r.loyaltyPoints == OrZero(st.loyaltyPoints)
      && r.preferences == (if st.preferences.Some? then Spread(DefaultPreferences, st.preferences.value)
                           else DefaultPreferences)
      && !r.loading
  {
  }

  // ---------------------------------------------------------------------------
  // The provider
  // ---------------------------------------------------------------------------

  /** `UserProvider`: the reducer's state together with what storage holds. */
  class UserProvider {
    var state: UserState
    var stored: Stored

    constructor (st: Stored)
      ensures state == Initial && stored == st
    {
      state := Initial;
      stored := st;
    }

    /** `loadUserData`, corrected: dispatches what storage holds, adding the
        entries of the stored favorites and badges lists one by one (the
        source adds each whole list as one entry; see `LoadAsWritten`). */
    method LoadUserData()
      modifies this
      ensures state == LoadIntended(old(state), stored) && stored == old(stored)
    {
      state := Reduce(state, UserAction.SetLoading(true));
      if stored.userData.Some? {
        state := Reduce(state, UserAction.SetUser(stored.userData));
      }
      if stored.favorites.Some? {
        state := AddEach(state, Entries(stored.favorites.value), false);
      }
      if stored.loyaltyPoints.Some? {
        state := Reduce(state, UserAction.UpdateLoyaltyPoints(stored.loyaltyPoints.value));
      }
      if stored.badges.Some? {
        state := AddEach(state, Entries(stored.badges.value), true);
      }
      if stored.preferences.Some? {
        state := Reduce(state, UserAction.UpdatePreferences(stored.preferences.value));
      }
      state := Reduce(state, UserAction.SetLoading(false));
    }

    /** The shared body of `login` and `register`: store the account, then
        sign in; a failed write signs out with the message. */
    method SignIn(account: Record, write: Outcome) returns (result: Outcome)
      modifies this
      ensures result == write
      ensures write.Success? ==>
        stored == old(stored).(userData := Some(account)) &&
        state == old(state).(user := Some(account), isAuthenticated := true, loading := false, error := None)
      ensures write.Failure? ==>
        stored == old(stored) &&
        state == old(state).(user := None, isAuthenticated := false, loading := false,
                             error := Some(write.message))
    {
      state := Reduce(state, UserAction.SetLoading(true));
      if write.Failure? {
        state := Reduce(state, UserAction.LoginFailure(write.message));
        return write;
      }
      stored := stored.(userData := Some(account));
      state := Reduce(state, UserAction.LoginSuccess(account));
      result := Success;
    }

    /** `login`: the account is named after the address's local part. */
    method Login(email: string, id: int, now: string, write: Outcome) returns (result: Outcome)
      modifies this
      ensures result == write
      ensures write.Success? ==>
        stored == old(stored).(userData := Some(Account(id, email, NameFromEmail(email), now))) &&
        state == old(state).(user := Some(Account(id, email, NameFromEmail(email), now)), isAuthenticated := true,
                             loading := false, error := None)
      ensures write.Failure? ==>
        stored == old(stored) &&
        state == old(state).(user := None, isAuthenticated := false, loading := false,
                             error := Some(write.message))
    {
      result := SignIn(Account(id, email, NameFromEmail(email), now), write);
    }

    /** `register`: the account carries the given name. */
    method Register(name: string, email: string, id: int, now: string, write: Outcome) returns (result: Outcome)
      modifies this
      ensures result == write
      ensures write.Success? ==>
        stored == old(stored).(userData := Some(Account(id, email, name, now))) &&
        state == old(state).(user := Some(Account(id, email, name, now)), isAuthenticated := true,
                             loading := false, error := None)
      ensures write.Failure? ==>
        stored == old(stored) &&
        state == old(state).(user := None, isAuthenticated := false, loading := false,
                             error := Some(write.message))
    {
      result := SignIn(Account(id, email, name, now), write);
    }

    /** `logout`: after the keys are removed the state is reset; the stored
        preferences stay. A failed removal changes nothing. */
    method Logout(removal: Outcome)
      modifies this
      ensures removal.Success? ==>
        state == Initial.(loading := false) &&
        stored == Stored(None, None, None, None, old(stored).preferences)
      ensures removal.Failure? ==> state == old(state) && stored == old(stored)
    {
      if removal.Success? {
        stored := Stored(None, None, None, None, stored.preferences);
        state := Reduce(state, UserAction.Logout);
      }
    }

    /** `updateProfile`: stores the merged record, then merges it into the
        state; the two then agree. */
    method UpdateProfile(profile: Record, write: Outcome) returns (result: Outcome)
      modifies this
      ensures result == write
      ensures write.Success? ==>
        && state == old(state).(user := Some(MergeProfile(old(state).user, profile)))
        && stored == old(stored).(userData := state.user)
      ensures write.Failure? ==>
        state == old(state).(error := Some(write.message), loading := false) && stored == old(stored)
    {
      var updated := MergeProfile(state.user, profile);
      if write.Failure? {
        state := Reduce(state, UserAction.SetError(write.message));
        return write;
      }
      stored := stored.(userData := Some(updated));
      state := Reduce(state, UserAction.UpdateProfile(profile));
      result := Success;
    }

    /** `addFavorite`: the stored list equals the state's list afterwards; a
        failed write changes nothing. */
    method AddFavorite(business: Json, write: Outcome)
      modifies this
      ensures write.Success? ==>
        && state == old(state).(favorites := old(state).favorites + [business])
        && stored == old(stored).(favorites := Some(JArray(state.favorites)))
      ensures write.Failure? ==> state == old(state) && stored == old(stored)
    {
      if write.Success? {
        stored := stored.(favorites := Some(JArray(state.favorites + [business])));
        state := Reduce(state, UserAction.AddFavorite(business));
      }
    }

    /** `removeFavorite`. */
    method RemoveFavorite(id: Json, write: Outcome)
      modifies this
      ensures write.Success? ==>
        && state == old(state).(favorites := Filter(old(state).favorites, KeepsId(id)))
        && stored == old(stored).(favorites := Some(JArray(state.favorites)))
      ensures write.Failure? ==> state == old(state) && stored == old(stored)
    {
      if write.Success? {
        stored := stored.(favorites := Some(JArray(Filter(state.favorites, KeepsId(id)))));
        state := Reduce(state, UserAction.RemoveFavorite(id));
      }
    }

    /** `updateLoyaltyPoints`. */
    method UpdateLoyaltyPoints(points: int, write: Outcome)
      modifies this
      ensures write.Success? ==>
        state == old(state).(loyaltyPoints := points) && stored == old(stored).(loyaltyPoints := Some(points))
      ensures write.Failure? ==> state == old(state) && stored == old(stored)
    {
      if write.Success? {
        stored := stored.(loyaltyPoints := Some(points));
        state := Reduce(state, UserAction.UpdateLoyaltyPoints(points));
      }
    }

    /** `addBadge`. */
    method AddBadge(badge: Json, write: Outcome)
      modifies this
      ensures write.Success? ==>
        && state == old(state).(badges := old(state).badges + [badge])
        && stored == old(stored).(badges := Some(JArray(state.badges)))
      ensures write.Failure? ==> state == old(state) && stored == old(stored)
    {
      if write.Success? {
        stored := stored.(badges := Some(JArray(state.badges + [badge])));
        state := Reduce(state, UserAction.AddBadge(badge));
      }
    }

    /** `updatePreferences`. */
    method UpdatePreferences(changes: Record, write: Outcome)
      modifies this
      ensures write.Success? ==>
        && state == old(state).(preferences := Spread(old(state).preferences, changes))
        && stored == old(stored).(preferences := Some(state.preferences))
      ensures write.Failure? ==> state == old(state) && stored == old(stored)
    {
      if write.Success? {
        stored := stored.(preferences := Some(Spread(state.preferences, changes)));
        state := Reduce(state, UserAction.UpdatePreferences(changes));
      }
    }

    /** `clearError`. */
    method ClearError()
      modifies this
      ensures state == old(state).(error := None) && stored == old(stored)
    {
      state := Reduce(state, UserAction.ClearError);
    }
  }
}
