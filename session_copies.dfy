/**
 * How the context's copy of the session and the persisted copy relate when the HTTP
 * client's own `authService` also writes storage: its login writes only the token, and
 * its logout removes only the token.
 */
module SessionCopies {
  import opened Wrappers
  import opened Browser
  import opened Users
  import opened AuthContext
  import Api

  /**
   * The client's logout after a context sign-in: memory still holds the user, but a
   * reload restores nobody, and the stored user stays. No component calls the client's
   * logout, so this is what that operation would do, not a path the pages take.
   */
  lemma ClientLogoutDiverges(s: Session)
    requires Agrees(s) && s.user.Some?
    ensures var e := s.entries - {TokenKey};
      && !Agrees(Session(s.user, e))
      && UserKey in e && e[UserKey] == s.entries[UserKey]
  {
  }

  /**
   * The client's login next to a user left in storage by an earlier session: the new
   * token is written, the old user is not replaced, so a reload restores the old user
   * whoever has just logged in.
   */
  lemma {:induction false} ClientLoginRestoresEarlierUser(entries: Entries, earlier: User, data: Api.ResponseData)
    requires UserKey in entries && entries[UserKey] == Encode(earlier)
    requires Truthy(data.token)
    ensures Reloaded(Api.StoreToken(entries, data)) == Some(earlier)
  {
    DecodeEncode(earlier);
    var e := Api.StoreToken(entries, data);
    assert Lookup(e, UserKey) == Some(Encode(earlier));
    assert Encode(earlier) != "" by {
      assert |Encode(earlier)| >= 1 + |earlier.email|;
    }
  }

  /** A concrete instance: `bob` has just logged in, `ann` is what a reload restores. */
  lemma EarlierUserWins()
    ensures var ann := User("ann@example.com", None, Some("admin"));
      var bob := User("bob@example.com", None, None);
      Reloaded(Api.StoreToken(map[UserKey := Encode(ann)], Api.ResponseData(Some("t"), Some(bob)))) == Some(ann)
  {
    var ann := User("ann@example.com", None, Some("admin"));
    ClientLoginRestoresEarlierUser(map[UserKey := Encode(ann)], ann,
      Api.ResponseData(Some("t"), Some(User("bob@example.com", None, None))));
  }
}
