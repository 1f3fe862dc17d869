/**
 * The sign-in page (pages/LoginPage.tsx): a mock authentication that builds a user from the
 * entered email alone and hands it to the store.
 */
module Login {
  import opened Util
  import opened Types
  import opened Strings
  import opened Store

  /**
   * The user built on submit: always id "U1" and name "John Doe", the entered email kept
   * as entered, and the ADMIN role exactly when the email contains "admin" (case-sensitive).
   */
  function MockUser(email: string): (u: User)
    ensures u.id == "U1" && u.name == "John Doe" && u.email == email
    ensures u.role == ADMIN <==> Contains(email, "admin")
    ensures u.role == ADMIN || u.role == USER
  {
    User("U1", "John Doe", email, if Contains(email, "admin") then ADMIN else USER)
  }

  /** Signing in opens the orders page to everybody and the admin area to "admin" emails only. */
  lemma SignedInRoutes(email: string)
    ensures OrdersRoute(Some(MockUser(email))) == Render
    ensures AdminRoute(Some(MockUser(email))) == Render <==> Contains(email, "admin")
  {
  }

  /** A string without the needle's first character does not contain the needle. */
  lemma MissingFirstChar(hay: string, needle: string)
    requires |needle| > 0 && needle[0] !in hay
    ensures !Contains(hay, needle)
  {
    if exists i :: OccursAt(needle, hay, i) {
      var i :| OccursAt(needle, hay, i);
      assert hay[i..i + |needle|][0] == needle[0];
    }
  }

  /** "admin@nova.com" signs in as an administrator; the test is case-sensitive, so "ADMIN@NOVA.COM" does not. */
  lemma AdminEmailFixture()
    ensures MockUser("admin@nova.com").role == ADMIN
    ensures MockUser("ADMIN@NOVA.COM").role == USER
  {
    assert OccursAt("admin", "admin@nova.com", 0);
    MissingFirstChar("ADMIN@NOVA.COM", "admin");
  }

  /**
   * Submitting the form: the mock user is handed to the store once and the page moves to
   * the home route. The password is accepted but never looked at.
   */
  method HandleSubmit(app: AppState, email: string, password: string) returns (navigateTo: string)
    modifies app`currentUser, app`toast
    ensures app.currentUser == Some(MockUser(email))
    ensures app.toast == Some(Toast("Welcome, John Doe!", Success))
    ensures AdminRoute(app.currentUser) == Render <==> Contains(email, "admin")
    ensures navigateTo == "/"
  {
    app.HandleLogin(MockUser(email));
    assert "Welcome, " + MockUser(email).name + "!" == "Welcome, John Doe!";
    navigateTo := "/";
  }
}
