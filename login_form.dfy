/**
 * The sign-in form (src/components/auth/LoginForm.tsx). The simulated login
 * accepts any non-empty email and password and records the session in local
 * storage; the one-second delay is the gap between `Submit` and
 * `CompleteSubmit`.
 */
module LoginForm {
  import opened Optional
  import opened Storage
  import Index

  /** The store after a successful sign-in as `email`. */
  function LoggedIn(items: map<string, string>, email: string): map<string, string> {
    items["isAuthenticated" := "true"]["userEmail" := email]
  }

  /**
   * A successful sign-in is restored by the next load of the app, writes no
   * key but the two it names, and never puts the password into the store.
   */
  lemma SignInIsRestored(items: map<string, string>, email: string, password: string)
    ensures Index.StoredAuth(LoggedIn(items, email))
    ensures LoggedIn(items, email).Keys == items.Keys + {"isAuthenticated", "userEmail"}
    ensures forall k :: k in items && k !in {"isAuthenticated", "userEmail"} ==> LoggedIn(items, email)[k] == items[k]
    ensures password in LoggedIn(items, email).Values ==> password in items.Values || password == "true" || password == email
  {
    var m := LoggedIn(items, email);
    if password in m.Values {
      var k :| k in m && m[k] == password;
      if k != "isAuthenticated" && k != "userEmail" {
        assert items[k] == password;
      }
    }
  }

  /** Logging out after signing in leaves the store as logging out alone would. */
  lemma LogoutUndoesSignIn(items: map<string, string>, email: string)
    ensures Index.AfterLogout(LoggedIn(items, email)) == Index.AfterLogout(items)
    ensures !Index.StoredAuth(Index.AfterLogout(LoggedIn(items, email)))
  {
  }

  class SignInForm {
    var email: string
    var password: string
    var isLoading: bool
    /** The email and password as the timer callback captured them when the form was submitted. */
    var pending: Option<(string, string)>

    ghost predicate Valid()
      reads this
    {
      isLoading <==> pending.Some?
    }

    constructor ()
      ensures Valid() && email == "" && password == "" && !isLoading
    {
      email, password, isLoading, pending := "", "", false, None;
    }

    /** Typing an email; the fields stay editable while a sign-in is pending. */
    method SetEmail(value: string)
      requires Valid()
      modifies this`email
      ensures Valid() && email == value
    {
      email := value;
    }

    method SetPassword(value: string)
      requires Valid()
      modifies this`password
      ensures Valid() && password == value
    {
      password := value;
    }

    /**
     * `handleSubmit` up to its timer: the button shows "Signing in..." and is
     * disabled, and the callback keeps the fields as they are now. Both inputs
     * are `required`, so the browser submits only when both are filled.
     */
    method Submit()
      requires Valid() && !isLoading && email != "" && password != ""
      modifies this`isLoading, this`pending
      ensures Valid() && isLoading && pending == Some((email, password))
    {
      isLoading, pending := true, Some((email, password));
    }

    /**
     * The timer callback: with both captured fields filled the session is
     * written and `loginSuccess` reports that `onLoginSuccess` is called;
     * otherwise the store is untouched. Edits made after submitting play no
     * part. Loading ends on both branches.
     */
    method CompleteSubmit(store: LocalStorage) returns (loginSuccess: bool)
      requires Valid() && isLoading
      modifies store, this`isLoading, this`pending
      ensures Valid() && !isLoading
      ensures var (capturedEmail, capturedPassword) := old(pending).value;
        && (loginSuccess <==> capturedEmail != "" && capturedPassword != "")
        && store.items == if loginSuccess then LoggedIn(old(store.items), capturedEmail) else old(store.items)
    {
      var (capturedEmail, capturedPassword) := pending.value;
      loginSuccess := false;
      if capturedEmail != "" && capturedPassword != "" {
        store.SetItem("isAuthenticated", "true");
        store.SetItem("userEmail", capturedEmail);
        loginSuccess := true;
      }
      isLoading, pending := false, None;
    }
  }

  /**
   * Clearing the email while the sign-in is pending does not stop it: the
   * session is written with the email captured at submission.
   */
  method ClearEmailWhilePending(store: LocalStorage) returns (loginSuccess: bool)
    modifies store
    ensures loginSuccess && store.items == LoggedIn(old(store.items), "a@b.c")
  {
    var form := new SignInForm();
    form.SetEmail("a@b.c");
    form.SetPassword("pw");
    form.Submit();
    form.SetEmail("");
    loginSuccess := form.CompleteSubmit(store);
  }
}
