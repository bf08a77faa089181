/** The login gate: trims both fields, rejects empty fields and short
    passwords, compares against one fixed credential pair, remembers the user
    name on request, and counts failed attempts, sending the user to the
    error page from the third failure on. */
module Login {
  import opened Browser

  const ValidUsername: string := "Oshane Smith"
  const ValidPassword: string := "123456789"
  const MinPasswordLength: nat := 8
  const MaxFailedAttempts: nat := 3

  // ---------------------------------------------------------------------
  // String.prototype.trim

  /** The characters ECMAScript's trim removes: WhiteSpace (tab, vertical
      tab, form feed, space, no-break space, zero-width no-break space and
      the Unicode space separators) and LineTerminator (LF, CR, line and
      paragraph separators). */
  predicate IsSpace(c: char)
  {
    || c == '\t' || c == '\n' || c == '\U{B}' || c == '\U{C}' || c == '\r'
    || c == ' ' || c == '\U{A0}' || c == '\U{1680}'
    || ('\U{2000}' <= c <= '\U{200A}')
    || c == '\U{2028}' || c == '\U{2029}' || c == '\U{202F}'
    || c == '\U{205F}' || c == '\U{3000}' || c == '\U{FEFF}'
  }

  predicate AllSpace(s: string)
  {
    forall i :: 0 <= i < |s| ==> IsSpace(s[i])
  }

  /** The length of the longest all-space prefix. */
  function LeadingSpace(s: string): (k: nat)
    ensures k <= |s|
    ensures forall i :: 0 <= i < k ==> IsSpace(s[i])
    ensures k < |s| ==> !IsSpace(s[k])
  {
    if s != [] && IsSpace(s[0]) then LeadingSpace(s[1..]) + 1 else 0
  }

  /** The length of the longest all-space suffix. */
  function TrailingSpace(s: string): (k: nat)
    ensures k <= |s|
    ensures forall i :: |s| - k <= i < |s| ==> IsSpace(s[i])
    ensures k < |s| ==> !IsSpace(s[|s| - 1 - k])
  {
    if s != [] && IsSpace(s[|s| - 1]) then TrailingSpace(s[..|s| - 1]) + 1 else 0
  }

  /** s is an all-space run of length lo, then r, then an all-space run. */
  ghost predicate SplitsAt(s: string, lo: nat, r: string)
  {
    && lo + |r| <= |s|
    && (forall i :: 0 <= i < lo ==> IsSpace(s[i]))
    && (forall i :: 0 <= i < |r| ==> r[i] == s[lo + i])
    && (forall i :: lo + |r| <= i < |s| ==> IsSpace(s[i]))
  }

  /** r is s with its leading and trailing whitespace cut off: r sits
      between two all-space runs of s and neither starts nor ends with
      whitespace. */
  ghost predicate IsTrimOf(r: string, s: string)
  {
    && (r == [] || (!IsSpace(r[0]) && !IsSpace(r[|r| - 1])))
    && exists lo: nat :: SplitsAt(s, lo, r)
  }

  function Trim(s: string): (r: string)
    ensures IsTrimOf(r, s)
  {
    var lo := LeadingSpace(s);
    if lo == |s| then
      assert SplitsAt(s, lo, []);
      []
    else
      var hi := |s| - TrailingSpace(s);
      assert lo < hi;
      assert SplitsAt(s, lo, s[lo..hi]);
      s[lo..hi]
  }

  /** A field counts as empty exactly when it holds nothing but whitespace. */
  lemma TrimEmptyIffBlank(s: string)
    ensures Trim(s) == [] <==> AllSpace(s)
  {
    var r := Trim(s);
    var lo: nat :| SplitsAt(s, lo, r);
    if r != [] {
      assert r[0] == s[lo];
    }
  }

  /** A field that neither starts nor ends with whitespace is left as it is. */
  lemma TrimKeepsTrimmed(s: string)
    requires s == [] || (!IsSpace(s[0]) && !IsSpace(s[|s| - 1]))
    ensures Trim(s) == s
  {
    if s != [] {
      assert LeadingSpace(s) == 0;
      assert s[0..] == s;
      assert TrailingSpace(s) == 0;
      assert s[..|s|] == s;
    }
  }

  /** Trimming a trimmed field changes nothing. */
  lemma TrimIdempotent(s: string)
    ensures Trim(Trim(s)) == Trim(s)
  {
    TrimKeepsTrimmed(Trim(s));
  }

  // ---------------------------------------------------------------------
  // The decision on trimmed fields.

  datatype LoginOutcome = FieldsRequired | PasswordTooShort | LoggedIn | InvalidCredentials

  /** The early returns and the credential check of the login handler, in
      their order. The length check never rejects the valid password. */
  function Classify(username: string, password: string): (o: LoginOutcome)
    ensures o == LoggedIn <==> username == ValidUsername && password == ValidPassword
    ensures o == FieldsRequired <==> username == [] || password == []
    ensures o == PasswordTooShort <==> username != [] && 0 < |password| < MinPasswordLength
    ensures o == InvalidCredentials <==>
      username != [] && |password| >= MinPasswordLength && (username != ValidUsername || password != ValidPassword)
  {
    if username == [] || password == [] then FieldsRequired
    else if |password| < MinPasswordLength then PasswordTooShort
    else if username == ValidUsername && password == ValidPassword then LoggedIn
    else InvalidCredentials
  }

  /** The remembered user name the page pre-fills, if the store holds a
      non-empty one. */
  function RememberedName(v: Option<StoredValue>): (name: Option<string>)
    ensures name.Some? <==> v.Some? && v.value.Text? && v.value.text != []
    ensures name.Some? ==> name.value == v.value.text
  {
    match v
    case Some(Text(t)) => if t != [] then Some(t) else None
    case _ => None
  }

  // ---------------------------------------------------------------------
  // The page.

  class LoginPage {
    const store: LocalStorage
    var failedAttempts: nat
    /** The contents of the username field and of the remember-me box. */
    var usernameField: string
    var rememberMeChecked: bool

    /** Page load, given the form's contents before the script runs: the
        counter starts at zero and a remembered name fills the form. */
    constructor (store: LocalStorage, usernameField: string, rememberMeChecked: bool)
      ensures this.store == store && failedAttempts == 0
      ensures var name := RememberedName(store.GetItem(RememberedUsernameKey));
        if name.Some? then this.usernameField == name.value && this.rememberMeChecked
        else this.usernameField == usernameField && this.rememberMeChecked == rememberMeChecked
    {
      this.store := store;
      failedAttempts := 0;
      var name := RememberedName(store.GetItem(RememberedUsernameKey));
      if name.Some? {
        this.usernameField := name.value;
        this.rememberMeChecked := true;
      } else {
        this.usernameField := usernameField;
        this.rememberMeChecked := rememberMeChecked;
      }
    }

    /** The login button, given the raw field contents at the time of the
        click. */
    method HandleLogin(usernameValue: string, passwordValue: string, rememberMe: bool)
      returns (outcome: LoginOutcome, redirect: Redirect)
      modifies this, store
      ensures outcome == Classify(Trim(usernameValue), Trim(passwordValue))
      ensures outcome == FieldsRequired || outcome == PasswordTooShort ==>
        failedAttempts == old(failedAttempts) && store.items == old(store.items) && redirect == Stay
      ensures outcome == LoggedIn ==>
        && failedAttempts == old(failedAttempts)
        && store.items == (if rememberMe then old(store.items)[RememberedUsernameKey := Text(ValidUsername)]
                           else old(store.items) - {RememberedUsernameKey})
        && redirect == ToServices
      ensures outcome == InvalidCredentials ==>
        && failedAttempts == old(failedAttempts) + 1
        && store.items == old(store.items)
        && redirect == (if failedAttempts >= MaxFailedAttempts then ToError else Stay)
      ensures usernameField == old(usernameField) && rememberMeChecked == old(rememberMeChecked)
    {
      var username := Trim(usernameValue);
      var password := Trim(passwordValue);
      if username == [] || password == [] {
        return FieldsRequired, Stay;
      }
      if |password| < MinPasswordLength {
        return PasswordTooShort, Stay;
      }
      if username == ValidUsername && password == ValidPassword {
        if rememberMe {
          store.SetItem(RememberedUsernameKey, Text(ValidUsername));
        } else {
          store.RemoveItem(RememberedUsernameKey);
        }
        return LoggedIn, ToServices;
      }
      failedAttempts := failedAttempts + 1;
      redirect := Stay;
      if failedAttempts >= MaxFailedAttempts {
        redirect := ToError;
      }
      outcome := InvalidCredentials;
    }
  }

  // ---------------------------------------------------------------------
  // Uses of the page that exercise its contracts.

  /** Blank fields and short passwords never count as failures; the error
      page comes on the third wrong password and not before, for any raw
      inputs whose trimmed forms are of those kinds. */
  method ThirdFailureRedirects(user: string, wrong: string, blank: string, short: string)
    returns (redirects: seq<Redirect>, attempts: nat)
    requires Trim(user) == ValidUsername
    requires |Trim(wrong)| >= MinPasswordLength && Trim(wrong) != ValidPassword
    requires AllSpace(blank)
    requires 0 < |Trim(short)| < MinPasswordLength
    ensures redirects == [Stay, Stay, Stay, Stay, ToError]
    ensures attempts == 3
  {
    var store := new LocalStorage(map[]);
    var page := new LoginPage(store, "", false);
    TrimEmptyIffBlank(blank);
    var o1, r1 := page.HandleLogin(user, wrong, false);
    var o2, r2 := page.HandleLogin(blank, blank, false);
    var o3, r3 := page.HandleLogin(user, short, false);
    var o4, r4 := page.HandleLogin(user, wrong, true);
    var o5, r5 := page.HandleLogin(user, wrong, false);
    redirects := [r1, r2, r3, r4, r5];
    attempts := page.failedAttempts;
  }
}
