/**
 * Request sequences against a freshly started application, each stating
 * what the handlers promise across several calls. The before-request hook
 * runs only where a sequence calls `LoadGoogleUser`; between the other
 * calls it is as if the third-party profile were unavailable.
 */
module Scenarios {
  import opened Wrappers
  import opened Text
  import opened Catalog
  import opened Ledger
  import opened Accounts
  import opened FoodApp

  /** An order attempt without an identity is sent to log in and records nothing. */
  method OrderWithoutLogin(catalog: seq<Restaurant>, hashPassword: (string, string) -> string,
                           checkPassword: (string, string) -> bool,
                           restaurantId: Option<int>, itemId: Option<int>)
    returns (out: Outcome, ledgerSize: nat)
    ensures out == PleaseLogIn && ledgerSize == 0
  {
    var app := new App(catalog, hashPassword, checkPassword, map[]);
    out := app.PlaceOrder(restaurantId, itemId);
    ledgerSize := |app.orders|;
  }

  /**
   * With the demo catalog, "a@x.com" ordering item 1 of restaurant 1 records
   * one Margherita Pizza from Pizza Palace, which that identity's history shows.
   */
  method DemoOrder(hashPassword: (string, string) -> string, checkPassword: (string, string) -> bool)
    returns (out: Outcome, history: seq<Order>)
    ensures out == OrderPlaced("Margherita Pizza", "Pizza Palace")
    ensures history == [Order("Pizza Palace", "Margherita Pizza", Some("a@x.com"))]
  {
    var app := new App(DemoCatalog(), hashPassword, checkPassword, map[]);
    app.LoadGoogleUser(Profile(Some("a@x.com")));
    LookupUnique(DemoCatalog(), 0);
    ItemLookupUnique(DemoCatalog(), DemoCatalog()[0], 0);
    out := app.PlaceOrder(Some(1), Some(1));
    history := app.OrdersView();
  }

  /**
   * Two signups with one email: the first registers and logs in, the second
   * is refused, and the store holds one account under that email.
   */
  method DuplicateSignup(hashPassword: (string, string) -> string, checkPassword: (string, string) -> bool,
                         email: string, username1: string, password1: string, salt1: string,
                         username2: string, password2: string, salt2: string)
    returns (first: Outcome, second: Outcome, accounts: nat, owner: Option<User>)
    requires !AllSpace(email) && !AllSpace(username1) && !AllSpace(password1)
    requires !AllSpace(username2) && !AllSpace(password2)
    ensures first == SignedUp && second == AlreadyRegistered && accounts == 1
    ensures owner == Some(User(Strip(username1), Strip(email), hashPassword(salt1, Strip(password1))))
  {
    StripBlank(email); StripBlank(username1); StripBlank(password1);
    StripBlank(username2); StripBlank(password2);
    var app := new App(DemoCatalog(), hashPassword, checkPassword, map[]);
    first := app.Signup(username1, email, password1, salt1);
    second := app.Signup(username2, email, password2, salt2);
    accounts := |app.users|;
    owner := if Strip(email) in app.users then Some(app.users[Strip(email)]) else None;
  }

  /**
   * After signing up and logging out, logging in with the same email and
   * password succeeds, provided the hashing scheme accepts every password it hashed.
   */
  method SignupLogoutLogin(hashPassword: (string, string) -> string, checkPassword: (string, string) -> bool,
                           username: string, email: string, password: string, salt: string)
    returns (out: Outcome, identity: Option<string>)
    requires !AllSpace(username) && !AllSpace(email) && !AllSpace(password)
    requires forall p :: checkPassword(hashPassword(salt, p), p)
    ensures out == LoggedInOk && identity == Some(Strip(email))
  {
    StripBlank(username); StripBlank(email); StripBlank(password);
    var app := new App(DemoCatalog(), hashPassword, checkPassword, map[]);
    var signedUp := app.Signup(username, email, password, salt);
    var loggedOut := app.Logout();
    out := app.Login(email, password);
    identity := app.session;
  }

  /**
   * A password other than the one signed up with does not log in, provided
   * the hashing scheme accepts no other password than the one it hashed.
   */
  method WrongPassword(hashPassword: (string, string) -> string, checkPassword: (string, string) -> bool,
                       username: string, email: string, password: string, attempt: string, salt: string)
    returns (out: Outcome, identity: Option<string>)
    requires !AllSpace(username) && !AllSpace(email) && !AllSpace(password)
    requires forall p, q :: p != q ==> !checkPassword(hashPassword(salt, p), q)
    requires Strip(attempt) != Strip(password)
    ensures out == InvalidCredentials && identity == None
  {
    StripBlank(username); StripBlank(email); StripBlank(password);
    var app := new App(DemoCatalog(), hashPassword, checkPassword, map[]);
    var signedUp := app.Signup(username, email, password, salt);
    var loggedOut := app.Logout();
    out := app.Login(email, attempt);
    identity := app.session;
  }

  /**
   * Logging out twice is as good as once: both succeed and leave no identity.
   * Logout clears only the identity, not the third-party token, so a later
   * request whose hook still obtains the profile logs the same email back in.
   */
  method LogoutTwice(hashPassword: (string, string) -> string, checkPassword: (string, string) -> bool,
                     email: string)
    returns (first: Outcome, second: Outcome, identity: Option<string>)
    ensures first == LoggedOut && second == LoggedOut && identity == None
  {
    var app := new App(DemoCatalog(), hashPassword, checkPassword, map[]);
    app.LoadGoogleUser(Profile(Some(email)));
    first := app.Logout();
    second := app.Logout();
    identity := app.session;
  }

  /**
   * A third-party login sets the session to an email that need not belong
   * to any account in the store, and a later profile cannot replace it.
   */
  method GoogleIdentity(hashPassword: (string, string) -> string, checkPassword: (string, string) -> bool,
                        email: string, other: Option<string>)
    returns (identity: Option<string>, registered: bool)
    requires email != ""
    ensures identity == Some(email) && !registered
  {
    var app := new App(DemoCatalog(), hashPassword, checkPassword, map[]);
    app.LoadGoogleUser(Profile(Some(email)));
    app.LoadGoogleUser(Profile(other));
    identity := app.session;
    registered := email in app.users;
  }
}
