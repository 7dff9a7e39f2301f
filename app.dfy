/**
 * The request handlers of the food-ordering application, over its four
 * pieces of state: the read-only catalog, the order ledger, the user store
 * and the session identity.
 */
module FoodApp {
  import opened Wrappers
  import opened Text
  import opened Catalog
  import opened Ledger
  import opened Accounts

  /** Where a handler redirects to. */
  datatype Target = Home | LoginForm | SignupForm | RestaurantDetail(restaurantId: int) | OrdersPage

  /** The category of the flashed notification. */
  datatype Category = Warning | Danger | Success | Info

  /** What a POST handler answers: a redirect together with one flashed message. */
  datatype Outcome = Redirect(target: Target, category: Category, message: string)

  /** The result of the third-party profile fetch made before each request. */
  datatype GoogleProfile =
    | Unavailable                      // not authorized, response not ok, or the call raised
    | Profile(email: Option<string>)   // the profile's `email` claim, if it has one

  const PleaseLogIn := Redirect(LoginForm, Warning, "Please log in to place an order.")
  const InvalidOrderData := Redirect(Home, Danger, "Invalid order data.")
  const RestaurantNotFound := Redirect(Home, Danger, "Restaurant not found.")
  const FillAllFields := Redirect(SignupForm, Warning, "Please fill all fields.")
  const AlreadyRegistered := Redirect(LoginForm, Warning, "Email already registered. Please log in.")
  const SignedUp := Redirect(Home, Success, "Signup successful! You are now logged in.")
  const LoggedInOk := Redirect(Home, Success, "Logged in successfully.")
  const InvalidCredentials := Redirect(LoginForm, Danger, "Invalid credentials. Please try again.")
  const LoggedOut := Redirect(Home, Info, "You have been logged out.")

  function ItemNotFound(restaurantId: int): (out: Outcome) {
    Redirect(RestaurantDetail(restaurantId), Danger, "Menu item not found.")
  }

  function OrderPlaced(item: string, restaurant: string): (out: Outcome) {
    Redirect(OrdersPage, Success, "Order placed: " + item + " from " + restaurant)
  }

  /** Python truthiness of `session.get('user')`: present and not the empty string. */
  predicate LoggedIn(identity: Option<string>) {
    identity.Some? && identity.value != ""
  }

  /** What holds of every entry of the ledger: placed by a logged-in identity, for an item on offer. */
  ghost predicate Placed(catalog: seq<Restaurant>, o: Order) {
    LoggedIn(o.user) && Offered(catalog, o.restaurant, o.item)
  }

  /**
   * The orders of an anonymous viewer (no identity, or a falsy one) are
   * always empty: no order can be placed without a truthy identity.
   */
  lemma AnonymousViewEmpty(catalog: seq<Restaurant>, ledger: seq<Order>, viewer: Option<string>)
    requires forall k :: 0 <= k < |ledger| ==> Placed(catalog, ledger[k])
    requires !LoggedIn(viewer)
    ensures OrdersFor(ledger, viewer) == []
  {
    OrdersForNone(ledger, viewer);
  }

  class App {
    const catalog: seq<Restaurant>
    /** `set_password`: the salted hash of a password. */
    const hashPassword: (string, string) -> string
    /** `check_password`: whether a password matches a stored hash. */
    const checkPassword: (string, string) -> bool

    var orders: seq<Order>
    var users: map<string, User>
    var session: Option<string>

    ghost predicate Valid()
      reads this
    {
      KeyedByEmail(users) &&
      forall k :: 0 <= k < |orders| ==> Placed(catalog, orders[k])
    }

    /** Process start, seen from a new browser: an empty ledger, the persisted accounts, an anonymous session. */
    constructor (catalog: seq<Restaurant>, hashPassword: (string, string) -> string,
                 checkPassword: (string, string) -> bool, users: map<string, User>)
      requires KeyedByEmail(users)
      ensures Valid()
      ensures this.catalog == catalog && this.hashPassword == hashPassword && this.checkPassword == checkPassword
      ensures orders == [] && this.users == users && session == None
    {
      this.catalog := catalog;
      this.hashPassword := hashPassword;
      this.checkPassword := checkPassword;
      orders := [];
      this.users := users;
      session := None;
    }

    /**
     * The order history route: the ledger entries of the current identity,
     * in ledger order; nothing for an anonymous or falsy identity.
     */
    function OrdersView(): (r: seq<Order>)
      requires Valid()
      reads this
      ensures forall k :: 0 <= k < |r| ==> r[k].user == session
      ensures IsSubsequence(r, orders)
      ensures !LoggedIn(session) ==> r == []
    {
      var r := OrdersFor(orders, session);
      assert !LoggedIn(session) ==> r == [] by {
        if !LoggedIn(session) { AnonymousViewEmpty(catalog, orders, session); }
      }
      r
    }

    /**
     * POST /order. The first failing check decides the outcome: no identity,
     * then an unparseable id, then an unknown restaurant, then an unknown
     * item. Only when every check passes is exactly one entry appended.
     */
    method PlaceOrder(restaurantId: Option<int>, itemId: Option<int>) returns (out: Outcome)
      requires Valid()
      modifies this
      ensures Valid()
      ensures users == old(users) && session == old(session)
      ensures !LoggedIn(session) ==> out == PleaseLogIn && orders == old(orders)
      ensures LoggedIn(session) && (restaurantId.None? || itemId.None?) ==>
                out == InvalidOrderData && orders == old(orders)
      ensures LoggedIn(session) && restaurantId.Some? && itemId.Some? ==>
                match FindRestaurant(catalog, restaurantId.value)
                case None => out == RestaurantNotFound && orders == old(orders)
                case Some(rest) =>
                  match FindItem(rest.menu, itemId.value)
                  case None => out == ItemNotFound(restaurantId.value) && orders == old(orders)
                  case Some(item) =>
                    out == OrderPlaced(item.name, rest.name) &&
                    orders == old(orders) + [Order(rest.name, item.name, session)]
      ensures out.target == OrdersPage <==> orders != old(orders)
      ensures |orders| == |old(orders)| + 1 ==> OrdersView() == old(OrdersView()) + [orders[|orders| - 1]]
    {
      if !LoggedIn(session) {
        return PleaseLogIn;
      }
      if restaurantId.None? || itemId.None? {
        return InvalidOrderData;
      }
      var rest := FindRestaurant(catalog, restaurantId.value);
      if rest.None? {
        return RestaurantNotFound;
      }
      var item := FindItem(rest.value.menu, itemId.value);
      if item.None? {
        return ItemNotFound(restaurantId.value);
      }
      var entry := Order(rest.value.name, item.value.name, session);
      assert Offered(catalog, entry.restaurant, entry.item) by {
        assert rest.value in catalog && item.value in rest.value.menu;
      }
      assert OrdersFor([entry], session) == [entry] by {
        assert [entry][1..] == [];
      }
      OrdersForAppend(orders, [entry], session);
      orders := orders + [entry];
      out := OrderPlaced(item.value.name, rest.value.name);
    }

    /**
     * POST /signup. Blank fields (after stripping) change nothing; an email
     * already in the store changes nothing and sends the caller to log in;
     * otherwise the store gains one account and the session becomes its email.
     */
    method Signup(usernameField: string, emailField: string, passwordField: string, salt: string)
      returns (out: Outcome)
      requires Valid()
      modifies this
      ensures Valid()
      ensures orders == old(orders)
      ensures var username, email, password := Strip(usernameField), Strip(emailField), Strip(passwordField);
              if username == [] || email == [] || password == [] then
                out == FillAllFields && users == old(users) && session == old(session)
              else if email in old(users) then
                out == AlreadyRegistered && users == old(users) && session == old(session)
              else
                out == SignedUp && session == Some(email) &&
                users == old(users)[email := User(username, email, hashPassword(salt, password))]
      ensures forall e :: e in old(users) ==> e in users && users[e] == old(users)[e]
      ensures |old(users)| <= |users| <= |old(users)| + 1
    {
      var username := Strip(usernameField);
      var email := Strip(emailField);
      var password := Strip(passwordField);
      if username == [] || email == [] || password == [] {
        return FillAllFields;
      }
      if email in users {
        return AlreadyRegistered;
      }
      users := users[email := User(username, email, hashPassword(salt, password))];
      session := Some(email);
      out := SignedUp;
    }

    /**
     * POST /login. The session becomes the stripped email exactly when an
     * account with that email exists and the password matches its hash.
     */
    method Login(emailField: string, passwordField: string) returns (out: Outcome)
      requires Valid()
      modifies this
      ensures Valid()
      ensures orders == old(orders) && users == old(users)
      ensures var email, password := Strip(emailField), Strip(passwordField);
              if email in users && checkPassword(users[email].passwordHash, password) then
                out == LoggedInOk && session == Some(email)
              else
                out == InvalidCredentials && session == old(session)
    {
      var email := Strip(emailField);
      var password := Strip(passwordField);
      if email in users && checkPassword(users[email].passwordHash, password) {
        session := Some(email);
        return LoggedInOk;
      }
      out := InvalidCredentials;
    }

    /** GET /logout: the session is anonymous afterwards, whatever it was. */
    method Logout() returns (out: Outcome)
      requires Valid()
      modifies this
      ensures Valid()
      ensures orders == old(orders) && users == old(users)
      ensures session == None && out == LoggedOut
    {
      session := None;
      out := LoggedOut;
    }

    /**
     * Run before every request: a truthy identity is kept; otherwise an
     * available third-party profile writes its email claim (possibly absent)
     * into the session, and an unavailable one changes nothing.
     */
    method LoadGoogleUser(profile: GoogleProfile)
      requires Valid()
      modifies this
      ensures Valid()
      ensures orders == old(orders) && users == old(users)
      ensures LoggedIn(old(session)) ==> session == old(session)
      ensures !LoggedIn(old(session)) ==>
                session == if profile.Unavailable? then old(session) else profile.email
    {
      if LoggedIn(session) {
        return;
      }
      if profile.Profile? {
        session := profile.email;
      }
    }
  }
}
