# Food ordering demo: request-handling workflow

This project models the request handlers of a small food-ordering web
application (`app.py`) and proves what they promise. The handlers work over four
pieces of state:

- the **catalog**: a read-only list of restaurants, each with a menu of `(id, name, price)` items;
- the **order ledger**: a list of placed orders that only ever grows;
- the **user store**: accounts keyed by email, each holding a username and a password hash;
- the **session identity**: an optional email.

Modules, leaf first:

- `Wrappers` holds `Option`.
- `Text` models Python's `str.strip()`, which every signup and login form field goes through. It uses Python's full set of `isspace` characters.
- `Catalog` holds the restaurant and menu records, the demo data and the first-match lookups. These are the `next(...)` generator expressions.
- `Ledger` holds the order record and the order-history filter. This is the list comprehension in `orders_view`.
- `Accounts` holds the account record and the invariant that each account is stored under its own email.
- `FoodApp` holds the class `App`. It has one method per state-changing route: `PlaceOrder`, `Signup`, `Login`, `Logout`, and `LoadGoogleUser` (the before-request hook). Each method's `ensures` gives the redirect target, the flash category and message, and the complete new state on every branch. `Valid()` is kept by every method. It says:
  - each account is stored under its own email, so no two accounts share an email;
  - every ledger entry was placed by a truthy identity;
  - every ledger entry names an item on the catalog's menu.
- `Scenarios` holds request sequences run against a freshly started `App`. They state what several calls promise together: duplicate signup, signup then login, a wrong password, logging out twice, the demo order, and a third-party login.

Inputs that come from outside the handlers:

- Form parsing with `int()` arrives as `Option<int>`.
- The third-party profile fetch arrives as a `GoogleProfile`: either `Unavailable` (not authorized, response not ok, or an exception) or `Profile(email claim)`.
- `set_password` and `check_password` are the class constants `hashPassword(salt, password)` and `checkPassword(hash, password)`. They are opaque functions; the salt is a parameter of `Signup`.

"Logged in" is Python truthiness of `session.get('user')`: present and not the empty string.

Three things one might expect of the code do not hold, and the model follows the code:

- The code does not check that the posted ids are positive. Any integer that parses is looked up.
- A third-party login writes the profile's email into the session whether or not an account has it (`Scenarios.GoogleIdentity`). So "the session identity is some account's email" is not an invariant of the code. If the profile has no email claim, the session is set to `None`.
- The order-history filter compares each entry's user with the session value, so an anonymous viewer would see entries whose user is unset. No such entry can exist: an order is only appended after the truthy-identity check. `AnonymousViewEmpty` proves that an anonymous or falsy viewer always sees an empty history.

## Model

| member | source | states |
|---|---|---|
| Text.Strip | app.py:99-101 | the stripped field is a contiguous slice of the input, everything cut off either end is whitespace, and the result neither starts nor ends with whitespace |
| Text.StripBlank | app.py:102 | a stripped field is empty exactly when the raw field is all whitespace (or empty) |
| Text.StripUnchanged | app.py:100 | a value that neither starts nor ends with whitespace is left unchanged |
| Text.StripIdempotent | app.py:125 | stripping an already stripped email or password changes nothing, so the email stored at signup is found again when it is typed at login |
| Catalog.FirstMatch | app.py:61 | the result is the position of the first element satisfying the test; none exactly when no element does |
| Catalog.FindRestaurant | app.py:78 | the result is a restaurant of the catalog with the key as id and no earlier restaurant has that id; none exactly when no restaurant has that id |
| Catalog.FindItem | app.py:82 | the result is an item of the menu with the key as id and no earlier item has that id; none exactly when no item has that id |
| Catalog.RestaurantPage | app.py:59-64 | the detail route answers 404 exactly when no restaurant has the id, and otherwise shows a catalog restaurant with that id |
| Catalog.DemoCatalog | app.py:29-38 | the demo data has unique restaurant ids and unique item ids within each menu |
| Catalog.LookupUnique | app.py:78 | with unique ids, looking up a restaurant's id finds that restaurant |
| Catalog.ItemLookupUnique | app.py:82 | with unique ids, looking up an item's id within its restaurant finds that item |
| Ledger.OrdersFor | app.py:93 | the history is a subsequence of the ledger; every entry in it has the viewer's identity; every matching entry appears as often as in the ledger and no other entry appears |
| Ledger.OrdersForAppend | app.py:93 | the history of a ledger extended by appending is the old history followed by the history of the appended entries |
| Ledger.OrdersForNone | app.py:93 | a viewer whose identity no entry carries sees an empty history |
| FoodApp.AnonymousViewEmpty | app.py:68-93 | given the ledger invariant, a viewer with no identity or an empty one always sees an empty history |
| FoodApp.App.constructor | app.py:39 | at process start the ledger is empty and the store holds the persisted accounts; a new browser session is anonymous |
| FoodApp.App.OrdersView | app.py:91-94 | the history route shows only entries of the current identity, as a subsequence of the ledger, and nothing for an anonymous or falsy identity |
| FoodApp.App.PlaceOrder | app.py:66-89 | the first failure decides the outcome, checked in this order: not logged in (redirect to login), an unparseable id ("invalid data", home), an unknown restaurant (home), an unknown item (that restaurant's page); each failure leaves the ledger unchanged; success appends exactly the entry (restaurant name, item name, session identity), redirects to the history, and the session's history becomes the old history plus that entry; store and session never change; the ledger grows exactly when the target is the history page |
| FoodApp.App.Signup | app.py:96-119 | any blank stripped field changes nothing; an email already in the store changes nothing and redirects to login; otherwise the store gains exactly that account with the hash of the stripped password and the session becomes the stripped email; no existing account is ever replaced; the ledger is untouched |
| FoodApp.App.Login | app.py:122-134 | success, with the session set to the stripped email, happens exactly when that email has an account whose hash accepts the stripped password; otherwise the session is unchanged and the outcome is the invalid-credentials redirect to login; store and ledger never change |
| FoodApp.App.Logout | app.py:137-141 | the session is anonymous afterwards whatever it was; ledger and store are unchanged |
| FoodApp.App.LoadGoogleUser | app.py:42-53 | a truthy session is kept; otherwise an unavailable profile changes nothing and an available one writes its email claim into the session; ledger and store never change |
| Scenarios.OrderWithoutLogin | app.py:66-70 | an order attempt without an identity is sent to log in and records no order |
| Scenarios.DemoOrder | app.py:29-93 | with the demo catalog, identity "a@x.com" ordering restaurant 1, item 1 records one Margherita Pizza from Pizza Palace, and the history of that identity shows exactly that order |
| Scenarios.DuplicateSignup | app.py:106-117 | of two signups with one email (every field non-blank) the first succeeds and the second is refused; the store holds one account, and it is the first signup's |
| Scenarios.SignupLogoutLogin | app.py:112-130 | after signup and logout, a login with the same email and password succeeds when the hashing scheme accepts every password it hashed (every field non-blank) |
| Scenarios.WrongPassword | app.py:128-134 | after signup and logout, a login with a different password fails with invalid credentials and leaves the session anonymous, when the hashing scheme accepts no password other than the one it hashed |
| Scenarios.LogoutTwice | app.py:137-141 | logging out twice succeeds both times and leaves the session anonymous (a later hook run with the third-party profile still available would restore the email) |
| Scenarios.GoogleIdentity | app.py:42-51 | a third-party login sets the session to an email that has no account, and a later profile does not replace it |

## Left out

- Rendering and routing (`render_template`, `url_for`, the `home` route, the GET branches of `/signup` and `/login`): these only render templates and change no state. Outcomes are modelled as a redirect target plus a flash category and message.
- The third-party OAuth blueprint and its HTTP call (app.py:21-26, 47-50): these are network calls. Their result is an input (`GoogleProfile`), and a raised exception is the `Unavailable` case.
- Database persistence (app.py:14-18, 114-115, 145-146): replaced by an in-memory map. Store errors, which the code lets propagate as a server error, are not modelled.
- Password hashing (`User.set_password` and `check_password`, in models.py): models.py is not part of this model. Hashing is an opaque function of a salt and the password; checking is an opaque predicate.
- Python's `int()` parsing rules (whitespace, sign, underscores): parse success is the `Option<int>` input.
- Environment and configuration loading, and `app.run` (app.py:1-11, 144-147): process setup only.
- Concurrent request handling: the code has no locking, and each request is modelled as one atomic method call.
- The third-party token that the session keeps beside the identity: logout (app.py:139) removes only the identity, so while the token is valid the next request's hook logs the profile's email back in; the model covers this only as `LoadGoogleUser` receiving an available profile.
- Several browser sessions at once: the model holds one session identity beside the shared ledger and store. Setting `session['user']` to `None` and popping it are modelled as the same state, because every handler reads both as `None`.
