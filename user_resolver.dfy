/** The per-user list operations and the password change of the user
    resolver (src/resolvers/user.ts): the cart, a list of product ids that
    may repeat and holds at most 50 entries, and the favourites, a list that
    holds at most 100. */
module UserResolver {
  import opened Wrappers
  import opened UserModel
  import opened Documents
  import opened Store
  import opened Validation
  import Listing

  const CART_LIMIT := 50
  const FAVOURITES_LIMIT := 100
  const CART_FULL := "Your cart is full. Please remove some items"
  const FAVOURITES_FULL := "Your favourites is full. Please remove some items"
  const PASSWORD_MISMATCH := "Password does not match former password"

  // ---------------------------------------------------------------------------
  // The list updates

  /** `array.indexOf(x)`: the first position of `x`, or -1. */
  function IndexOf(s: seq<string>, x: string): (i: int)
    ensures -1 <= i < |s|
    ensures i == -1 <==> x !in s
    ensures i >= 0 ==> s[i] == x && x !in s[..i]
  {
    if s == [] then -1
    else if s[0] == x then 0
    else
      var j := IndexOf(s[1..], x);
      assert j >= 0 ==> s[..j + 1] == [s[0]] + s[1..][..j];
      if j == -1 then -1 else j + 1
  }

  /** `$pull`: every occurrence of `x` removed, every other element kept
      with its count. */
  function Pull(s: seq<string>, x: string): (r: seq<string>)
    ensures x !in r
    ensures multiset(r) == multiset(s)[x := 0]
    ensures x !in s ==> r == s
  {
    if s == [] then []
    else
      assert s == [s[0]] + s[1..];
      (if s[0] == x then [] else [s[0]]) + Pull(s[1..], x)
  }

  /** `$pull` keeps the order of what it keeps: it distributes over
      concatenation. */
  lemma {:induction false} PullAppend(a: seq<string>, b: seq<string>, x: string)
    ensures Pull(a + b, x) == Pull(a, x) + Pull(b, x)
  {
    if a == [] {
      assert a + b == b;
    } else {
      assert (a + b)[0] == a[0] && (a + b)[1..] == a[1..] + b;
      PullAppend(a[1..], b, x);
    }
  }

  /** `splice(indexOf(x), 1)` when `x` occurs, nothing otherwise. */
  function RemoveFirst(s: seq<string>, x: string): (r: seq<string>)
    ensures multiset(r) == multiset(s) - multiset{x}
    ensures |r| == if x in s then |s| - 1 else |s|
  {
    var i := IndexOf(s, x);
    if i == -1 then s
    else
      assert s == s[..i] + [s[i]] + s[i + 1..];
      s[..i] + s[i + 1..]
  }

  /** Removing the first occurrence of `x` leaves every other element where
      it was: the list without `x` is the same before and after. */
  lemma RemoveFirstKeepsOthersInOrder(s: seq<string>, x: string)
    ensures Pull(RemoveFirst(s, x), x) == Pull(s, x)
  {
    var i := IndexOf(s, x);
    if i != -1 {
      assert s == s[..i] + [x] + s[i + 1..];
      PullDropsOne(s[..i], s[i + 1..], x);
    }
  }

  /** One occurrence of `x` between two lists is lost to `$pull` anyway. */
  lemma PullDropsOne(a: seq<string>, b: seq<string>, x: string)
    ensures Pull(a + [x] + b, x) == Pull(a + b, x)
  {
    calc {
      Pull(a + [x] + b, x);
    == { PullAppend(a + [x], b, x); }
      Pull(a + [x], x) + Pull(b, x);
    == { PullAppend(a, [x], x); assert Pull([x], x) == []; assert Pull(a, x) + [] == Pull(a, x); }
      Pull(a, x) + Pull(b, x);
    == { PullAppend(a, b, x); }
      Pull(a + b, x);
    }
  }

  /** Appending an absent id and pulling it again gives back the list. */
  lemma PullAppended(s: seq<string>, x: string)
    requires x !in s
    ensures Pull(s + [x], x) == s
  {
    PullAppend(s, [x], x);
  }

  // ---------------------------------------------------------------------------
  // What each operation does to the users collection

  /** `addToCart(productId)` by user `callerId`: the outcome and the users
      collection afterwards. */
  function AddToCartResult(users: map<string, User>, products: map<string, Product>, isValid: string -> bool,
                           callerId: string, productId: string): (r: (Result<string, Failure>, map<string, User>))
    ensures !isValid(productId) ==> r.0 == Err(Fail(INVALID_ID))
    ensures isValid(productId) && callerId !in users ==> r.0 == Err(Fail(USER_NOT_FOUND))
    ensures isValid(productId) && callerId in users && |users[callerId].carts| >= CART_LIMIT ==>
      r.0 == Err(Fail(CART_FULL))
    ensures r.0.Ok? <==>
      isValid(productId) && callerId in users && |users[callerId].carts| < CART_LIMIT && productId in products
    ensures r.0.Err? ==> r.1 == users
    ensures r.0.Ok? ==> (r.0.value == SUCCESS &&
      r.1 == users[callerId := users[callerId].(carts := users[callerId].carts + [productId])])
  {
    if !isValid(productId) then (Err(Fail(INVALID_ID)), users)
    else if callerId !in users then (Err(Fail(USER_NOT_FOUND)), users)
    else if |users[callerId].carts| >= CART_LIMIT then (Err(Fail(CART_FULL)), users)
    else if productId !in products then (Err(Fail(PRODUCT_NOT_FOUND)), users)
    else
      var u := users[callerId];
      (Ok(SUCCESS), users[callerId := u.(carts := u.carts + [productId])])
  }

  /** Every cart holds at most 50 entries. */
  predicate CartsWithinLimit(users: map<string, User>) {
    forall id | id in users :: |users[id].carts| <= CART_LIMIT
  }

  /** Adding to a cart never takes it past 50 entries, and adds exactly one
      occurrence of the product. */
  lemma AddToCartKeepsLimit(users: map<string, User>, products: map<string, Product>, isValid: string -> bool,
                            callerId: string, productId: string)
    requires CartsWithinLimit(users)
    ensures CartsWithinLimit(AddToCartResult(users, products, isValid, callerId, productId).1)
    ensures var r := AddToCartResult(users, products, isValid, callerId, productId);
      r.0.Ok? ==> multiset(r.1[callerId].carts) == multiset(users[callerId].carts) + multiset{productId}
  {
  }

  /** `removeFromCart(productId, all)` by user `callerId`. */
  function RemoveFromCartResult(users: map<string, User>, products: map<string, Product>, isValid: string -> bool,
                                callerId: string, productId: string, all: bool): (r: (Result<string, Failure>, map<string, User>))
    ensures !isValid(productId) ==> r.0 == Err(Fail(INVALID_ID))
    ensures isValid(productId) && callerId !in users ==> r.0 == Err(Fail(USER_NOT_FOUND))
    ensures r.0.Ok? <==> isValid(productId) && callerId in users && productId in products
    ensures r.0.Err? ==> r.1 == users
    ensures r.0.Ok? ==> (r.0.value == SUCCESS && callerId in users &&
      var carts := users[callerId].carts;
      r.1 == users[callerId := users[callerId].(carts := if all then Pull(carts, productId) else RemoveFirst(carts, productId))])
  {
    if !isValid(productId) then (Err(Fail(INVALID_ID)), users)
    else if callerId !in users then (Err(Fail(USER_NOT_FOUND)), users)
    else if productId !in products then (Err(Fail(PRODUCT_NOT_FOUND)), users)
    else
      var u := users[callerId];
      (Ok(SUCCESS), users[callerId := u.(carts := if all then Pull(u.carts, productId) else RemoveFirst(u.carts, productId))])
  }

  /** Removal with `all` drops every occurrence; without it exactly one
      occurrence goes when there is one, the cart is unchanged when there is
      none, and the remaining entries keep their order. Neither mode grows a
      cart. */
  lemma RemoveFromCartCounts(users: map<string, User>, products: map<string, Product>, isValid: string -> bool,
                             callerId: string, productId: string, all: bool)
    requires CartsWithinLimit(users)
    ensures CartsWithinLimit(RemoveFromCartResult(users, products, isValid, callerId, productId, all).1)
    ensures var r := RemoveFromCartResult(users, products, isValid, callerId, productId, all);
      r.0.Ok? ==>
        var before, after := users[callerId].carts, r.1[callerId].carts;
        (all ==> multiset(after) == multiset(before)[productId := 0]) &&
        (!all ==> multiset(after) == multiset(before) - multiset{productId}) &&
        (!all && productId !in before ==> after == before) &&
        Pull(after, productId) == Pull(before, productId)
  {
    var r := RemoveFromCartResult(users, products, isValid, callerId, productId, all);
    if r.0.Ok? {
      var before, after := users[callerId].carts, r.1[callerId].carts;
      if !all {
        RemoveFirstKeepsOthersInOrder(before, productId);
      }
      assert |multiset(after)| <= |multiset(before)|;
    }
  }

  /** `toggleFavourites(productId)` by user `callerId`. */
  function ToggleFavouritesResult(users: map<string, User>, products: map<string, Product>, isValid: string -> bool,
                                  callerId: string, productId: string): (r: (Result<string, Failure>, map<string, User>))
    ensures !isValid(productId) ==> r.0 == Err(Fail(INVALID_ID))
    ensures isValid(productId) && callerId !in users ==> r.0 == Err(Fail(USER_NOT_FOUND))
    ensures r.0.Ok? <==> (isValid(productId) && callerId in users && productId in products &&
      (productId in users[callerId].favourites || |users[callerId].favourites| < FAVOURITES_LIMIT))
    ensures isValid(productId) && callerId in users && productId in products && r.0.Err? ==> r.0 == Err(Fail(FAVOURITES_FULL))
    ensures r.0.Err? ==> r.1 == users
    ensures r.0.Ok? ==> (r.0.value == SUCCESS && callerId in users && callerId in r.1 &&
      r.1 == users[callerId := r.1[callerId]] &&
      r.1[callerId] == users[callerId].(favourites := r.1[callerId].favourites) &&
      (productId in r.1[callerId].favourites <==> productId !in users[callerId].favourites))
    // A present id is pulled; an absent one is appended at the end.
    ensures r.0.Ok? ==> (callerId in users && callerId in r.1 &&
      r.1[callerId].favourites == (if productId in users[callerId].favourites
                                   then Pull(users[callerId].favourites, productId)
                                   else users[callerId].favourites + [productId]))
  {
    if !isValid(productId) then (Err(Fail(INVALID_ID)), users)
    else if callerId !in users then (Err(Fail(USER_NOT_FOUND)), users)
    else if productId !in products then (Err(Fail(PRODUCT_NOT_FOUND)), users)
    else
      var u := users[callerId];
      if productId in u.favourites then (Ok(SUCCESS), users[callerId := u.(favourites := Pull(u.favourites, productId))])
      else if |u.favourites| >= FAVOURITES_LIMIT then (Err(Fail(FAVOURITES_FULL)), users)
      else (Ok(SUCCESS), users[callerId := u.(favourites := u.favourites + [productId])])
  }

  /** Toggling never takes a list of favourites past 100 entries. */
  lemma ToggleKeepsLimit(users: map<string, User>, products: map<string, Product>, isValid: string -> bool,
                         callerId: string, productId: string)
    requires callerId in users && |users[callerId].favourites| <= FAVOURITES_LIMIT
    ensures var r := ToggleFavouritesResult(users, products, isValid, callerId, productId);
      |r.1[callerId].favourites| <= FAVOURITES_LIMIT
  {
    var r := ToggleFavouritesResult(users, products, isValid, callerId, productId);
    var favs := users[callerId].favourites;
    if r.0.Ok? && productId in favs {
      assert |multiset(r.1[callerId].favourites)| <= |multiset(favs)|;
    }
  }

  /** Adding a favourite and toggling it again restores the user exactly. */
  lemma ToggleTwiceRestores(users: map<string, User>, products: map<string, Product>, isValid: string -> bool,
                            callerId: string, productId: string)
    requires callerId in users && productId !in users[callerId].favourites
    requires ToggleFavouritesResult(users, products, isValid, callerId, productId).0.Ok?
    ensures var once := ToggleFavouritesResult(users, products, isValid, callerId, productId).1;
      ToggleFavouritesResult(once, products, isValid, callerId, productId) == (Ok(SUCCESS), users)
  {
    var u := users[callerId];
    var once := users[callerId := u.(favourites := u.favourites + [productId])];
    assert ToggleFavouritesResult(users, products, isValid, callerId, productId).1 == once;
    assert productId in once[callerId].favourites;
    PullAppended(u.favourites, productId);
    assert once[callerId].(favourites := Pull(once[callerId].favourites, productId)) == u;
    assert once[callerId := u] == users;
  }

  /** Removing a favourite and toggling it again succeeds and makes it a
      favourite once more, now as the last entry. */
  lemma ToggleTwiceFromPresent(users: map<string, User>, products: map<string, Product>, isValid: string -> bool,
                               callerId: string, productId: string)
    requires callerId in users && productId in users[callerId].favourites
    requires |users[callerId].favourites| <= FAVOURITES_LIMIT
    requires ToggleFavouritesResult(users, products, isValid, callerId, productId).0.Ok?
    ensures var once := ToggleFavouritesResult(users, products, isValid, callerId, productId).1;
      var twice := ToggleFavouritesResult(once, products, isValid, callerId, productId);
      twice.0.Ok? && twice.1[callerId].favourites == Pull(users[callerId].favourites, productId) + [productId]
  {
    var favs := users[callerId].favourites;
    assert |multiset(Pull(favs, productId))| < |multiset(favs)| by {
      assert productId in multiset(favs);
    }
  }

  /** `changePassword({password, newPassword})` by user `callerId`; `compare`
      and `hash` stand for bcrypt. */
  function ChangePasswordResult(users: map<string, User>, isEmail: string -> bool, compare: (string, string) -> bool,
                                hash: string -> string, callerId: string, password: string, newPassword: string)
    : (r: (Result<string, Failure>, map<string, User>))
    ensures var errors := Validate(CHANGE_PASSWORD_SCHEMA, map["password" := password, "newPassword" := newPassword], isEmail);
      errors != [] ==> r.0 == Err(FieldErrors(FoldErrors(errors)))
    ensures r.0.Ok? <==> (|password| >= PASSWORD_MIN && |newPassword| >= PASSWORD_MIN &&
      callerId in users && compare(password, users[callerId].password))
    ensures r.0.Err? ==> r.1 == users
    ensures r.0.Ok? ==> r.0.value == SUCCESS && r.1 == users[callerId := users[callerId].(password := hash(newPassword))]
  {
    var input := map["password" := password, "newPassword" := newPassword];
    var errors := Validate(CHANGE_PASSWORD_SCHEMA, input, isEmail);
    ValidateEmptyIffAllAccepted(CHANGE_PASSWORD_SCHEMA, input, isEmail);
    assert CHANGE_PASSWORD_SCHEMA[0] == ("password", PasswordRule);
    assert CHANGE_PASSWORD_SCHEMA[1] == ("newPassword", PasswordRule);
    if errors != [] then (Err(FieldErrors(FoldErrors(errors))), users)
    else if callerId !in users then (Err(Fail(USER_NOT_FOUND)), users)
    else if !compare(password, users[callerId].password) then
      (Err(FieldErrors(map["password" := PASSWORD_MISMATCH])), users)
    else (Ok(SUCCESS), users[callerId := users[callerId].(password := hash(newPassword))])
  }

  /** `editProfile(params)` by user `callerId`: the address and both names
      are replaced, and the unique index refuses an address another user
      holds. */
  function EditProfileResult(users: map<string, User>, emails: map<string, string>, isEmail: string -> bool,
                             callerId: string, email: string, firstname: string, lastname: string)
    : (r: (Result<string, Failure>, map<string, User>, map<string, string>))
    requires Indexed(users, emails)
    ensures var errors := Validate(EDIT_PROFILE_SCHEMA, ProfileInput(email, firstname, lastname), isEmail);
      errors != [] ==> r == (Err(FieldErrors(FoldErrors(errors))), users, emails)
    ensures var errors := Validate(EDIT_PROFILE_SCHEMA, ProfileInput(email, firstname, lastname), isEmail);
      errors == [] && callerId !in users ==> r == (Err(Fail(USER_NOT_FOUND)), users, emails)
    ensures var errors := Validate(EDIT_PROFILE_SCHEMA, ProfileInput(email, firstname, lastname), isEmail);
      r.0.Ok? <==> (errors == [] && callerId in users && (email !in emails || emails[email] == callerId))
    ensures var errors := Validate(EDIT_PROFILE_SCHEMA, ProfileInput(email, firstname, lastname), isEmail);
      errors == [] && callerId in users && r.0.Err? ==> r.0 == Err(FieldErrors(map["email" := EMAIL_TAKEN]))
    ensures r.0.Err? ==> r.1 == users && r.2 == emails
    ensures r.0.Ok? ==> (r.0.value == SUCCESS &&
      r.1 == users[callerId := users[callerId].(email := email, firstname := firstname, lastname := lastname)] &&
      r.2 == (emails - {users[callerId].email})[email := callerId] && Indexed(r.1, r.2))
  {
    var errors := Validate(EDIT_PROFILE_SCHEMA, ProfileInput(email, firstname, lastname), isEmail);
    if errors != [] then (Err(FieldErrors(FoldErrors(errors))), users, emails)
    else if callerId !in users then (Err(Fail(USER_NOT_FOUND)), users, emails)
    else if email in emails && emails[email] != callerId then (Err(FieldErrors(map["email" := EMAIL_TAKEN])), users, emails)
    else
      var u := users[callerId].(email := email, firstname := firstname, lastname := lastname);
      ReaddressKeepsIndex(users, emails, u);
      (Ok(SUCCESS), users[callerId := u], (emails - {users[callerId].email})[email := callerId])
  }

  function ProfileInput(email: string, firstname: string, lastname: string): map<string, string> {
    map["email" := email, "firstname" := firstname, "lastname" := lastname]
  }

  /** After a profile edit the user is found under the new address and no
      longer under the old one, unless the address did not change. */
  lemma EditedProfileFoundByNewAddress(users: map<string, User>, emails: map<string, string>, isEmail: string -> bool,
                                       callerId: string, email: string, firstname: string, lastname: string)
    requires Indexed(users, emails)
    requires EditProfileResult(users, emails, isEmail, callerId, email, firstname, lastname).0.Ok?
    ensures var r := EditProfileResult(users, emails, isEmail, callerId, email, firstname, lastname);
      FindByEmail(r.1, r.2, email) == Some(r.1[callerId]) &&
      (users[callerId].email != email ==> FindByEmail(r.1, r.2, users[callerId].email) == None)
  {
  }

  /** `customers`: the users whose role is exactly "Customer"; the total is
      their number. */
  function Customers(users: map<string, User>): (ids: set<string>)
    ensures forall id :: id in ids <==> id in users && users[id].role == DEFAULT_ROLE
  {
    set id | id in users && users[id].role == DEFAULT_ROLE
  }

  // ---------------------------------------------------------------------------
  // The resolvers, statement by statement

  method AddToCart(db: Db, isValid: string -> bool, callerId: string, productId: string)
    returns (r: Result<string, Failure>)
    requires db.Valid()
    modifies db`users
    ensures db.Valid()
    ensures (r, db.users) == AddToCartResult(old(db.users), db.products, isValid, callerId, productId)
  {
    if !isValid(productId) {
      return Err(Fail(INVALID_ID));
    }
    if callerId !in db.users {
      return Err(Fail(USER_NOT_FOUND));
    }
    var user := db.users[callerId];
    if |user.carts| >= CART_LIMIT {
      return Err(Fail(CART_FULL));
    }
    if productId !in db.products {
      return Err(Fail(PRODUCT_NOT_FOUND));
    }
    db.SaveUser(user.(carts := user.carts + [productId]));
    return Ok(SUCCESS);
  }

  method RemoveFromCart(db: Db, isValid: string -> bool, callerId: string, productId: string, all: bool)
    returns (r: Result<string, Failure>)
    requires db.Valid()
    modifies db`users
    ensures db.Valid()
    ensures (r, db.users) == RemoveFromCartResult(old(db.users), db.products, isValid, callerId, productId, all)
  {
    if !isValid(productId) {
      return Err(Fail(INVALID_ID));
    }
    if callerId !in db.users {
      return Err(Fail(USER_NOT_FOUND));
    }
    var user := db.users[callerId];
    if productId !in db.products {
      return Err(Fail(PRODUCT_NOT_FOUND));
    }
    if all {
      db.SaveUser(user.(carts := Pull(user.carts, productId)));
    } else {
      var index := IndexOf(user.carts, productId);
      if index != -1 {
        var carts := user.carts[..index] + user.carts[index + 1..];
        db.SaveUser(user.(carts := carts));
      } else {
        assert user.(carts := RemoveFirst(user.carts, productId)) == user;
        assert db.users == db.users[callerId := user];
      }
    }
    return Ok(SUCCESS);
  }

  method ToggleFavourites(db: Db, isValid: string -> bool, callerId: string, productId: string)
    returns (r: Result<string, Failure>)
    requires db.Valid()
    modifies db`users
    ensures db.Valid()
    ensures (r, db.users) == ToggleFavouritesResult(old(db.users), db.products, isValid, callerId, productId)
  {
    if !isValid(productId) {
      return Err(Fail(INVALID_ID));
    }
    if callerId !in db.users {
      return Err(Fail(USER_NOT_FOUND));
    }
    var user := db.users[callerId];
    if productId !in db.products {
      return Err(Fail(PRODUCT_NOT_FOUND));
    }
    if productId in user.favourites {
      db.SaveUser(user.(favourites := Pull(user.favourites, productId)));
    } else {
      if |user.favourites| >= FAVOURITES_LIMIT {
        return Err(Fail(FAVOURITES_FULL));
      }
      db.SaveUser(user.(favourites := user.favourites + [productId]));
    }
    return Ok(SUCCESS);
  }

  method ChangePassword(db: Db, isEmail: string -> bool, compare: (string, string) -> bool, hash: string -> string,
                        callerId: string, password: string, newPassword: string)
    returns (r: Result<string, Failure>)
    requires db.Valid()
    modifies db`users
    ensures db.Valid()
    ensures (r, db.users) == ChangePasswordResult(old(db.users), isEmail, compare, hash, callerId, password, newPassword)
  {
    var errors := GetValidationErrors(CHANGE_PASSWORD_SCHEMA, map["password" := password, "newPassword" := newPassword], isEmail);
    if errors.Some? {
      return Err(FieldErrors(errors.value));
    }
    if callerId !in db.users {
      return Err(Fail(USER_NOT_FOUND));
    }
    var user := db.users[callerId];
    var isSamePassword := compare(password, user.password);
    if !isSamePassword {
      return Err(FieldErrors(map["password" := PASSWORD_MISMATCH]));
    }
    var hashedPassword := hash(newPassword);
    db.SaveUser(user.(password := hashedPassword));
    return Ok(SUCCESS);
  }

  method EditProfile(db: Db, isEmail: string -> bool, callerId: string, email: string, firstname: string, lastname: string)
    returns (r: Result<string, Failure>)
    requires db.Valid()
    modifies db`users, db`emails
    ensures db.Valid()
    ensures (r, db.users, db.emails) == EditProfileResult(old(db.users), old(db.emails), isEmail, callerId, email, firstname, lastname)
  {
    var errors := GetValidationErrors(EDIT_PROFILE_SCHEMA, ProfileInput(email, firstname, lastname), isEmail);
    if errors.Some? {
      return Err(FieldErrors(errors.value));
    }
    if callerId !in db.users {
      return Err(Fail(USER_NOT_FOUND));
    }
    var user := db.users[callerId];
    if email in db.emails && db.emails[email] != callerId {
      return Err(FieldErrors(map["email" := EMAIL_TAKEN]));
    }
    db.ReaddressUser(user.(email := email, firstname := firstname, lastname := lastname));
    return Ok(SUCCESS);
  }

  /** `customer(id)` */
  method CustomerQuery(db: Db, isValid: string -> bool, id: string) returns (r: Result<User, Failure>)
    ensures r.Ok? <==> isValid(id) && id in db.users
    ensures r.Ok? ==> r.value == db.users[id]
    ensures isValid(id) && id !in db.users ==> r == Err(Fail(USER_NOT_FOUND))
  {
    r := FindById(db.users, isValid, id, USER_NOT_FOUND);
  }

  /** `customers(params)`: the filter's matches and the options of the page. */
  method CustomersQuery(db: Db, params: Listing.ParamsArgs) returns (matches: set<string>, options: Listing.QueryOptions)
    ensures forall id :: id in matches <==> id in db.users && db.users[id].role == "Customer"
    ensures options == Listing.QueryOptionsFor(Some(params))
  {
    options := Listing.BuildQueryOptions(Some(params));
    matches := Customers(db.users);
  }
}
