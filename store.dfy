/** The MongoDB collections the resolvers read and write, as maps from
    document id to document, together with the unique index on user e-mail
    addresses and the log of outside effects (e-mails sent, storage objects
    deleted) the resolvers cause. */
module Store {
  import opened Wrappers
  import opened UserModel
  import opened Documents

  /** Messages several resolvers share. */
  const INVALID_ID := "Invalid ObjectID"
  const USER_NOT_FOUND := "User not found"
  const PRODUCT_NOT_FOUND := "Product not found"
  const SUCCESS := "Success"
  const EMAIL_TAKEN := "A user with this email already exists"

  /** An effect outside the database. */
  datatype Effect =
    | OrderConfirmationMail(orderId: string)        // `order.sendConfirmationEmail()`
    | OrderAdminNotification(orderId: string)       // `order.sendNotificationToAdmin()`
    | RequestAdminNotification(requestId: string)   // `request.sendNotificationToAdmin()`
    | RequestConfirmationMail(requestId: string)    // `request.sendConfirmationEmail()`
    | RequestReplyMail(requestId: string, message: string) // `request.sendReplyEmail(message)`
    | VerificationMail(userId: string)              // `user.sendVerificationEmail()`
    | PasswordResetMail(userId: string)             // `user.sendPasswordResetEmail()`
    | StorageDelete(bucket: string, key: string)    // S3 `deleteObject`

  /** What the mail or storage service answers to one call: success, or the
      message of the error it raises. */
  datatype Delivery = Sent | Refused(message: string)

  /** Every user is stored under its own id, and `emails` is exactly the
      unique index from e-mail address to user id. */
  predicate Indexed(users: map<string, User>, emails: map<string, string>) {
    (forall id | id in users :: users[id].id == id && users[id].email in emails && emails[users[id].email] == id) &&
    (forall e | e in emails :: emails[e] in users && users[emails[e]].email == e)
  }

  /** `User.findOne({ email })` */
  function FindByEmail(users: map<string, User>, emails: map<string, string>, email: string): (r: Option<User>)
    requires Indexed(users, emails)
    ensures r.Some? <==> exists id | id in users :: users[id].email == email
    ensures r.Some? ==> r.value.email == email && r.value.id in users && users[r.value.id] == r.value
  {
    if email in emails then Some(users[emails[email]]) else None
  }

  /** Saving a user under its id with an unchanged address keeps the index. */
  lemma SaveKeepsIndex(users: map<string, User>, emails: map<string, string>, u: User)
    requires Indexed(users, emails) && u.id in users && users[u.id].email == u.email
    ensures Indexed(users[u.id := u], emails)
  {
  }

  /** Creating a user under a fresh id with an unused address extends the index. */
  lemma CreateExtendsIndex(users: map<string, User>, emails: map<string, string>, u: User)
    requires Indexed(users, emails) && u.id !in users && u.email !in emails
    ensures Indexed(users[u.id := u], emails[u.email := u.id])
  {
    var users', emails' := users[u.id := u], emails[u.email := u.id];
    forall id | id in users'
      ensures users'[id].id == id && users'[id].email in emails' && emails'[users'[id].email] == id
    {
      if id != u.id {
        assert users[id].email != u.email;
      }
    }
  }

  /** Saving a user under a new address that no other user holds moves the
      address's index entry. */
  lemma ReaddressKeepsIndex(users: map<string, User>, emails: map<string, string>, u: User)
    requires Indexed(users, emails) && u.id in users
    requires u.email == users[u.id].email || u.email !in emails
    ensures Indexed(users[u.id := u], (emails - {users[u.id].email})[u.email := u.id])
  {
    var users', emails' := users[u.id := u], (emails - {users[u.id].email})[u.email := u.id];
    forall id | id in users'
      ensures users'[id].id == id && users'[id].email in emails' && emails'[users'[id].email] == id
    {
      if id != u.id {
        assert users[id].email != users[u.id].email;
        assert users[id].email != u.email;
      }
    }
  }

  /** The single-document queries (`customer`, `order`, `request`,
      `product`): the id must be a valid ObjectId of a stored document. */
  function FindById<T>(docs: map<string, T>, isValid: string -> bool, id: string, notFound: string): (r: Result<T, Failure>)
    ensures r.Ok? <==> isValid(id) && id in docs
    ensures r.Ok? ==> r.value == docs[id]
    ensures !isValid(id) ==> r == Err(Fail(INVALID_ID))
    ensures isValid(id) && id !in docs ==> r == Err(Fail(notFound))
  {
    if !isValid(id) then Err(Fail(INVALID_ID))
    else if id !in docs then Err(Fail(notFound))
    else Ok(docs[id])
  }

  /** `populate(...)` of a list of product ids: the stored product of each id,
      in the list's order, with the ids of deleted products dropped. */
  function Populate(ids: seq<string>, products: map<string, Product>): (ps: seq<Product>)
    ensures |ps| <= |ids|
    ensures forall i :: 0 <= i < |ps| ==> ps[i] in products.Values
    ensures (forall i :: 0 <= i < |ids| ==> ids[i] in products) ==>
      |ps| == |ids| && forall i :: 0 <= i < |ps| ==> ps[i] == products[ids[i]]
    ensures ids == [] ==> ps == []
  {
    if ids == [] then []
    else
      var rest := Populate(ids[1..], products);
      if ids[0] in products then [products[ids[0]]] + rest else rest
  }

  class Db {
    var users: map<string, User>
    /** The unique index on `users.email`. */
    var emails: map<string, string>
    var products: map<string, Product>
    var orders: map<string, Order>
    var requests: map<string, SupportRequest>
    /** Every outside effect, in the order it happened. */
    var effects: seq<Effect>

    predicate Valid()
      reads this
    {
      Indexed(users, emails) && forall id | id in products :: products[id].id == id
    }

    constructor ()
      ensures Valid()
      ensures users == map[] && emails == map[] && products == map[] && orders == map[] && requests == map[]
      ensures effects == []
    {
      users, emails, products, orders, requests := map[], map[], map[], map[], map[];
      effects := [];
    }

    /** `user.save()` / `user.updateOne(...)` of fields other than the address. */
    method SaveUser(u: User)
      requires Valid() && u.id in users && users[u.id].email == u.email
      modifies this`users
      ensures Valid()
      ensures users == old(users)[u.id := u]
    {
      SaveKeepsIndex(users, emails, u);
      users := users[u.id := u];
    }

    /** `user.updateOne(...)` that may change the address; the address is
      the user's own or unused. */
    method ReaddressUser(u: User)
      requires Valid() && u.id in users && (u.email == users[u.id].email || u.email !in emails)
      modifies this`users, this`emails
      ensures Valid()
      ensures users == old(users)[u.id := u]
      ensures emails == (old(emails) - {old(users)[u.id].email})[u.email := u.id]
    {
      ReaddressKeepsIndex(users, emails, u);
      emails := (emails - {users[u.id].email})[u.email := u.id];
      users := users[u.id := u];
    }

    /** `User.create(...)` succeeding: the id is fresh and the address unused. */
    method CreateUser(u: User)
      requires Valid() && u.id !in users && u.email !in emails
      modifies this`users, this`emails
      ensures Valid()
      ensures users == old(users)[u.id := u] && emails == old(emails)[u.email := u.id]
    {
      CreateExtendsIndex(users, emails, u);
      users := users[u.id := u];
      emails := emails[u.email := u.id];
    }

    /** Records an effect outside the database. */
    method Emit(e: Effect)
      modifies this`effects
      ensures effects == old(effects) + [e]
    {
      effects := effects + [e];
    }
  }
}
