/**
 * The records the controllers read and write. Only the fields the core touches are
 * modelled: a user's credentials, stored refresh token and item lists, and an item's
 * ratings. The database is in memory: a store object holding the records in their
 * natural order, the position of a user record being its id.
 */
module Models {

  import opened Wrappers
  import opened Seqs
  import opened Tokens

  /** One entry of `ratedItems`; the rating is `None` when the request's value was not a number. */
  datatype RatedItem = RatedItem(itemId: string, rating: Option<real>)

  datatype User = User(
    name: Option<string>,
    email: string,
    password: string,
    refreshToken: string,
    watchlist: seq<string>,
    recentlyViewed: seq<string>,
    ratedItems: seq<RatedItem>)

  /** The `user` object of an authentication response. */
  datatype PublicUser = PublicUser(
    id: UserId,
    name: Option<string>,
    email: string,
    watchlist: seq<string>,
    recentlyViewed: seq<string>,
    ratedItems: seq<RatedItem>)

  function Public(id: UserId, u: User): PublicUser {
    PublicUser(id, u.name, u.email, u.watchlist, u.recentlyViewed, u.ratedItems)
  }

  /** A fresh record as `User.create({ name, email, password })` makes it. */
  function NewUser(name: Option<string>, email: string, password: string): User {
    User(name, email, password, "", [], [], [])
  }

  /** `select('-password')`. */
  function WithoutPassword(u: User): User {
    u.(password := "")
  }

  /**
   * `user.comparePassword(candidate)`. The hashing done by the user model is not part of
   * this model: a record holds the password it was created with, and the comparison
   * succeeds exactly for that password.
   */
  predicate ComparePassword(u: User, candidate: string) {
    u.password == candidate
  }

  datatype Item = Item(itemId: string, title: string, ratings: seq<real>, rating: real, ratingCount: nat)

  /** What the response cookie header does to the `refreshToken` cookie. */
  datatype Cookie = KeepCookie | SetRefreshCookie(token: string, maxAge: int) | ClearRefreshCookie

  datatype Body =
    | AuthBody(accessToken: string, user: PublicUser)
    | MessageBody(message: string)
    | NoContent
    | IdsBody(ids: seq<string>)
    | ItemsBody(items: seq<Item>)
    | ProfileBody(profile: User)
    | RatedBody(item: Item, userRatedItems: Option<seq<RatedItem>>)

  datatype Response = Response(status: int, body: Body, cookie: Cookie)

  /** `User.findOne({ email })`. */
  function FindByEmail(users: seq<User>, email: string): Option<nat> {
    FirstWhere(users, (u: User) => u.email == email)
  }

  /** `User.findOne({ refreshToken })`. */
  function FindByRefreshToken(users: seq<User>, token: string): Option<nat> {
    FirstWhere(users, (u: User) => u.refreshToken == token)
  }

  /** `Item.findOne({ itemId })`. */
  function FindItem(items: seq<Item>, itemId: string): Option<nat> {
    FirstWhere(items, (it: Item) => it.itemId == itemId)
  }

  /** The user collection. */
  class UserStore {
    var users: seq<User>

    constructor (users: seq<User>)
      ensures this.users == users
    {
      this.users := users;
    }
  }

  /** The item collection. */
  class ItemStore {
    var items: seq<Item>

    constructor (items: seq<Item>)
      ensures this.items == items
    {
      this.items := items;
    }
  }
}
