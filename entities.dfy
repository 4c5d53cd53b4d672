/// The records the marketplace backend keeps in its collections (users,
/// shops, coupon codes) and the small values its handlers exchange with
/// clients and with the collaborators they call (image host, mailer).
module Entities {

  /** A MongoDB ObjectId. The store hands out a fresh one on every insert. */
  type Id = nat

  datatype Option<+T> = None | Some(value: T)

  /** The result of a call into a collaborator that may throw: the Cloudinary
      upload or the mailer. */
  datatype Attempt<+T> = Returned(value: T) | Threw(message: string)

  /** What `next(new ErrorHandler(message, status))` sends back. */
  datatype HttpError = HttpError(status: nat, message: string)

  /** A handler either answers with a status and a payload, or fails. */
  datatype Outcome<+T> = Done(status: nat, value: T) | Failed(error: HttpError)

  /** A request-body field. A missing field (`undefined`) and the empty
      string are both falsy in JavaScript, and every check in the handlers
      is a truthiness test, so both are the empty string here. */
  predicate Truthy(s: string) {
    s != ""
  }

  /** JavaScript's `a || b` on two string fields. */
  function Or(a: string, b: string): string
  {
    if Truthy(a) then a else b
  }

  /** The image host's reference to an uploaded avatar. */
  datatype Avatar = Avatar(publicId: string, url: string)

  /** A saved address of a customer; only its `_id` matters to the core. */
  datatype Address = Address(id: Id, line: string)

  /** A customer record. `password` is what the store holds for the
      credential; comparing a plaintext against it is the model's
      `comparePassword` collaborator. */
  datatype User = User(
    id: Id,
    name: string,
    email: string,
    password: string,
    role: string,
    avatar: Avatar,
    phoneNumber: string,
    addresses: seq<Address>)

  /** A seller record. */
  datatype Shop = Shop(
    id: Id,
    name: string,
    email: string,
    password: string,
    description: string,
    address: string,
    phoneNumber: string,
    zipCode: string,
    avatar: Avatar)

  /** The role a new customer record gets from the User schema. */
  const DefaultRole := "user"

  /** The prospective record an activation token carries: everything the
      store will need once the address is confirmed. */
  datatype Draft =
    | UserDraft(name: string, email: string, password: string, avatar: Avatar)
    | SellerDraft(name: string, email: string, password: string, avatar: Avatar,
                  address: string, phoneNumber: string, zipCode: string)

  /** The collaborator that answers `record.comparePassword(plaintext)`:
      given the plaintext and the stored credential, does it match? */
  type PasswordCheck = (string, string) -> bool
}
