/** The persistent entities the two services read and link: users, places,
    estimates, photos and place comments. Object references between entities
    become values (a comment holds the user record it is linked to) or ids (a
    photo holds the id of the comment it belongs to). */
module Entities {
  import opened Wrappers

  /** A clock reading (java.time.LocalDateTime); no arithmetic is done on it. */
  type Timestamp = int

  /** The role enumeration; ROLE_USER is the one the services assign. */
  datatype Role = RoleUser | RoleAdmin

  /** The user status enumeration; ACTIVATED is the one the services assign. */
  datatype UserStatus = Activated | Deactivated

  datatype User = User(
    email: string,
    firstName: Option<string>,
    lastName: Option<string>,
    role: Role,
    status: UserStatus,
    dateOfRegistration: Timestamp,
    lastVisit: Timestamp)

  datatype Place = Place(id: int, name: string)

  /** A rating attached to a comment, linked to the rating user and place. */
  datatype Estimate = Estimate(rate: int, user: Option<User>, place: Option<Place>)

  /** A photo attached to a comment; `comment` is the id of the owning comment. */
  datatype Photo = Photo(name: string, user: Option<User>, comment: Option<int>)

  datatype Comment = Comment(
    id: int,
    text: string,
    place: Option<Place>,
    user: Option<User>,
    estimate: Option<Estimate>,
    photos: seq<Photo>)

  /** The user store's invariant: every user is stored under its own email. */
  predicate KeyedByEmail(users: map<string, User>)
  {
    forall e | e in users :: users[e].email == e
  }

  /** The user store's lookup by email: the user stored under `email`, if any. */
  function FindByEmail(users: map<string, User>, email: string): Option<User>
  {
    if email in users then Some(users[email]) else None
  }
}
