/** Place comments: look a comment up, save a new comment linked to its
    author, its place, its estimate and its photos, and delete a comment. */
module PlaceComment {
  import opened Wrappers
  import opened Entities

  /** The error messages the service raises; NotFoundException("") carries Blank. */
  datatype ErrorMessage = Blank | UserNotFoundByEmail | PlaceNotFoundById | PhotoIsPresent

  /** NotFoundException and BadRequestException. */
  datatype ServiceError = NotFound(message: ErrorMessage) | BadRequest(message: ErrorMessage)

  /** Some photo in `photos` has a name that the photo store already holds. */
  predicate AnyPhotoPresent(photos: seq<Photo>, photoNames: set<string>)
  {
    exists i | 0 <= i < |photos| :: photos[i].name in photoNames
  }

  /** `linked` is `photos` with every photo's user and comment set to `user`
      and to the comment with id `commentId`, and nothing else changed. */
  predicate PhotosLinked(photos: seq<Photo>, linked: seq<Photo>, user: User, commentId: int)
  {
    |linked| == |photos| &&
    forall i | 0 <= i < |photos| ::
      linked[i] == photos[i].(user := Some(user), comment := Some(commentId))
  }

  /** The comment service over the comment table, with the user store, the
      places and the photo store it looks things up in. */
  class PlaceCommentService {
    /** The comment repository, by comment id. */
    var comments: map<int, Comment>
    /** The id the repository gives the next saved comment. */
    var nextId: int
    /** The user store, keyed by email. */
    var users: map<string, User>
    /** The places, by place id. */
    var places: map<int, Place>
    /** The names of the photos already stored. */
    var photoNames: set<string>

    /** Every comment is stored under its own id, every id is below nextId,
        and every user is stored under its own email. */
    predicate Valid()
      reads this
    {
      (forall id | id in comments :: comments[id].id == id && id < nextId) &&
      KeyedByEmail(users)
    }

    /** Wires the service to a repository that already holds `comments` and
        will give `nextId` to the next saved comment. */
    constructor (comments: map<int, Comment>, nextId: int, users: map<string, User>,
                 places: map<int, Place>, photoNames: set<string>)
      requires forall id | id in comments :: comments[id].id == id && id < nextId
      requires KeyedByEmail(users)
      ensures Valid()
      ensures this.comments == comments && this.nextId == nextId
      ensures this.users == users && this.places == places && this.photoNames == photoNames
    {
      this.comments := comments;
      this.nextId := nextId;
      this.users := users;
      this.places := places;
      this.photoNames := photoNames;
    }

    /** Looks up a comment by id. */
    function FindById(id: int): (r: Result<Comment, ServiceError>)
      reads this
      requires Valid()
      ensures r.Success? <==> id in comments
      ensures r.Success? ==> r.value == comments[id] && r.value.id == id
      ensures r.Failure? ==> r.error == NotFound(Blank)
    {
      if id in comments then Success(comments[id]) else Failure(NotFound(Blank))
    }

    /** The photo loop of save: rejects the comment if a photo name is already
        stored, otherwise links every photo to `user` and the comment `commentId`. */
    method LinkPhotos(photos: seq<Photo>, user: User, commentId: int) returns (r: Result<seq<Photo>, ServiceError>)
      ensures r.Failure? <==> AnyPhotoPresent(photos, photoNames)
      ensures r.Failure? ==> r.error == BadRequest(PhotoIsPresent)
      ensures r.Success? ==> PhotosLinked(photos, r.value, user, commentId)
    {
      var linked: seq<Photo> := [];
      var i := 0;
      while i < |photos|
        invariant 0 <= i <= |photos|
        invariant PhotosLinked(photos[..i], linked, user, commentId)
        invariant !AnyPhotoPresent(photos[..i], photoNames)
      {
        var photo := photos[i];
        if photo.name in photoNames {
          assert photos[i].name in photoNames;
          return Failure(BadRequest(PhotoIsPresent));
        }
        linked := linked + [photo.(user := Some(user), comment := Some(commentId))];
        assert photos[..i + 1] == photos[..i] + [photo];
        i := i + 1;
      }
      assert photos[..i] == photos;
      r := Success(linked);
    }

    /** Saves a new comment on place `placeId` by the user with `email`. */
    method Save(placeId: int, draft: Comment, email: string) returns (r: Result<Comment, ServiceError>)
      requires Valid()
      modifies this`comments, this`nextId
      ensures Valid()
      ensures placeId !in places ==> r == Failure(NotFound(PlaceNotFoundById))
      ensures placeId in places && email !in users ==> r == Failure(NotFound(UserNotFoundByEmail))
      ensures placeId in places && email in users ==>
        (r.Failure? <==> AnyPhotoPresent(draft.photos, photoNames))
      ensures placeId in places && email in users && AnyPhotoPresent(draft.photos, photoNames) ==>
        r == Failure(BadRequest(PhotoIsPresent))
      ensures r.Failure? ==> comments == old(comments) && nextId == old(nextId)
      ensures r.Success? ==>
        var saved := r.value;
        placeId in places && email in users &&
        // exactly one comment is added, under a fresh id; the others are unchanged
        saved.id == old(nextId) && nextId == old(nextId) + 1 &&
        saved.id !in old(comments) && comments == old(comments)[saved.id := saved] &&
        FindById(saved.id) == Success(saved) &&
        // the comment, its estimate and its photos are linked to the place and user
        saved.text == draft.text &&
        saved.place == Some(places[placeId]) &&
        saved.user == Some(users[email]) && users[email].email == email &&
        (saved.estimate.Some? <==> draft.estimate.Some?) &&
        (saved.estimate.Some? ==>
          saved.estimate.value == draft.estimate.value.(user := saved.user, place := saved.place)) &&
        PhotosLinked(draft.photos, saved.photos, users[email], saved.id)
    {
      if placeId !in places {
        return Failure(NotFound(PlaceNotFoundById));
      }
      var place := places[placeId];
      var byEmail := FindByEmail(users, email);
      if byEmail.None? {
        return Failure(NotFound(UserNotFoundByEmail));
      }
      var user := byEmail.value;
      var id := nextId;
      var comment := draft.(id := id, place := Some(place), user := Some(user));
      if comment.estimate.Some? {
        comment := comment.(estimate := Some(comment.estimate.value.(user := Some(user), place := Some(place))));
      }
      var photos := LinkPhotos(comment.photos, user, id);
      if photos.Failure? {
        return Failure(photos.error);
      }
      comment := comment.(photos := photos.value);
      comments := comments[id := comment];
      nextId := nextId + 1;
      r := Success(comment);
    }

    /** Deletes the comment with `id`. */
    method DeleteById(id: int) returns (r: Result<(), ServiceError>)
      requires Valid()
      modifies this`comments
      ensures Valid()
      ensures r.Failure? <==> id !in old(comments)
      ensures r.Failure? ==> r.error == NotFound(Blank) && comments == old(comments)
      ensures r.Success? ==> comments == old(comments) - {id} && FindById(id) == Failure(NotFound(Blank))
    {
      var found := FindById(id);
      if found.Failure? {
        return Failure(found.error);
      }
      comments := comments - {found.value.id};
      r := Success(());
    }
  }
}
