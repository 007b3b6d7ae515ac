# GreenCity: Google sign-in and place comments, modelled in Dafny

This project models two service classes of the GreenCity back end.

**Google sign-in** (`GoogleSecurityServiceImpl.authenticate`). The service takes a Google ID token and asks the Google verifier about it. A rejected token, or a security or I/O error from the verifier, becomes an `IllegalArgumentException` whose message starts with `BAD_GOOGLE_TOKEN`. For a verified token, the service looks the payload's email up in the user store. A known user gets an access token built from the stored email and role, a refresh token built from the stored email, and the stored first name as display name. An unknown email is signed up first. The new user takes the email, `given_name` and `family_name` from the payload, role `ROLE_USER`, status `ACTIVATED`, and one clock reading each for the registration date and the last visit. The tokens and display name then come from that new record.

- `google_security.dfy` holds the class `GoogleSecurityService`. Its field `users` is the user store, a map keyed by email. Its method `Authenticate` is proved against the function `AuthenticateStep`. The lemmas state the branch properties and the idempotence of repeated sign-ins about that function.
- The verifier's answer is a `Verification` value: a payload, a rejection (the verifier returned null) or an exception message.
- The JWT tool is a `TokenTool` holding two functions. Properties speak only of the arguments the tokens are built from.

**Place comments** (`PlaceCommentServiceImpl`). The class `PlaceCommentService` in `place_comment.dfy` holds the comment table, keyed by id, and the id the repository gives the next saved comment. It also holds what the service looks things up in: the user store, the places and the names of stored photos.

- `FindById` returns the stored comment, or fails with `NotFound("")`.
- `Save` looks up the place, then the user. It fails with `NotFound(USER_NOT_FOUND_BY_EMAIL)` for an unknown email. Otherwise it links the comment and its estimate, if present, to that place and user.
- `LinkPhotos` is the loop over the photos. It rejects the whole save with `BadRequest(PHOTO_IS_PRESENT)` as soon as a photo's name is already stored. Otherwise it sets every photo's user and comment.
- Only a successful `Save` adds an entry to the table: exactly one, under a fresh id.
- `DeleteById` fails with `NotFound("")` on a missing id. On a present id it removes exactly that entry.

The photo check compares each name with the photos already stored, not with the other photos of the same comment. So a comment with two photos of the same new name is accepted. The model keeps this behaviour.

`entities.dfy` holds the entities both services share (`User`, `Place`, `Estimate`, `Photo`, `Comment`) and the user lookup `FindByEmail`. `GoogleSecurityServiceImpl` reads a null `User` from that lookup and `PlaceCommentServiceImpl` an empty `Optional`. Both become an `Option<User>` from a map lookup. `wrappers.dfy` holds `Option` and `Result`.

## Model

| member | source | states |
|---|---|---|
| `GoogleSecurity.AuthenticateStep` | src/main/java/greencity/security/service/impl/GoogleSecurityServiceImpl.java:60-95 | authenticate fails exactly when the token is not verified; a failure leaves the store as it was and its message starts with BAD_GOOGLE_TOKEN; on success the payload's email is stored, and both tokens and the display name come from the record stored under it; the store gains at most that email; no existing record changes; the store stays keyed by email |
| `GoogleSecurity.GoogleSecurityService.Authenticate` | src/main/java/greencity/security/service/impl/GoogleSecurityServiceImpl.java:60-95 | the imperative authenticate returns what AuthenticateStep says and leaves the user store as AuthenticateStep says; the store stays keyed by email |
| `GoogleSecurity.GoogleSecurityService.constructor` | src/main/java/greencity/security/service/impl/GoogleSecurityServiceImpl.java:42-47 | the service is wired to the given user store and token tool |
| `GoogleSecurity.RejectedTokenChangesNothing` | src/main/java/greencity/security/service/impl/GoogleSecurityServiceImpl.java:62-63 | when the verifier returns null, the result is the BAD_GOOGLE_TOKEN error and the store is unchanged |
| `GoogleSecurity.VerifierErrorChangesNothing` | src/main/java/greencity/security/service/impl/GoogleSecurityServiceImpl.java:92-93 | a security or I/O error from the verifier gives the message BAD_GOOGLE_TOKEN + ". " + the exception's message, and no user is created |
| `GoogleSecurity.ExistingUserSignIn` | src/main/java/greencity/security/service/impl/GoogleSecurityServiceImpl.java:68-73 | for a known email the store is unchanged; the access token gets the stored email and stored role, the refresh token the stored email only, and the display name is the stored first name |
| `GoogleSecurity.NewUserSignUp` | src/main/java/greencity/security/service/impl/GoogleSecurityServiceImpl.java:75-88 | for an unknown email exactly one user is added: payload email, given_name as first name, family_name as last name, ROLE_USER, ACTIVATED, the two clock readings as registration and last-visit dates; the tokens carry that email and ROLE_USER, and the display name is given_name |
| `GoogleSecurity.OneUserPerEmail` | src/main/java/greencity/security/service/impl/GoogleSecurityServiceImpl.java:68-69 | in a store keyed by email, a stored email belongs to exactly one user |
| `GoogleSecurity.SecondSignInIsIdempotent` | src/main/java/greencity/security/service/impl/GoogleSecurityServiceImpl.java:68-84 | after a sign-in, a second one with the same email takes the existing-user branch: the store is not changed again, exactly one user has that email, and the second call builds its tokens from the same stored email and role and returns the same display name |
| `GoogleSecurity.AuthenticateAllOnlyAdds` | src/main/java/greencity/security/service/impl/GoogleSecurityServiceImpl.java:60-95 | over any run of sign-ins, the store gains exactly the emails of the verified tokens, no record already stored changes, and the store stays keyed by email |
| `PlaceComment.PlaceCommentService.constructor` | src/main/java/greencity/service/impl/PlaceCommentServiceImpl.java:29-35 | the service is wired to a comment repository holding the given comments and next id, and to the given users, places and photo names |
| `PlaceComment.PlaceCommentService.FindById` | src/main/java/greencity/service/impl/PlaceCommentServiceImpl.java:43-46 | succeeds exactly when the id is in the table; returns the comment stored under it, whose id is that id; otherwise fails with NotFound("") |
| `PlaceComment.PlaceCommentService.LinkPhotos` | src/main/java/greencity/service/impl/PlaceCommentServiceImpl.java:65-71 | fails exactly when some photo's name is already stored, then with BadRequest(PHOTO_IS_PRESENT); otherwise returns the photos in order, each with its user set to the given user and its comment set to the given comment, nothing else changed |
| `PlaceComment.PlaceCommentService.Save` | src/main/java/greencity/service/impl/PlaceCommentServiceImpl.java:54-74 | an unknown email fails with NotFound(USER_NOT_FOUND_BY_EMAIL); when place and user exist, it fails exactly when some photo's name is already stored, and then with BadRequest(PHOTO_IS_PRESENT); a failure leaves the table unchanged; a success adds exactly one comment under the repository's next id, which then advances by one, and leaves the other entries unchanged; FindById then returns it; the saved comment's place and user are the looked-up ones, and that user's email is the given email; a present estimate gets the same user and place, and an absent one stays absent; every photo is linked to the user and to the saved comment |
| `PlaceComment.PlaceCommentService.DeleteById` | src/main/java/greencity/service/impl/PlaceCommentServiceImpl.java:82-84 | fails with NotFound("") exactly when the id is missing, and then leaves the table unchanged; otherwise removes exactly that entry, after which FindById fails |

## Left out

- Google ID-token verification: the signature, issuer, expiry and audience checks and the key fetch run inside the Google client library and over the network. The verifier's answer is a parameter of `Authenticate`.
- The verifier's construction from the configured client id is not modelled, because it only configures that library.
- JWT construction: `JwtTokenTool` is not part of this model. Its two builders are total functions of their arguments. Expiry, signing and signing failures are not modelled.
- SecondSignInIsIdempotent: only states that both calls build their tokens from the same stored email and role. The real tokens also carry an expiry and are built afresh on each call, so their strings differ. Token strings would be equal here only because the builders are modelled without a clock.
- The clock: the two `LocalDateTime.now()` readings are parameters.
- BAD_GOOGLE_TOKEN, USER_NOT_FOUND_BY_EMAIL and PHOTO_IS_PRESENT are defined in `greencity.constant.ErrorMessage`, which is not part of this model. BAD_GOOGLE_TOKEN is a stand-in text, and no property depends on that text. The place-comment messages are enumeration values.
- A payload without an email (a null email) is not modelled: the payload's email is always a string.
- `ROLE` and `UserStatus` list only the values these services assign, plus one other value each. User ids are not modelled.
- Failures of the user store, the comment repository or the token tool are not modelled. The source does not catch them. The only exceptions caught are the verifier's security and I/O exceptions.
- Retry-on-conflict and concurrent sign-ups: the source does a plain lookup followed by a save, with no retry and no locking. Retrying the lookup after a uniqueness conflict is not modelled; the code has no retry. Calls are sequential. `@Transactional` rollback is not modelled.
- Place lookup: `PlaceService.findById` is not part of this model. A missing place is modelled as a failure with `NotFound(PlaceNotFoundById)` before the user lookup. That service's actual behaviour for a missing place is not visible.
- Photo store: `PhotoService.findByName` becomes membership in a set of names. The set never changes. Whether saving a comment also stores its photos, for example by cascading, is not visible in these classes.
- ModelMapper: mapping the request to a `Comment`, and a `Comment` to the returned one, is the identity. The comment's id is the repository's next id. A photo refers to its comment by that id, not by object reference.
- Save: setting the links of the earlier photos before a later photo is rejected is not modelled. The comment is a fresh object that is thrown away with the exception, so no caller can see those links.
- Logging and Spring wiring are left out.
