# api_yamdb: access control and sign-up, modelled in Dafny

api_yamdb is a REST API for a catalogue of titles, genres and categories, with
reviews and comments written by users. This project models the parts that
decide things:

- the four permission classes (`IsAdmin`, `RolePermission`, `GenrePermission`,
  `TitlePermission`) as predicates over the HTTP method, the requesting user
  and the object's author, compared with a reference decision table: the
  access rules the API is meant to enforce, written out in permissions.dfy
  over a closed set of privilege tiers in which the superuser flag always
  counts as the admin role (`Permissions`, permissions.dfy);
- how each viewset combines its permission classes (all must allow, first at
  collection level, then at object level), and which serializer the user and
  title viewsets pick (`Views`, views.dfy);
- the user store with sign-up (get or create the (username, email) row, mail
  a confirmation code, delete the row when the mail fails), the token
  exchange, and the self-service `me` action (`Accounts`, accounts.dfy);
  the pure step functions (`SignUpResult`, `GetTokenResult`, `MeResult`)
  carry the lemmas, and the class `UserStore` performs the same steps on its
  fields and is proved to agree with them;
- the nested review and comment viewsets: parent lookup and author stamping
  (`Catalog`, catalog.dfy);
- the release-year validator, with the current year as a parameter
  (`Validators`, validators.dfy).

Django's token generator is a parameter (`TokenGenerator`: a code made from a
user's key and row, and a check of a code against them); mail sending is a
parameter (`Mail -> bool`, false when `send_mail` raises). The user store is
a map from primary key to row. No uniqueness of usernames or emails is
assumed, so every lookup distinguishes no match, one match and several
matches (Django raises `MultipleObjectsReturned` on several, a 500 response).

Where the API's intended behaviour and the code disagree, the model follows
the code:

- The intended sign-up rolls back only a row the call created. The code
  deletes the row it fetched, so a pre-existing user who signs up again is
  deleted when the mail fails (`FailedMailDeletesExistingRow`).
- The reference table counts the superuser flag as the admin role everywhere.
  `RolePermission.has_object_permission` never reads the flag, so a superuser
  whose role is `user` may not change someone else's review
  (`SuperuserDeniedOthersReview`). On `/users/` a superuser is served
  `UserSerializer`, whose `role` is read-only, so only a non-superuser admin
  can assign roles (`RoleAssignment`).
- The intended sign-up refuses, as a conflict, a (username, email) pair that
  collides with another row on one of the two fields. The sign-up code has
  no such check; whether the insert then succeeds depends on constraints of
  the user table that are not modelled, and the model lets it succeed.
- The intended exchange yields a token for a matching code. The code compares a
  boolean with a string and never yields one (see Findings).

## Model

| member | source | states |
|---|---|---|
| `Permissions.IsAdminDecision` | api_yamdb/api/permissions.py:4-14 | `IsAdmin` allows exactly a signed-in user whose role is `admin` or who is a superuser, which is the reference user-administration rule; its object check gives the same answer for any method and any object |
| `Permissions.RoleCollectionDecision` | api_yamdb/api/permissions.py:19-21 | every safe method is allowed, also to the anonymous user; any other method exactly to a signed-in user; this is the reference rule for review and comment collections |
| `Permissions.RoleObjectDecision` | api_yamdb/api/permissions.py:23-27 | an unsafe method on an object is allowed exactly to the `admin` and `moderator` roles and to the object's author; for non-superusers this is the reference rule for a single review or comment |
| `Permissions.RoleObjectIgnoresSuperuser` | api_yamdb/api/permissions.py:23-27 | the object check's answer does not depend on the superuser flag |
| `Permissions.SuperuserDeniedOthersReview` | api_yamdb/api/permissions.py:23-27 | there is a superuser (administrator tier in the reference table) whom the object check denies a PATCH on another user's object |
| `Permissions.AuthorOverride` | api_yamdb/api/permissions.py:23-27 | a `user` may change an object they authored; a different `user` may not use an unsafe method on it |
| `Permissions.GenreTitleAgree` | api_yamdb/api/permissions.py:30-51 | `GenrePermission` and `TitlePermission` agree on every input: safe allows, anonymous unsafe denies, admin or superuser allows, anything else denies; both are the reference catalogue rule |
| `Permissions.NoAuthorityFromOtherRoles` | api_yamdb/api/permissions.py:4-51 | for a non-superuser whose role is neither `admin` nor `moderator` and an unsafe method, `IsAdmin` (both checks), `GenrePermission` and `TitlePermission` deny, and `RolePermission`'s object check allows exactly the author |
| `Permissions.SuperuserMonotone` | api_yamdb/api/permissions.py:4-51 | setting the superuser flag never turns an allowing decision of `IsAdmin`, `GenrePermission` or `TitlePermission` into a denial |
| `Views.AllGrant` | api_yamdb/api/views.py:38-41 | a request passes a tuple of permission classes exactly when every class in it allows |
| `Views.AllGrantObject` | api_yamdb/api/views.py:38-41 | an object passes exactly when every class's object check allows |
| `Views.UserEndpointsGuard` | api_yamdb/api/views.py:36-61 | `/users/` requires `IsAuthenticated` and `IsAdmin`: exactly a signed-in admin or superuser, at both levels; the `me` action only requires a signed-in user |
| `Views.SafeMethodsAlwaysAllowed` | api_yamdb/api/views.py:73-137 | on titles, genres, categories, reviews and comments every safe method passes both levels for every requester |
| `Views.CatalogueWrites` | api_yamdb/api/views.py:73-111 | on titles, genres and categories an unsafe method passes exactly for a signed-in admin or superuser, and then passes the object level too |
| `Views.FeedbackWrites` | api_yamdb/api/views.py:117-137 | on reviews and comments an unsafe method passes the collection level for any signed-in user, and the object level exactly for `admin`, `moderator` or the author |
| `Views.SuperuserNeverLosesAccess` | api_yamdb/api/views.py:36-137 | on every endpoint, at both levels, setting the superuser flag never turns an allowed request into a denied one |
| `Views.UserViewSerializer` | api_yamdb/api/views.py:47-53 | the serializer that can write `role` is chosen exactly for role `admin` without the superuser flag; a superuser gets `UserSerializer` |
| `Views.TitleViewSerializer` | api_yamdb/api/views.py:82-85 | the write serializer exactly for POST, PATCH and DELETE; every other method, PUT included, gets the read serializer |
| `Views.RoleAssignment` | api_yamdb/api/views.py:38-53 | everyone admitted to `/users/` is signed in, and the served serializer can write `role` exactly when the requester is not a superuser |
| `Accounts.GetOrCreate` | api_yamdb/api/views.py:156-159 | with one row holding the pair the store is unchanged and that row is returned; with none a row with a fresh key is added; with several the call fails and nothing changes; afterwards exactly one row holds the pair |
| `Accounts.SignUpResult` | api_yamdb/api/views.py:150-175 | once the row is fetched or created, the answer is 200 exactly when the confirmation mail carrying that row's code is delivered, 400 otherwise; a successful sign-up answers with the submitted pair and leaves exactly one row holding it; it adds no row when one existed, and otherwise adds exactly the new row (the pair, role `user`, no superuser flag) at the next key; a failed mail answers 400 and removes every row holding the pair, a pre-existing one included; no other row changes |
| `Accounts.UserStore.SignUp` | api_yamdb/api/views.py:150-175 | performs get-or-create, code, mail and rollback on the store's fields and ends in the state and response `SignUpResult` gives |
| `Accounts.FailedMailRemovesCreatedRow` | api_yamdb/api/views.py:156-175 | signing up with a pair no row holds, when the mail fails, answers 400 and leaves the users exactly as they were |
| `Accounts.FailedMailDeletesExistingRow` | api_yamdb/api/views.py:171-175 | when the mail fails, signing up again with a stored pair deletes that stored row and answers 400 |
| `Accounts.GetTokenResult` | api_yamdb/api/views.py:178-196 | an unknown username gives 404, several rows with it give 500, one row gives 400 whatever the code; no token is ever issued |
| `Accounts.UserStore.GetToken` | api_yamdb/api/views.py:178-196 | reads the store, changes nothing, and answers as `GetTokenResult` does; never issues a token |
| `Accounts.GetTokenIntended` | api_yamdb/api/views.py:187-193 | the corrected exchange issues a token exactly when one row holds the username and the generator accepts the code for it, and the token is for that row |
| `Accounts.SignUpLeavesOneHolder` | api_yamdb/api/views.py:156-170 | after a successful sign-up under a username no other row holds, exactly one row holds it, and the code mailed was made for that row |
| `Accounts.MailedCodeRefused` | api_yamdb/api/views.py:160-196 | with a sound generator, after a successful sign-up exactly one row holds the username, the code mailed to it is one the generator accepts for that row, and the exchange as written refuses that code with 400 |
| `Accounts.MailedCodeAccepted` | api_yamdb/api/views.py:160-193 | with a sound generator, after a successful sign-up exactly one row holds the username, the code mailed to it is accepted by the corrected exchange, and the token is for the row holding the pair |
| `Accounts.SaveThroughUserSerializer` | api_yamdb/users/serializers.py:7-16 | a partial save keeps `role` and the superuser flag whatever the request sends, stores every sent username, email, first name, last name and bio, and keeps every field not sent |
| `Accounts.MeResult` | api_yamdb/api/views.py:55-70 | 404 exactly when the requester's row is gone; PATCH saves the sent fields to the requester's own row through `UserSerializer`; no key, no other row and no role or superuser flag changes; GET changes nothing and shows the row through the viewset's serializer choice; the answer shows the requester's current row |
| `Accounts.UserStore.Me` | api_yamdb/api/views.py:62-70 | performs the action on the store's fields and ends in the state and response `MeResult` gives; no key and no role changes |
| `Catalog.Catalogue.ReviewQueryset` | api_yamdb/api/views.py:139-141 | not found exactly when the title is missing; otherwise the reviews of that title |
| `Catalog.Catalogue.CommentQueryset` | api_yamdb/api/views.py:122-124 | not found exactly when the review is missing, whatever the title in the URL; otherwise the comments of that review |
| `Catalog.Catalogue.CreateReview` | api_yamdb/api/views.py:143-145 | not found exactly when the title is missing; otherwise one new review under that title authored by the requester, which the title's listing then shows; parent links stay valid |
| `Catalog.Catalogue.CreateComment` | api_yamdb/api/views.py:126-131 | not found unless the review exists and belongs to the title in the URL; otherwise one new comment on that review authored by the requester, which the review's listing then shows |
| `Validators.ValidateYear` | api_yamdb/reviews/validators.py:6-10 | a year after the current one raises the validation error; any other year is returned unchanged |
| `Validators.YearBounds` | api_yamdb/reviews/validators.py:6-10 | the current year is accepted (the comparison is strict), zero and negative years are accepted, the next year is refused |

## Findings

| source | as written | input that shows it | evidently intended | confidence | as-written member | corrected member |
|---|---|---|---|---|---|---|
| api_yamdb/api/views.py:187-189 | the boolean from `check_token` is compared with the submitted code string, and a bool never equals a str | a user who has just signed up submits the code mailed to them: the answer is 400 | issue the token when `check_token` accepts the code | high (not executed) | `Accounts.MailedCodeRefused` | `Accounts.MailedCodeAccepted` |

`UserStore.GetToken` models the exchange as written; `GetTokenIntended` is
the corrected definition.

## Left out

- Mail delivery (SMTP): `send_mail` is a parameter that answers whether the mail went out.
- The token generator's HMAC and timestamp scheme: `make_token` and `check_token` are parameters of the model.
- Minting the JWT: a successful exchange is represented by the key of the user it is for.
- Request validation by `SignUpSerializer`, `TokenSerializer` and `UserSerializer` (field lengths, email format, `validate_username`): the model starts from validated data. users/validators.py is not part of this model.
- Uniqueness constraints and defaults of the user table: users/models.py is not part of this model. A new row's role is assumed to be `user`, and the store may hold several rows with the same username or email.
- Atomicity of `get_or_create` under concurrent requests, which the database provides.
- Routing, pagination, search, filtering (`TitleFilter`) and queryset ordering: framework configuration.
- The `select_related` value assigned at api/views.py:153, which is overwritten before use.
- api/utils.py (`generate_confirmation_code`, `send_email_with_code`): not used by the views modelled.
- The current date: the validator takes the current year as a parameter.
- The stock list, retrieve, update and destroy actions of the viewsets, and the 405 answer for methods outside `http_method_names`: framework behaviour.
- Validation by `ReviewSerializer` and `CommentSerializer` before `perform_create`: `CreateReview` accepts any score and a second review of the same title by the same author.
- The cascade of the `user.delete()` at api/views.py:172 to rows that reference the deleted user (reviews, comments): the store holds users only.
- The distinction between 401 and 403 on a denied request: the model only decides allow or deny.
- `RolePermission` and `UserViewSet.get_serializer_class` read `role` of the requester, which the anonymous user lacks; the model defines them only where the framework calls them (after the collection check admitted a signed-in user, or for a safe method).
