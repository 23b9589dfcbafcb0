/**
  The user store and the views that change or read it in api/views.py:
  sign-up (`SignUpView.post`), the token exchange (`get_token`) and the
  self-service profile action (`UserViewSet.me`).

  The store is a map from primary key to row. Django's token generator and
  mail sending are parameters: a `TokenGenerator` makes and checks codes
  from a user's id and row, and a mailer answers whether a mail went out.
  The same steps are given twice: as functions from one store value to the
  next, about which the lemmas speak, and as the methods of `UserStore`,
  which change the store step by step and are proved to agree with them.
*/
module Accounts {
  import opened Wrappers
  import opened Permissions
  import opened Views

  datatype User = User(username: string, email: string, role: string, isSuperuser: bool,
                       firstName: string, lastName: string, bio: string)

  /** The row `get_or_create` inserts: the given pair, every other column at its default. */
  function NewUser(username: string, email: string): (u: User) {
    User(username, email, UserRole, false, "", "", "")
  }

  /** The rows and the next primary key the database will hand out. */
  datatype Store = Store(users: map<nat, User>, nextId: nat)

  /** Every stored key was handed out before. */
  predicate Valid(s: Store) {
    forall id :: id in s.users ==> id < s.nextId
  }

  /** The keys of the rows with this username and this email. */
  function PairMatches(users: map<nat, User>, username: string, email: string): (ids: set<nat>) {
    set id | id in users && users[id].username == username && users[id].email == email
  }

  /** The keys of the rows with this username. */
  function UsernameMatches(users: map<nat, User>, username: string): (ids: set<nat>) {
    set id | id in users && users[id].username == username
  }

  lemma SingletonHasOneElement(s: set<nat>, x: nat, y: nat)
    requires |s| == 1 && x in s && y in s
    ensures x == y
  {
    SubsetCardinality({x, y}, s);
  }

  lemma SubsetCardinality(a: set<nat>, b: set<nat>)
    requires a <= b
    ensures |a| <= |b|
  {
    assert b == a + (b - a);
  }

  /** The element of a one-element set. */
  function Only(s: set<nat>): (x: nat)
    requires |s| == 1
    ensures s == {x}
  {
    var x :| x in s;
    assert s == {x} by {
      forall y | y in s ensures y == x { SingletonHasOneElement(s, x, y); }
    }
    x
  }

  // ---------------------------------------------------------------------
  // Oracles
  // ---------------------------------------------------------------------

  /** `default_token_generator`: a code made from a user's key and row, and the check of a code against them. */
  datatype TokenGenerator = TokenGenerator(make: (nat, User) -> string, check: (nat, User, string) -> bool)

  /** A generator that accepts, for an unchanged row, the code it made for it. */
  ghost predicate Sound(g: TokenGenerator) {
    forall id, u :: g.check(id, u, g.make(id, u))
  }

  /** A mail as `send_mail` is handed it. */
  datatype Mail = Mail(subject: string, body: string, sender: string, recipients: seq<string>)

  /** The confirmation mail of sign-up: the code is the whole body. */
  function ConfirmationMail(code: string, email: string): (m: Mail) {
    Mail("confirmation code", code, "from@yamdb.ru", [email])
  }

  // ---------------------------------------------------------------------
  // get_or_create
  // ---------------------------------------------------------------------

  /** A row found or created by `get_or_create`, or the error raised when several rows match. */
  datatype Fetched = Fetched(store: Store, id: nat, created: bool) | MultipleObjectsReturned

  /**
    `User.objects.get_or_create(username=..., email=...)`: the one matching
    row is reused unchanged; with none, a row with a fresh key is inserted;
    with several, an error is raised and nothing changes.
  */
  function GetOrCreate(s: Store, username: string, email: string): (r: Fetched)
    requires Valid(s)
    ensures r.MultipleObjectsReturned? <==> |PairMatches(s.users, username, email)| > 1
    ensures r.Fetched? ==> Valid(r.store)
    ensures r.Fetched? ==> PairMatches(r.store.users, username, email) == {r.id}
    ensures r.Fetched? ==> (r.created <==> PairMatches(s.users, username, email) == {})
    ensures r.Fetched? && !r.created ==> r.store == s
    ensures r.Fetched? && r.created ==>
      r.id !in s.users && r.store.users == s.users[r.id := NewUser(username, email)]
  {
    var matches := PairMatches(s.users, username, email);
    if |matches| > 1 then MultipleObjectsReturned
    else if matches == {} then
      var id := s.nextId;
      var s' := Store(s.users[id := NewUser(username, email)], s.nextId + 1);
      assert PairMatches(s'.users, username, email) == {id};
      Fetched(s', id, true)
    else
      Fetched(s, Only(matches), false)
  }

  // ---------------------------------------------------------------------
  // Sign-up
  // ---------------------------------------------------------------------

  /** 200 with the submitted pair, 400 after a failed mail, or the 500 of several matching rows. */
  datatype SignUpResponse = SignUpOk(username: string, email: string) | SignUpBadRequest | SignUpServerError

  /**
    `SignUpView.post` on a validated pair: get or create the row, mail it a
    code, and delete the row if the mail fails, whether or not it was just
    created. Every row that does not carry the pair is left alone.
  */
  function SignUpResult(s: Store, username: string, email: string, tokens: TokenGenerator, mailer: Mail -> bool)
    : (r: (Store, SignUpResponse))
    requires Valid(s)
    ensures Valid(r.0)
    ensures r.1.SignUpServerError? <==> |PairMatches(s.users, username, email)| > 1
    ensures r.1.SignUpServerError? ==> r.0 == s
    ensures var f := GetOrCreate(s, username, email);
      f.Fetched? ==> (r.1.SignUpOk? <==> mailer(ConfirmationMail(tokens.make(f.id, f.store.users[f.id]), email)))
    ensures r.1.SignUpOk? ==> r.1 == SignUpOk(username, email) && |PairMatches(r.0.users, username, email)| == 1
    ensures r.1.SignUpOk? && PairMatches(s.users, username, email) != {} ==> r.0 == s
    ensures r.1.SignUpOk? && PairMatches(s.users, username, email) == {} ==>
      s.nextId !in s.users && r.0.users == s.users[s.nextId := NewUser(username, email)]
    ensures r.1.SignUpBadRequest? ==>
      r.0.users == s.users - PairMatches(s.users, username, email) &&
      PairMatches(r.0.users, username, email) == {}
    ensures forall id :: id in s.users && id !in PairMatches(s.users, username, email) ==>
      id in r.0.users && r.0.users[id] == s.users[id]
  {
    match GetOrCreate(s, username, email)
    case MultipleObjectsReturned => (s, SignUpServerError)
    case Fetched(s1, id, _) =>
      var code := tokens.make(id, s1.users[id]);
      if mailer(ConfirmationMail(code, email)) then (s1, SignUpOk(username, email))
      else
        var s2 := s1.(users := s1.users - {id});
        assert s2.users == s.users - PairMatches(s.users, username, email);
        (s2, SignUpBadRequest)
  }

  // ---------------------------------------------------------------------
  // Token exchange
  // ---------------------------------------------------------------------

  /** 200 with a token minted for a user, 400, the 404 of an unknown username, or the 500 of several rows with it. */
  datatype TokenResponse = TokenIssued(userId: nat) | TokenBadRequest | TokenNotFound | TokenServerError

  /** The two value types the exchange compares: Python's `==` between a bool and a str is always false. */
  datatype PyValue = PyBool(b: bool) | PyStr(s: string)

  /**
    `get_token` as written: it finds the user by username, asks the generator
    whether the code is valid, and then compares that boolean with the code
    string. The comparison never holds, so no user ever gets a token.
  */
  function GetTokenResult(s: Store, username: string, code: string, tokens: TokenGenerator): (r: TokenResponse)
    ensures r == TokenNotFound <==> UsernameMatches(s.users, username) == {}
    ensures r == TokenServerError <==> |UsernameMatches(s.users, username)| > 1
    ensures r == TokenBadRequest <==> |UsernameMatches(s.users, username)| == 1
    ensures !r.TokenIssued?
  {
    var matches := UsernameMatches(s.users, username);
    if matches == {} then TokenNotFound
    else if |matches| > 1 then TokenServerError
    else
      var id := Only(matches);
      var valid := tokens.check(id, s.users[id], code);
      if PyBool(valid) == PyStr(code) then TokenIssued(id) else TokenBadRequest
  }

  /** The exchange as evidently intended: a token exactly when the generator accepts the code. */
  function GetTokenIntended(s: Store, username: string, code: string, tokens: TokenGenerator): (r: TokenResponse)
    ensures r == TokenNotFound <==> UsernameMatches(s.users, username) == {}
    ensures r == TokenServerError <==> |UsernameMatches(s.users, username)| > 1
    ensures r.TokenIssued? <==>
      exists id :: UsernameMatches(s.users, username) == {id} && tokens.check(id, s.users[id], code)
    ensures r.TokenIssued? ==> r.userId in s.users && s.users[r.userId].username == username
  {
    var matches := UsernameMatches(s.users, username);
    if matches == {} then TokenNotFound
    else if |matches| > 1 then TokenServerError
    else
      var id := Only(matches);
      if tokens.check(id, s.users[id], code) then TokenIssued(id) else TokenBadRequest
  }

  /**
    A successful sign-up under a username no other row holds leaves exactly
    one row with that username, and the code mailed to it is the one the
    generator made for that row.
  */
  lemma SignUpLeavesOneHolder(s: Store, username: string, email: string,
                              tokens: TokenGenerator, mailer: Mail -> bool)
    requires Valid(s)
    requires UsernameMatches(s.users, username) <= PairMatches(s.users, username, email)
    requires SignUpResult(s, username, email, tokens, mailer).1.SignUpOk?
    ensures var s' := SignUpResult(s, username, email, tokens, mailer).0;
      exists id :: UsernameMatches(s'.users, username) == {id} &&
        mailer(ConfirmationMail(tokens.make(id, s'.users[id]), email))
  {
  }

  /**
    The code a sound generator mails at sign-up is refused by `get_token` as
    written: the user gets 400 where a token was due.
  */
  lemma MailedCodeRefused(s: Store, username: string, email: string,
                          tokens: TokenGenerator, mailer: Mail -> bool)
    requires Valid(s) && Sound(tokens)
    requires UsernameMatches(s.users, username) <= PairMatches(s.users, username, email)
    requires SignUpResult(s, username, email, tokens, mailer).1.SignUpOk?
    ensures var s' := SignUpResult(s, username, email, tokens, mailer).0;
      exists id :: UsernameMatches(s'.users, username) == {id} &&
        mailer(ConfirmationMail(tokens.make(id, s'.users[id]), email)) &&
        tokens.check(id, s'.users[id], tokens.make(id, s'.users[id])) &&
        GetTokenResult(s', username, tokens.make(id, s'.users[id]), tokens) == TokenBadRequest
  {
  }

  /** The same code is accepted by the intended exchange, which mints the token for the row holding the pair. */
  lemma MailedCodeAccepted(s: Store, username: string, email: string,
                           tokens: TokenGenerator, mailer: Mail -> bool)
    requires Valid(s) && Sound(tokens)
    requires UsernameMatches(s.users, username) <= PairMatches(s.users, username, email)
    requires SignUpResult(s, username, email, tokens, mailer).1.SignUpOk?
    ensures var s' := SignUpResult(s, username, email, tokens, mailer).0;
      exists id :: UsernameMatches(s'.users, username) == {id} &&
        mailer(ConfirmationMail(tokens.make(id, s'.users[id]), email)) &&
        GetTokenIntended(s', username, tokens.make(id, s'.users[id]), tokens) == TokenIssued(id)
  {
  }

  /**
    Signing up again with a pair already stored, when the mail fails, deletes
    the row that was there before: the rollback is not limited to rows the
    call created.
  */
  lemma FailedMailDeletesExistingRow(s: Store, id: nat, tokens: TokenGenerator, mailer: Mail -> bool)
    requires Valid(s) && id in s.users
    requires !mailer(ConfirmationMail(tokens.make(id, s.users[id]), s.users[id].email))
    requires |PairMatches(s.users, s.users[id].username, s.users[id].email)| == 1
    ensures var r := SignUpResult(s, s.users[id].username, s.users[id].email, tokens, mailer);
      r.1 == SignUpBadRequest && id !in r.0.users
  {
  }

  /**
    Signing up with a pair no row holds, when the mail fails, answers 400 and
    leaves the users exactly as they were: the row just created is removed.
  */
  lemma FailedMailRemovesCreatedRow(s: Store, username: string, email: string,
                                    tokens: TokenGenerator, mailer: Mail -> bool)
    requires Valid(s) && PairMatches(s.users, username, email) == {}
    requires !mailer(ConfirmationMail(tokens.make(s.nextId, NewUser(username, email)), email))
    ensures var r := SignUpResult(s, username, email, tokens, mailer);
      r.1 == SignUpBadRequest && r.0.users == s.users
  {
  }

  // ---------------------------------------------------------------------
  // The `me` action
  // ---------------------------------------------------------------------

  /** The fields a PATCH may carry; `None` is a field left out of the partial update. */
  datatype Patch = Patch(username: Option<string>, email: Option<string>, firstName: Option<string>,
                         lastName: Option<string>, bio: Option<string>, role: Option<string>)

  function Pick(field: Option<string>, current: string): (v: string) {
    if field.Some? then field.value else current
  }

  /** A partial save through `UserSerializer`: sent fields are stored, except `role`, which is read-only there. */
  function SaveThroughUserSerializer(u: User, p: Patch): (v: User)
    ensures v.role == u.role && v.isSuperuser == u.isSuperuser
    ensures p.username.Some? ==> v.username == p.username.value
    ensures p.email.Some? ==> v.email == p.email.value
    ensures p.firstName.Some? ==> v.firstName == p.firstName.value
    ensures p.lastName.Some? ==> v.lastName == p.lastName.value
    ensures p.bio.Some? ==> v.bio == p.bio.value
    ensures p.username.None? ==> v.username == u.username
    ensures p.email.None? ==> v.email == u.email
    ensures p.firstName.None? ==> v.firstName == u.firstName
    ensures p.lastName.None? ==> v.lastName == u.lastName
    ensures p.bio.None? ==> v.bio == u.bio
  {
    u.(username := Pick(p.username, u.username), email := Pick(p.email, u.email),
       firstName := Pick(p.firstName, u.firstName), lastName := Pick(p.lastName, u.lastName),
       bio := Pick(p.bio, u.bio))
  }

  /** The row shown and the serializer that showed it, or the 404 of a requester whose row is gone. */
  datatype MeResponse = MeOk(user: User, serializer: Serializer) | MeNotFound

  /**
    `UserViewSet.me` for a signed-in requester: GET shows their own row
    through the viewset's serializer; PATCH saves the sent fields to their
    own row through `UserSerializer`. No other row and no role changes.
  */
  function MeResult(s: Store, a: Actor, verb: string, p: Patch): (r: (Store, MeResponse))
    requires a.Member?
    ensures r.1.MeNotFound? <==> a.id !in s.users
    ensures r.0.users.Keys == s.users.Keys && r.0.nextId == s.nextId
    ensures forall id :: id in s.users && id != a.id ==> r.0.users[id] == s.users[id]
    ensures forall id :: id in s.users ==>
      r.0.users[id].role == s.users[id].role && r.0.users[id].isSuperuser == s.users[id].isSuperuser
    ensures verb != "PATCH" ==> r.0 == s
    ensures r.1.MeOk? ==> r.1.user == r.0.users[a.id]
    ensures verb == "PATCH" && r.1.MeOk? ==>
      r.1.serializer == UserSerializer && r.0.users[a.id] == SaveThroughUserSerializer(s.users[a.id], p)
    ensures verb != "PATCH" && r.1.MeOk? ==> r.1.serializer == UserViewSerializer(a)
  {
    if a.id !in s.users then (s, MeNotFound)
    else if verb == "PATCH" then
      var v := SaveThroughUserSerializer(s.users[a.id], p);
      (s.(users := s.users[a.id := v]), MeOk(v, UserSerializer))
    else (s, MeOk(s.users[a.id], UserViewSerializer(a)))
  }

  // ---------------------------------------------------------------------
  // The store as the views change it
  // ---------------------------------------------------------------------

  class UserStore {
    var users: map<nat, User>
    var nextId: nat

    function State(): Store
      reads this
    {
      Store(users, nextId)
    }

    /** An empty table; keys start at 1. */
    constructor ()
      ensures Valid(State()) && users == map[] && nextId == 1
    {
      users := map[];
      nextId := 1;
    }

    /** Sign-up: get or create, make the code, mail it, delete on a failed mail. */
    method SignUp(username: string, email: string, tokens: TokenGenerator, mailer: Mail -> bool)
      returns (response: SignUpResponse)
      requires Valid(State())
      modifies this
      ensures Valid(State())
      ensures (State(), response) == SignUpResult(old(State()), username, email, tokens, mailer)
    {
      var matches := PairMatches(users, username, email);
      if |matches| > 1 {
        return SignUpServerError;
      }
      var id: nat;
      if matches == {} {
        id := nextId;
        users := users[id := NewUser(username, email)];
        nextId := nextId + 1;
      } else {
        id := Only(matches);
      }
      var code := tokens.make(id, users[id]);
      var delivered := mailer(ConfirmationMail(code, email));
      if delivered {
        response := SignUpOk(username, email);
      } else {
        users := users - {id};
        response := SignUpBadRequest;
      }
    }

    /** The token exchange reads the store and changes nothing. */
    method GetToken(username: string, code: string, tokens: TokenGenerator) returns (response: TokenResponse)
      ensures response == GetTokenResult(State(), username, code, tokens)
    {
      var matches := UsernameMatches(users, username);
      if matches == {} {
        return TokenNotFound;
      }
      if |matches| > 1 {
        return TokenServerError;
      }
      var id := Only(matches);
      var valid := tokens.check(id, users[id], code);
      if PyBool(valid) == PyStr(code) {
        response := TokenIssued(id);
      } else {
        response := TokenBadRequest;
      }
    }

    /** The `me` action: show or patch the requester's own row. */
    method Me(a: Actor, verb: string, p: Patch) returns (response: MeResponse)
      requires a.Member?
      modifies this
      ensures (State(), response) == MeResult(old(State()), a, verb, p)
      ensures users.Keys == old(users).Keys
      ensures forall id :: id in users ==> users[id].role == old(users)[id].role
    {
      if a.id !in users {
        return MeNotFound;
      }
      var user := users[a.id];
      if verb == "PATCH" {
        user := SaveThroughUserSerializer(user, p);
        users := users[a.id := user];
        response := MeOk(user, UserSerializer);
      } else {
        response := MeOk(user, UserViewSerializer(a));
      }
    }
  }
}
