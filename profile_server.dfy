/** The edge-function server: a sign-up handler that creates the account
    through the identity provider and stores the user's record, and GET and
    PUT handlers for that record, each guarded by the bearer token of the
    request. The key-value store is a map from key to record; the identity
    provider and the clock are parameters. */
module ProfileServer {
  import opened Values
  import opened Text

  /** The key under which a user's record is stored. */
  function UserKey(userId: string): string {
    "user:" + userId
  }

  /** Different users never share a key. */
  lemma UserKeyInjective(a: string, b: string)
    ensures UserKey(a) == UserKey(b) <==> a == b
  {
    if UserKey(a) == UserKey(b) {
      assert a == UserKey(a)[5..];
      assert b == UserKey(b)[5..];
    }
  }

  /** `c.req.header('Authorization')?.split(' ')[1]`: the second
      space-separated word of the header, if there is one. */
  function BearerToken(authorization: Option<string>): Option<string> {
    match authorization
    case None => None
    case Some(header) =>
      var words := Words(header);
      if |words| >= 2 then Some(words[1]) else None
  }

  /** A header `<scheme> <token>` yields the token. */
  lemma BearerTokenOfHeader(scheme: string, token: string)
    requires ' ' !in scheme && ' ' !in token
    ensures BearerToken(Some(scheme + " " + token)) == Some(token)
  {
    WordsOfCons(scheme, token);
    WordsOfWord(token);
  }

  /** A header without a space yields no token. */
  lemma NoBearerTokenWithoutSpace(header: string)
    requires ' ' !in header
    ensures BearerToken(Some(header)) == None
  {
    WordsOfWord(header);
  }

  /** The identity provider's answer to `getUser(token)`: `sessions` maps
      every token it accepts to its user's id. A missing token, or one it
      does not accept, is an error. The request is authorised when the
      token's user is the user named in the path. */
  predicate Authorized(userId: string, authorization: Option<string>, sessions: map<string, string>) {
    var token := BearerToken(authorization);
    token.Some? && token.value in sessions && sessions[token.value] == userId
  }

  /** The user the identity provider returns from `createUser`. */
  datatype AuthUser = AuthUser(id: string, email: string)

  /** What `supabase.auth.admin.createUser` does: returns a (possibly
      absent) user, returns an error, or throws. */
  datatype CreateUserOutcome =
    | CreatedUser(user: Option<AuthUser>)
    | CreateUserError(message: string)
    | CreateUserThrew

  /** The parsed body of a sign-up request. */
  datatype SignupBody = SignupBody(email: Option<Value>, password: Option<Value>, metadata: Option<Record>)

  /** The JSON replies; the last three are sent with status 200. */
  datatype Reply =
    | Failure(status: int, error: string)
    | SignedUp(user: Record)
    | Found(user: Record)
    | Updated(user: Record)

  /** `!email || !password`. */
  predicate MissingCredentials(body: SignupBody) {
    !Truthy(body.email) || !Truthy(body.password)
  }

  /** The record written at sign-up: id and email, then the metadata, then
      both timestamps, later entries winning. */
  function SignupRecord(user: AuthUser, metadata: Option<Record>, now: string): Record {
    Spread(
      SpreadOptional(map["id" := Str(user.id), "email" := Str(user.email)], metadata),
      map["createdAt" := Str(now), "lastActive" := Str(now)])
  }

  /** The stored record holds every metadata entry except the two
      timestamps, which are always the server's; id and email are the
      identity provider's unless the metadata supplies its own. */
  lemma SignupRecordFields(user: AuthUser, metadata: Option<Record>, now: string, k: string)
    ensures var r := SignupRecord(user, metadata, now);
      var meta := if metadata.Some? then metadata.value else map[];
      && r.Keys == {"id", "email", "createdAt", "lastActive"} + meta.Keys
      && r["createdAt"] == Str(now) && r["lastActive"] == Str(now)
      && (k in meta && k != "createdAt" && k != "lastActive" ==> r[k] == meta[k])
      && ("id" !in meta ==> r["id"] == Str(user.id))
      && ("email" !in meta ==> r["email"] == Str(user.email))
  {
  }

  /** Metadata can overwrite the id field: the record stored under one
      user's key may carry another id. */
  lemma MetadataCanOverrideId(user: AuthUser, now: string)
    requires user.id != "other"
    ensures SignupRecord(user, Some(map["id" := Str("other")]), now)["id"] != Str(user.id)
  {
  }

  /** The `user` part of the sign-up reply: id and email when the identity
      provider returned a user (JSON drops the undefined ones otherwise),
      then the metadata. */
  function SignupEcho(user: Option<AuthUser>, metadata: Option<Record>): Record {
    var base := if user.Some? then map["id" := Str(user.value.id), "email" := Str(user.value.email)] else map[];
    SpreadOptional(base, metadata)
  }

  /** The record written by PUT: the current record (or an empty one),
      overlaid by the updates, then the server's timestamp. */
  function MergedProfile(current: Option<Record>, updates: Record, now: string): Record {
    var base := if current.Some? then current.value else map[];
    Spread(Spread(base, updates), map["lastUpdated" := Str(now)])
  }

  /** Updated keys take the new values, every other key keeps its old one,
      and lastUpdated is always the server's clock, whatever the client sent. */
  lemma MergedProfileFields(current: Option<Record>, updates: Record, now: string, k: string)
    ensures var m := MergedProfile(current, updates, now);
      var base := if current.Some? then current.value else map[];
      && m.Keys == base.Keys + updates.Keys + {"lastUpdated"}
      && m["lastUpdated"] == Str(now)
      && (k != "lastUpdated" && k in updates ==> m[k] == updates[k])
      && (k != "lastUpdated" && k !in updates && k in base ==> m[k] == base[k])
  {
  }

  /** Writing one user's record leaves every other user's record as it was. */
  lemma OtherUsersUntouched(store: map<string, Record>, userId: string, r: Record, otherId: string)
    requires otherId != userId
    ensures UserKey(otherId) in store[UserKey(userId) := r] <==> UserKey(otherId) in store
    ensures UserKey(otherId) in store ==> store[UserKey(userId) := r][UserKey(otherId)] == store[UserKey(otherId)]
  {
    UserKeyInjective(userId, otherId);
  }

  /** The server with its key-value store. */
  class Server {
    var store: map<string, Record>

    constructor (initial: map<string, Record>)
      ensures store == initial
    {
      store := initial;
    }

    /** POST /signup. `body` is None when the request body is not JSON. */
    method Signup(body: Option<SignupBody>, created: CreateUserOutcome, now: string) returns (reply: Reply)
      modifies this`store
      ensures body.None? ==> reply == Failure(500, "Internal server error") && store == old(store)
      ensures body.Some? && MissingCredentials(body.value) ==>
        reply == Failure(400, "Email and password are required") && store == old(store)
      ensures body.Some? && !MissingCredentials(body.value) && created.CreateUserThrew? ==>
        reply == Failure(500, "Internal server error") && store == old(store)
      ensures body.Some? && !MissingCredentials(body.value) && created.CreateUserError? ==>
        reply == Failure(400, created.message) && store == old(store)
      ensures body.Some? && !MissingCredentials(body.value) && created.CreatedUser? ==>
        && reply == SignedUp(SignupEcho(created.user, body.value.metadata))
        && store == if created.user.Some?
                    then old(store)[UserKey(created.user.value.id) :=
                                      SignupRecord(created.user.value, body.value.metadata, now)]
                    else old(store)
    {
      if body.None? {
        return Failure(500, "Internal server error");
      }
      var b := body.value;
      if !Truthy(b.email) || !Truthy(b.password) {
        return Failure(400, "Email and password are required");
      }
      match created
      case CreateUserThrew =>
        reply := Failure(500, "Internal server error");
      case CreateUserError(message) =>
        reply := Failure(400, message);
      case CreatedUser(user) =>
        if user.Some? {
          var u := user.value;
          store := store[UserKey(u.id) := SignupRecord(u, b.metadata, now)];
        }
        reply := SignedUp(SignupEcho(user, b.metadata));
    }

    /** GET /profile/:userId. `providerThrew` says that `getUser` threw;
        `storeThrew` that `kv.get` threw, which is only reached once the
        caller is authorized. */
    method GetProfile(userId: string, authorization: Option<string>, sessions: map<string, string>,
                      providerThrew: bool, storeThrew: bool)
      returns (reply: Reply)
      ensures providerThrew ==> reply == Failure(500, "Internal server error")
      ensures !providerThrew && !Authorized(userId, authorization, sessions) ==> reply == Failure(401, "Unauthorized")
      ensures !providerThrew && Authorized(userId, authorization, sessions) && storeThrew ==>
        reply == Failure(500, "Internal server error")
      ensures !providerThrew && Authorized(userId, authorization, sessions) && !storeThrew ==>
        reply == (if UserKey(userId) in store then Found(store[UserKey(userId)]) else Failure(404, "User not found"))
    {
      if providerThrew {
        return Failure(500, "Internal server error");
      }
      var token := BearerToken(authorization);
      if token.None? || token.value !in sessions || sessions[token.value] != userId {
        return Failure(401, "Unauthorized");
      }
      if storeThrew {
        return Failure(500, "Internal server error");
      }
      var key := UserKey(userId);
      if key !in store {
        return Failure(404, "User not found");
      }
      reply := Found(store[key]);
    }

    /** PUT /profile/:userId. `updates` is None when the request body is
        not JSON; the body is read before the token is checked.
        `providerThrew` says that `getUser` threw; `storeThrew` that
        `kv.get` or `kv.set` threw, which leaves the store as it was. */
    method UpdateProfile(userId: string, authorization: Option<string>, updates: Option<Record>,
                         sessions: map<string, string>, providerThrew: bool, storeThrew: bool, now: string)
      returns (reply: Reply)
      modifies this`store
      ensures updates.None? || providerThrew ==> reply == Failure(500, "Internal server error") && store == old(store)
      ensures updates.Some? && !providerThrew && !Authorized(userId, authorization, sessions) ==>
        reply == Failure(401, "Unauthorized") && store == old(store)
      ensures updates.Some? && !providerThrew && Authorized(userId, authorization, sessions) && storeThrew ==>
        reply == Failure(500, "Internal server error") && store == old(store)
      ensures updates.Some? && !providerThrew && Authorized(userId, authorization, sessions) && !storeThrew ==>
        var merged := MergedProfile(Lookup(old(store), UserKey(userId)), updates.value, now);
        && store == old(store)[UserKey(userId) := merged]
        && reply == Updated(merged)
    {
      if updates.None? || providerThrew {
        return Failure(500, "Internal server error");
      }
      var token := BearerToken(authorization);
      if token.None? || token.value !in sessions || sessions[token.value] != userId {
        return Failure(401, "Unauthorized");
      }
      if storeThrew {
        return Failure(500, "Internal server error");
      }
      var key := UserKey(userId);
      var current := if key in store then Some(store[key]) else None;
      var merged := MergedProfile(current, updates.value, now);
      store := store[key := merged];
      reply := Updated(merged);
    }
  }

  /** `kv.get(key)`: the stored record, or None. */
  function Lookup(store: map<string, Record>, key: string): Option<Record> {
    if key in store then Some(store[key]) else None
  }
}
