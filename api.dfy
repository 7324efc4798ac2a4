/**
 * The serverless request handler (api/index.ts) over an abstract key-value
 * store. The caller's user id, the environment secrets and the codes that
 * crypto.randomUUID would return are inputs.
 */
module Api {
  import opened Wrappers
  import opened Types
  import Constants

  // ---------------------------------------------------------------------------
  // Store, requests and responses

  /** The store keys: `user:{id}` (`user:undefined` when the id is absent), `qr:{code}`, `world:chunk:{cx}:{cz}`. */
  datatype Key = UserKey(userId: Option<int>) | QrKey(code: string) | ChunkKey(cx: int, cz: int)

  /** A promo code record: its type (absent when the request gave none) and whether it was redeemed. */
  datatype QrRecord = QrRecord(qrType: Option<string>, used: bool)

  datatype Value = Profile(profile: UserData) | Qr(record: QrRecord)

  /**
   * A body field that `===` compares: missing (undefined), JSON `null`, or a
   * string. Null and undefined differ under strict equality.
   */
  datatype Field = Missing | Null | Given(text: string)

  /** The JSON body of a request; in the fields other than the password, None marks a missing or null field. */
  datatype Body = Body(
    password: Field,
    x: Option<int>, y: Option<int>, z: Option<int>, blockType: Option<int>,
    count: Option<int>, qrType: Option<string>)

  /** `body` is None when the request carries no body (null or undefined). */
  datatype Request = Request(httpMethod: string, endpoint: string, auth: string, body: Option<Body>)

  /** The environment: BOT_TOKEN and ADMIN_PASSWORD, each possibly unset. */
  datatype Env = Env(botToken: Option<string>, adminPassword: Option<string>)

  datatype Payload =
    | NoContent                      // res.end()
    | Error(message: string)         // { error }
    | Stored(value: Value)           // the user record
    | Success(ok: bool)              // { success }
    | Generated(codes: seq<string>)  // { success: true, codes }
    | EmptyObject                    // {}

  datatype Response = Response(status: int, payload: Payload)

  /** A response together with the store contents it leaves behind. */
  datatype Outcome = Outcome(response: Response, data: map<Key, Value>)

  /** The abstract key-value store the handler reads and writes. */
  class KvStore {
    var data: map<Key, Value>

    constructor (initial: map<Key, Value>)
      ensures data == initial
    {
      data := initial;
    }

    /** kv.get: the stored value, or None (null) for a missing key. */
    method Get(k: Key) returns (v: Option<Value>)
      ensures v.Some? <==> k in data
      ensures v.Some? ==> v.value == data[k]
    {
      v := if k in data then Some(data[k]) else None;
    }

    /** kv.set: writes one key, leaving every other key as it was. */
    method Set(k: Key, v: Value)
      modifies this
      ensures data == old(data)[k := v]
    {
      data := data[k := v];
    }
  }

  // ---------------------------------------------------------------------------
  // Pure helpers

  /**
   * verifyTelegramAuth: refuses exactly when BOT_TOKEN is unset or empty (a
   * falsy string); the signature check is a stub that accepts any payload.
   */
  function VerifyTelegramAuth(initData: string, botToken: Option<string>): (ok: bool)
    ensures ok <==> botToken.Some? && botToken.value != ""
  {
    if botToken.None? || botToken.value == "" then false else true
  }

  /** Math.floor(v / 32): the chunk coordinate of a world coordinate. */
  function ChunkCoord(v: int): (c: int)
    ensures Constants.CHUNK_SIZE * c <= v < Constants.CHUNK_SIZE * (c + 1)
  {
    v / 32
  }

  /** The chunk key world/place computes from the body's x and z (NaN, and no key, when either is missing). */
  function PlaceChunkKey(body: Body): (k: Option<Key>)
    ensures k.Some? <==> body.x.Some? && body.z.Some?
    ensures k.Some? ==>
      && k.value.ChunkKey?
      && 0 <= body.x.value - Constants.CHUNK_SIZE * k.value.cx < Constants.CHUNK_SIZE
      && 0 <= body.z.value - Constants.CHUNK_SIZE * k.value.cz < Constants.CHUNK_SIZE
  {
    if body.x.Some? && body.z.Some? then Some(ChunkKey(ChunkCoord(body.x.value), ChunkCoord(body.z.value)))
    else None
  }

  /** The profile user/me creates on first access. */
  function DefaultProfile(userId: Option<int>): (u: UserData)
    ensures u.tgId == userId && u.coins == 50 && !u.premium
    ensures u.inventory == [1, 2, 3, 4, 5] && u.streak == 0 && u.lastDaily == 0
    ensures u.username.None? && u.clanId.None?
  {
    UserData(userId, None, 50, false, [1, 2, 3, 4, 5], None, 0, 0)
  }

  /** The loop guard `i < count`, which is false when count is absent. */
  predicate LoopContinues(count: Option<int>, i: nat)
  {
    count.Some? && i < count.value
  }

  /** The number of rounds of `for (i = 0; i < body.count; i++)`: none when count is missing or not positive. */
  function Rounds(count: Option<int>): (n: nat)
    ensures forall i: nat :: i < n <==> LoopContinues(count, i)
  {
    if count.Some? && count.value > 0 then count.value else 0
  }

  /** The codes the first n rounds generate, in order. */
  function GeneratedCodes(uuid: nat -> string, n: nat): seq<string>
  {
    seq(n, i requires 0 <= i < n => uuid(i))
  }

  /** The store after writing `qr:{code}` = {type, used: false} for each code in turn. */
  function WriteQrCodes(data: map<Key, Value>, codes: seq<string>, qrType: Option<string>): (r: map<Key, Value>)
    ensures forall k :: k in r <==> k in data || (k.QrKey? && k.code in codes)
    ensures forall c :: c in codes ==> r[QrKey(c)] == Qr(QrRecord(qrType, false))
    ensures forall k :: k in data && !(k.QrKey? && k.code in codes) ==> r[k] == data[k]
    decreases |codes|
  {
    if codes == [] then data
    else
      var last := codes[|codes| - 1];
      var prefix := codes[..|codes| - 1];
      assert codes == prefix + [last];
      WriteQrCodes(data, prefix, qrType)[QrKey(last) := Qr(QrRecord(qrType, false))]
  }

  /** One more round writes one more key on top of the earlier writes. */
  lemma WriteQrCodesSnoc(data: map<Key, Value>, codes: seq<string>, code: string, qrType: Option<string>)
    ensures WriteQrCodes(data, codes + [code], qrType) == WriteQrCodes(data, codes, qrType)[QrKey(code) := Qr(QrRecord(qrType, false))]
  {
    assert (codes + [code])[..|codes|] == codes;
  }

  lemma GeneratedCodesSnoc(uuid: nat -> string, n: nat)
    ensures GeneratedCodes(uuid, n + 1) == GeneratedCodes(uuid, n) + [uuid(n)]
  {
  }

  // ---------------------------------------------------------------------------
  // The handler as a function of the store

  const Internal: Response := Response(500, Error("Internal Server Error"))

  /** user/me: returns the stored record, or stores and returns the default profile on a miss. */
  function UserMeOutcome(data: map<Key, Value>, userId: Option<int>): (o: Outcome)
    ensures UserKey(userId) in o.data && o.response == Response(200, Stored(o.data[UserKey(userId)]))
    ensures UserKey(userId) in data ==> o.data == data
    ensures UserKey(userId) !in data ==> o.data == data[UserKey(userId) := Profile(DefaultProfile(userId))]
  {
    var k := UserKey(userId);
    if k in data then Outcome(Response(200, Stored(data[k])), data)
    else
      var created := Profile(DefaultProfile(userId));
      Outcome(Response(200, Stored(created)), data[k := created])
  }

  /**
   * Strict equality of the body's password with ADMIN_PASSWORD: an unset variable is
   * undefined, which only a missing field equals; null equals nothing here.
   */
  predicate PasswordMatches(password: Field, adminPassword: Option<string>)
    ensures PasswordMatches(password, adminPassword) ==> !password.Null?
    ensures adminPassword.Some? ==> (PasswordMatches(password, adminPassword) <==> password == Given(adminPassword.value))
    ensures adminPassword.None? ==> (PasswordMatches(password, adminPassword) <==> password.Missing?)
  {
    match password
    case Missing => adminPassword.None?
    case Null => false
    case Given(text) => adminPassword == Some(text)
  }

  /** admin/generate-qr: 401 on a wrong password, otherwise one record per generated code. */
  function GenerateQrOutcome(data: map<Key, Value>, body: Body, env: Env, uuid: nat -> string): (o: Outcome)
    ensures !PasswordMatches(body.password, env.adminPassword) ==> o == Outcome(Response(401, EmptyObject), data)
    ensures PasswordMatches(body.password, env.adminPassword) ==>
      && o.response.status == 200 && o.response.payload.Generated?
      && |o.response.payload.codes| == Rounds(body.count)
      && (forall i :: 0 <= i < Rounds(body.count) ==> o.response.payload.codes[i] == uuid(i))
      && o.data == WriteQrCodes(data, o.response.payload.codes, body.qrType)
  {
    if !PasswordMatches(body.password, env.adminPassword) then Outcome(Response(401, EmptyObject), data)
    else
      var codes := GeneratedCodes(uuid, Rounds(body.count));
      Outcome(Response(200, Generated(codes)), WriteQrCodes(data, codes, body.qrType))
  }

  /**
   * The whole handler: OPTIONS first, then the auth gate, then the endpoint
   * switch. Reading a field of a missing body throws, which the handler turns
   * into 500. It never deletes a key, never changes an existing entry other
   * than a `qr:` one, and never creates any key but `user:{id}` and `qr:` keys.
   */
  function Handled(data: map<Key, Value>, req: Request, env: Env, userId: Option<int>, uuid: nat -> string): (o: Outcome)
    ensures o.response.status in {200, 401, 403, 404, 500}
    ensures data.Keys <= o.data.Keys
    ensures forall k :: k in data && !k.QrKey? ==> o.data[k] == data[k]
    ensures forall k :: k in o.data && k !in data ==> k == UserKey(userId) || k.QrKey?
  {
    if req.httpMethod == "OPTIONS" then Outcome(Response(200, NoContent), data)
    else if !VerifyTelegramAuth(req.auth, env.botToken) then Outcome(Response(403, Error("Unauthorized")), data)
    else if req.endpoint == "user/me" then UserMeOutcome(data, userId)
    else if req.endpoint == "world/place" then
      if req.body.None? then Outcome(Internal, data)
      else Outcome(Response(200, Success(true)), data)
    else if req.endpoint == "admin/login" then
      if req.body.None? then Outcome(Internal, data)
      else if PasswordMatches(req.body.value.password, env.adminPassword) then Outcome(Response(200, Success(true)), data)
      else Outcome(Response(401, Success(false)), data)
    else if req.endpoint == "admin/generate-qr" then
      if req.body.None? then Outcome(Internal, data)
      else GenerateQrOutcome(data, req.body.value, env, uuid)
    else Outcome(Response(404, Error("Endpoint not found")), data)
  }

  // ---------------------------------------------------------------------------
  // The handler as the source runs it, step by step against the store

  method UserMe(kv: KvStore, userId: Option<int>) returns (resp: Response)
    modifies kv
    ensures Outcome(resp, kv.data) == UserMeOutcome(old(kv.data), userId)
  {
    var userData := kv.Get(UserKey(userId));
    if userData.None? {
      var created := Profile(DefaultProfile(userId));
      kv.Set(UserKey(userId), created);
      userData := Some(created);
    }
    resp := Response(200, Stored(userData.value));
  }

  method GenerateQr(kv: KvStore, body: Body, env: Env, uuid: nat -> string) returns (resp: Response)
    modifies kv
    ensures Outcome(resp, kv.data) == GenerateQrOutcome(old(kv.data), body, env, uuid)
  {
    if !PasswordMatches(body.password, env.adminPassword) {
      return Response(401, EmptyObject);
    }
    var codes: seq<string> := [];
    var n := Rounds(body.count);
    var i := 0;
    while i < n
      invariant 0 <= i <= n
      invariant codes == GeneratedCodes(uuid, i)
      invariant kv.data == WriteQrCodes(old(kv.data), codes, body.qrType)
    {
      var code := uuid(i);
      kv.Set(QrKey(code), Qr(QrRecord(body.qrType, false)));
      WriteQrCodesSnoc(old(kv.data), codes, code, body.qrType);
      GeneratedCodesSnoc(uuid, i);
      codes := codes + [code];
      i := i + 1;
    }
    resp := Response(200, Generated(codes));
    assert Outcome(resp, kv.data) == GenerateQrOutcome(old(kv.data), body, env, uuid);
  }

  /** handler: the request's response and the store it leaves, as Handled describes. */
  method Handler(kv: KvStore, req: Request, env: Env, userId: Option<int>, uuid: nat -> string) returns (resp: Response)
    modifies kv
    ensures Outcome(resp, kv.data) == Handled(old(kv.data), req, env, userId, uuid)
  {
    if req.httpMethod == "OPTIONS" {
      return Response(200, NoContent);
    }
    if !VerifyTelegramAuth(req.auth, env.botToken) {
      return Response(403, Error("Unauthorized"));
    }
    match req.endpoint {
      case "user/me" =>
        resp := UserMe(kv, userId);
      case "world/place" =>
        if req.body.None? {
          return Internal;
        }
        // The chunk key is computed and then never used.
        var chunkKey := PlaceChunkKey(req.body.value);
        resp := Response(200, Success(true));
      case "admin/login" =>
        if req.body.None? {
          return Internal;
        }
        if PasswordMatches(req.body.value.password, env.adminPassword) {
          return Response(200, Success(true));
        }
        resp := Response(401, Success(false));
      case "admin/generate-qr" =>
        if req.body.None? {
          return Internal;
        }
        resp := GenerateQr(kv, req.body.value, env, uuid);
      case _ =>
        resp := Response(404, Error("Endpoint not found"));
    }
  }

  // ---------------------------------------------------------------------------
  // Properties

  /** Floor division, not truncation: -1 is in chunk -1, 31 in chunk 0, 32 in chunk 1. */
  lemma ChunkCoordExamples()
    ensures ChunkCoord(-1) == -1 && ChunkCoord(31) == 0 && ChunkCoord(32) == 1 && ChunkCoord(-32) == -1 && ChunkCoord(-33) == -2
  {
  }

  /** The chunk coordinate is the only c with 32c <= v < 32(c + 1). */
  lemma ChunkCoordUnique(v: int, c: int)
    requires Constants.CHUNK_SIZE * c <= v < Constants.CHUNK_SIZE * (c + 1)
    ensures c == ChunkCoord(v)
  {
  }

  /** OPTIONS answers 200 with an empty body before any auth check, and touches nothing. */
  lemma OptionsBeforeAuth(data: map<Key, Value>, req: Request, env: Env, userId: Option<int>, uuid: nat -> string)
    requires req.httpMethod == "OPTIONS"
    ensures Handled(data, req, env, userId, uuid) == Outcome(Response(200, NoContent), data)
  {
  }

  /** Without BOT_TOKEN every non-OPTIONS request gets 403 and the store is not touched. */
  lemma AuthGate(data: map<Key, Value>, req: Request, env: Env, userId: Option<int>, uuid: nat -> string)
    requires req.httpMethod != "OPTIONS"
    ensures !VerifyTelegramAuth(req.auth, env.botToken) ==>
      Handled(data, req, env, userId, uuid) == Outcome(Response(403, Error("Unauthorized")), data)
  {
  }

  /** A second user/me returns the same profile and writes nothing. */
  lemma UserMeIdempotent(data: map<Key, Value>, userId: Option<int>)
    ensures var first := UserMeOutcome(data, userId);
            UserMeOutcome(first.data, userId) == Outcome(first.response, first.data)
    ensures UserKey(userId) in UserMeOutcome(data, userId).data
  {
  }

  /** world/place validates nothing, answers success and writes no key, the chunk key it computes included. */
  lemma PlaceTouchesNoChunk(data: map<Key, Value>, req: Request, env: Env, userId: Option<int>, uuid: nat -> string)
    requires req.httpMethod != "OPTIONS" && VerifyTelegramAuth(req.auth, env.botToken)
    requires req.endpoint == "world/place" && req.body.Some?
    ensures Handled(data, req, env, userId, uuid) == Outcome(Response(200, Success(true)), data)
  {
  }

  /** admin/login succeeds exactly when the body's password equals ADMIN_PASSWORD, otherwise 401. */
  lemma AdminLoginIff(data: map<Key, Value>, req: Request, env: Env, userId: Option<int>, uuid: nat -> string)
    requires req.httpMethod != "OPTIONS" && VerifyTelegramAuth(req.auth, env.botToken)
    requires req.endpoint == "admin/login" && req.body.Some?
    ensures var o := Handled(data, req, env, userId, uuid);
            && o.data == data
            && (o.response == Response(200, Success(true)) <==> PasswordMatches(req.body.value.password, env.adminPassword))
            && (o.response == Response(401, Success(false)) <==> !PasswordMatches(req.body.value.password, env.adminPassword))
  {
  }

  /** With ADMIN_PASSWORD unset, a body without a password passes both admin checks (undefined === undefined). */
  lemma AdminOpenWhenPasswordUnset(body: Body, env: Env, data: map<Key, Value>, uuid: nat -> string)
    requires env.adminPassword.None? && body.password.Missing?
    ensures GenerateQrOutcome(data, body, env, uuid).response.status == 200
    ensures PasswordMatches(body.password, env.adminPassword)
  {
  }

  /**
   * A successful admin/generate-qr with distinct codes that no `qr:` key holds
   * yet returns those codes in generation order and adds exactly one fresh
   * record per code.
   */
  lemma GenerateQrFresh(data: map<Key, Value>, body: Body, env: Env, uuid: nat -> string)
    requires PasswordMatches(body.password, env.adminPassword)
    requires forall i, j :: 0 <= i < j < Rounds(body.count) ==> uuid(i) != uuid(j)
    requires forall i :: 0 <= i < Rounds(body.count) ==> QrKey(uuid(i)) !in data
    ensures var o := GenerateQrOutcome(data, body, env, uuid);
            && o.response.payload.codes == GeneratedCodes(uuid, Rounds(body.count))
            && |o.data| == |data| + Rounds(body.count)
            && (forall k :: k in data ==> k in o.data && o.data[k] == data[k])
            && (forall i :: 0 <= i < Rounds(body.count) ==> o.data[QrKey(uuid(i))] == Qr(QrRecord(body.qrType, false)))
  {
    var codes := GeneratedCodes(uuid, Rounds(body.count));
    FreshWritesGrow(data, codes, body.qrType);
  }

  lemma {:induction false} FreshWritesGrow(data: map<Key, Value>, codes: seq<string>, qrType: Option<string>)
    requires forall i, j :: 0 <= i < j < |codes| ==> codes[i] != codes[j]
    requires forall c :: c in codes ==> QrKey(c) !in data
    ensures |WriteQrCodes(data, codes, qrType)| == |data| + |codes|
    decreases |codes|
  {
    if codes != [] {
      var prefix := codes[..|codes| - 1];
      var last := codes[|codes| - 1];
      assert codes == prefix + [last];
      FreshWritesGrow(data, prefix, qrType);
      WriteQrCodesSnoc(data, prefix, last, qrType);
      assert last !in prefix by {
        forall i | 0 <= i < |prefix| ensures prefix[i] != last {
          assert codes[i] == prefix[i];
        }
      }
      assert QrKey(last) !in WriteQrCodes(data, prefix, qrType);
    }
  }

  /**
   * A password sent as JSON null never passes: both admin endpoints answer 401
   * and write nothing, even when ADMIN_PASSWORD is unset.
   */
  lemma NullPasswordRejected(data: map<Key, Value>, req: Request, env: Env, userId: Option<int>, uuid: nat -> string)
    requires req.httpMethod != "OPTIONS" && VerifyTelegramAuth(req.auth, env.botToken)
    requires req.endpoint in {"admin/login", "admin/generate-qr"}
    requires req.body.Some? && req.body.value.password.Null?
    ensures Handled(data, req, env, userId, uuid).response.status == 401
    ensures Handled(data, req, env, userId, uuid).data == data
  {
  }

  /** A wrong password on admin/generate-qr answers 401 and writes no key. */
  lemma GenerateQrRejected(data: map<Key, Value>, req: Request, env: Env, userId: Option<int>, uuid: nat -> string)
    requires req.httpMethod != "OPTIONS" && VerifyTelegramAuth(req.auth, env.botToken)
    requires req.endpoint == "admin/generate-qr" && req.body.Some?
    requires !PasswordMatches(req.body.value.password, env.adminPassword)
    ensures Handled(data, req, env, userId, uuid) == Outcome(Response(401, EmptyObject), data)
  {
  }

  /**
   * Any other endpoint answers 404 and touches nothing; so do the
   * reset-leaderboard and force-meteor actions of the admin panel.
   */
  lemma UnknownEndpoint(data: map<Key, Value>, req: Request, env: Env, userId: Option<int>, uuid: nat -> string)
    requires req.httpMethod != "OPTIONS" && VerifyTelegramAuth(req.auth, env.botToken)
    requires req.endpoint !in {"user/me", "world/place", "admin/login", "admin/generate-qr"}
    ensures Handled(data, req, env, userId, uuid) == Outcome(Response(404, Error("Endpoint not found")), data)
  {
  }

  /** Reading the body of a request that has none throws; the handler answers 500 and writes nothing. */
  lemma MissingBodyIs500(data: map<Key, Value>, req: Request, env: Env, userId: Option<int>, uuid: nat -> string)
    requires req.httpMethod != "OPTIONS" && VerifyTelegramAuth(req.auth, env.botToken)
    requires req.endpoint in {"world/place", "admin/login", "admin/generate-qr"} && req.body.None?
    ensures Handled(data, req, env, userId, uuid) == Outcome(Internal, data)
  {
  }

  /** The default inventory is exactly the free blocks of the catalog. */
  lemma DefaultInventoryIsFreeBlocks(userId: Option<int>)
    ensures forall id :: id in DefaultProfile(userId).inventory <==> id in Constants.BLOCKS && !Constants.BLOCKS[id].isPremium
  {
  }
}
