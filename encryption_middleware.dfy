/** The two Express middlewares that apply the envelope to the whitelisted top-level keys
    of a request body (`encryptSensitiveData`) or of `res.locals.data`
    (`decryptSensitiveData`). */
module EncryptionMiddleware {
  import opened Wrappers
  import opened JsValues
  import opened Encryption
  import opened Records

  /** The top-level keys whose values are encrypted at rest. */
  const SENSITIVE_FIELDS: seq<string> :=
    ["name", "category", "prescription", "dosagePerDay", "quantity", "timesOfDay", "repeatDays", "dosageAmount"]

  /** How the middleware hands on: `next()` or `next(error)`. */
  datatype NextCall = Next | NextWithError(error: string)

  /** A JavaScript object that the middleware rewrites in place (`req.body`,
      `res.locals.data`). */
  class JsObject {
    var fields: map<string, Json>
  }

  /** What the two guards decide before any field is touched. */
  datatype Gate = Skip | Forward(error: string) | Proceed(key: string)

  /** `!req.user?.id`, then the user lookup, then `!user?.encryptionKey`. An empty id and
      an empty key are falsy and skip like absent ones. */
  function Guard(userId: Option<string>, findUser: UserLookup): (g: Gate)
    ensures g.Proceed? <==>
      userId.Some? && userId.value != "" && findUser(userId.value).Ok? &&
      findUser(userId.value).value.Some? &&
      findUser(userId.value).value.value.encryptionKey.Some? &&
      findUser(userId.value).value.value.encryptionKey.value != ""
    ensures g.Proceed? ==> Some(g.key) == findUser(userId.value).value.value.encryptionKey
    ensures g.Forward? <==> userId.Some? && userId.value != "" && findUser(userId.value).Err?
    ensures g.Forward? ==> g.error == findUser(userId.value).message
  {
    match userId
    case None => Skip
    case Some(id) =>
      if id == "" then Skip
      else
        match findUser(id)
        case Err(e) => Forward(e)
        case Ok(None) => Skip
        case Ok(Some(user)) =>
          match user.encryptionKey
          case None => Skip
          case Some(key) => if key == "" then Skip else Proceed(key)
  }

  /** Per-key entropy: the iv and salt that `encrypt` draws for the value under `key`. */
  type Draws = string -> (bytes, bytes)

  ghost predicate WellSized(draw: Draws) {
    forall k :: |draw(k).0| == IV_LENGTH && |draw(k).1| == SALT_LENGTH
  }

  /** The object after `Object.assign(body, encryptedData)`: every sensitive key holds its
      value's envelope; nothing else changes and no key is added or removed. */
  function EncryptedFields(p: Primitives, fields: map<string, Json>, key: string, draw: Draws): (r: map<string, Json>)
    requires WellSized(draw)
    ensures r.Keys == fields.Keys
    ensures forall k :: k in fields && k !in SENSITIVE_FIELDS ==> r[k] == fields[k]
    ensures forall k :: k in r && k in SENSITIVE_FIELDS ==> r[k].Str?
  {
    map k | k in fields :: if k in SENSITIVE_FIELDS then Str(Encrypt(p, fields[k], key, draw(k).0, draw(k).1)) else fields[k]
  }

  /** The value `decryptSensitiveData` leaves under one key: a sensitive string is replaced
      by its decryption, or kept when `decrypt` throws; anything else is left alone. */
  function DecryptedValue(p: Primitives, k: string, v: Json, key: string): Json {
    if k in SENSITIVE_FIELDS && v.Str? then
      match Decrypt(p, v.s, key)
      case Ok(plain) => plain
      case Err(_) => v
    else v
  }

  /** The object after `Object.assign(data, decryptedData)`. */
  function DecryptedFields(p: Primitives, fields: map<string, Json>, key: string): (r: map<string, Json>)
    ensures r.Keys == fields.Keys
    ensures forall k :: k in fields && (k !in SENSITIVE_FIELDS || !fields[k].Str?) ==> r[k] == fields[k]
    ensures forall k :: k in fields && fields[k].Str? && Decrypt(p, fields[k].s, key).Err? ==> r[k] == fields[k]
    ensures forall k :: k in fields && k in SENSITIVE_FIELDS && fields[k].Str? && Decrypt(p, fields[k].s, key).Ok? ==>
      r[k] == Decrypt(p, fields[k].s, key).value
  {
    map k | k in fields :: DecryptedValue(p, k, fields[k], key)
  }

  /** `encryptSensitiveData`. The loop is the `forEach` over `Object.entries(req.body)`
      filling `encryptedData`; its order does not matter to the result. */
  method EncryptSensitiveData(p: Primitives, userId: Option<string>, findUser: UserLookup,
                              body: JsObject?, draw: Draws) returns (call: NextCall)
    requires WellSized(draw)
    modifies body
    ensures Guard(userId, findUser).Forward? ==> call == NextWithError(Guard(userId, findUser).error)
    ensures !Guard(userId, findUser).Forward? ==> call == Next
    ensures body != null && Guard(userId, findUser).Proceed? ==>
      body.fields == EncryptedFields(p, old(body.fields), Guard(userId, findUser).key, draw)
    ensures body != null && !Guard(userId, findUser).Proceed? ==> body.fields == old(body.fields)
  {
    var gate := Guard(userId, findUser);
    if gate.Forward? {
      return NextWithError(gate.error);
    }
    if gate.Skip? || body == null {
      return Next;
    }
    var key := gate.key;
    var encrypted: map<string, Json> := map[];
    var remaining := body.fields.Keys;
    while remaining != {}
      invariant remaining <= body.fields.Keys
      invariant forall k :: k in encrypted <==> k in body.fields && k !in remaining && k in SENSITIVE_FIELDS
      invariant forall k :: k in encrypted ==>
        encrypted[k] == Str(Encrypt(p, body.fields[k], key, draw(k).0, draw(k).1))
      decreases remaining
    {
      var k :| k in remaining;
      if k in SENSITIVE_FIELDS {
        encrypted := encrypted[k := Str(Encrypt(p, body.fields[k], key, draw(k).0, draw(k).1))];
      }
      remaining := remaining - {k};
    }
    body.fields := body.fields + encrypted;
    return Next;
  }

  /** `decryptSensitiveData`, with `data` standing for `res.locals.data` when it is an
      object. */
  method DecryptSensitiveData(p: Primitives, userId: Option<string>, findUser: UserLookup,
                              data: JsObject?) returns (call: NextCall)
    modifies data
    ensures Guard(userId, findUser).Forward? ==> call == NextWithError(Guard(userId, findUser).error)
    ensures !Guard(userId, findUser).Forward? ==> call == Next
    ensures data != null && Guard(userId, findUser).Proceed? ==>
      data.fields == DecryptedFields(p, old(data.fields), Guard(userId, findUser).key)
    ensures data != null && !Guard(userId, findUser).Proceed? ==> data.fields == old(data.fields)
  {
    var gate := Guard(userId, findUser);
    if gate.Forward? {
      return NextWithError(gate.error);
    }
    if gate.Skip? || data == null {
      return Next;
    }
    var key := gate.key;
    var decrypted: map<string, Json> := map[];
    var remaining := data.fields.Keys;
    while remaining != {}
      invariant remaining <= data.fields.Keys
      invariant forall k :: k in decrypted <==>
        k in data.fields && k !in remaining && k in SENSITIVE_FIELDS && data.fields[k].Str?
      invariant forall k :: k in decrypted ==> decrypted[k] == DecryptedValue(p, k, data.fields[k], key)
      decreases remaining
    {
      var k :| k in remaining;
      var value := data.fields[k];
      if k in SENSITIVE_FIELDS && value.Str? {
        var plain := Decrypt(p, value.s, key);
        if plain.Ok? {
          decrypted := decrypted[k := plain.value];
        } else {
          decrypted := decrypted[k := value];
        }
      }
      remaining := remaining - {k};
    }
    data.fields := data.fields + decrypted;
    return Next;
  }

  /** Decrypting a record just encrypted with the same key gives the record back when
      JSON carries its sensitive values: every sensitive value became a string envelope,
      and each envelope decrypts to its value. */
  lemma {:induction false} DecryptEncryptedFields(p: Primitives, fields: map<string, Json>, key: string, draw: Draws)
    requires Sound(p) && WellSized(draw)
    requires forall k :: k in fields && k in SENSITIVE_FIELDS ==> JsonCarries(p, fields[k])
    ensures DecryptedFields(p, EncryptedFields(p, fields, key, draw), key) == fields
  {
    var enc := EncryptedFields(p, fields, key, draw);
    var dec := DecryptedFields(p, enc, key);
    forall k | k in fields ensures dec[k] == fields[k] {
      if k in SENSITIVE_FIELDS {
        DecryptEncrypt(p, fields[k], key, draw(k).0, draw(k).1);
      }
    }
  }
}
