/**
 * The per-user API-key table behind `GET` and `POST /api/api-keys`
 * (app/app/api/api-keys/route.ts). The database assigns ids (a counter here)
 * and `encrypt` is a function the caller supplies.
 */
module ApiKeys {
  import opened Wrappers
  import opened Seqs
  import Http

  datatype ApiKey = ApiKey(
    id: nat,
    userId: string,
    service: string,
    keyName: string,
    encryptedKey: string,
    isActive: bool,
    createdAt: int,
    updatedAt: int)

  /** The body of a successful `POST`: the new key without its secret. */
  datatype PublicKey = PublicKey(id: nat, service: string, keyName: string, isActive: bool, createdAt: int, updatedAt: int)

  function ToPublic(k: ApiKey): PublicKey {
    PublicKey(k.id, k.service, k.keyName, k.isActive, k.createdAt, k.updatedAt)
  }

  datatype AuditEntry = AuditEntry(userId: string, action: string, resourceId: nat, service: string, keyName: string)

  /** The unique index `userId_service_keyName`. */
  predicate InSlot(k: ApiKey, userId: string, service: string, keyName: string) {
    k.userId == userId && k.service == service && k.keyName == keyName
  }

  /** `findUnique` on the unique index. */
  function FindSlot(keys: seq<ApiKey>, userId: string, service: string, keyName: string): (found: Option<ApiKey>)
    ensures found.Some? ==> found.value in keys && InSlot(found.value, userId, service, keyName)
    ensures found.None? ==> forall k :: k in keys ==> !InSlot(k, userId, service, keyName)
  {
    if keys == [] then None
    else if InSlot(keys[0], userId, service, keyName) then Some(keys[0])
    else FindSlot(keys[1..], userId, service, keyName)
  }

  /** What the table's constraints guarantee: one key per slot, one key per id. */
  predicate UniqueKeys(keys: seq<ApiKey>) {
    forall i, j :: 0 <= i < j < |keys| ==>
      keys[i].id != keys[j].id && !InSlot(keys[j], keys[i].userId, keys[i].service, keys[i].keyName)
  }

  /** `orderBy: { createdAt: 'desc' }`. */
  function NewestFirst(a: ApiKey, b: ApiKey): bool {
    a.createdAt >= b.createdAt
  }

  /** The keys of one user, newest first, as the `GET` query returns them. */
  function ListFor(keys: seq<ApiKey>, userId: string): seq<ApiKey> {
    SortBy(NewestFirst, Filter((k: ApiKey) => k.userId == userId, keys))
  }

  /**
   * The listing holds exactly the caller's keys, each as often as stored,
   * newest first.
   */
  lemma ListForSpec(keys: seq<ApiKey>, userId: string)
    ensures var list := ListFor(keys, userId);
      && (forall k :: k in list ==> k.userId == userId && k in keys)
      && (forall k :: k in keys && k.userId == userId ==> k in list)
      && Ordered(NewestFirst, list)
      && (forall k: ApiKey :: multiset(list)[k] == if k.userId == userId then multiset(keys)[k] else 0)
  {
    var owned := Filter((k: ApiKey) => k.userId == userId, keys);
    var list := ListFor(keys, userId);
    assert multiset(list) == multiset(owned);
    forall k: ApiKey ensures multiset(list)[k] == if k.userId == userId then multiset(keys)[k] else 0 {
      FilterMultiset((k: ApiKey) => k.userId == userId, keys, k);
    }
    forall k | k in list ensures k.userId == userId && k in keys {
      assert k in multiset(owned);
      assert k in owned;
      assert ((k: ApiKey) => k.userId == userId)(k);
    }
    forall k | k in keys && k.userId == userId ensures k in list {
      FilterKeeps((k: ApiKey) => k.userId == userId, keys, k);
      assert k in multiset(list);
    }
    SortByOrdered(NewestFirst, owned);
  }

  /** The `sanitizedKeys` mapping: every key rebuilt from its own fields. */
  function Sanitize(keys: seq<ApiKey>): seq<ApiKey> {
    seq(|keys|, i requires 0 <= i < |keys| =>
      var k := keys[i];
      ApiKey(k.id, k.userId, k.service, k.keyName, k.encryptedKey, k.isActive, k.createdAt, k.updatedAt))
  }

  /** Despite its name, sanitising hides nothing: the listing still carries every encrypted secret. */
  lemma SanitizeIsIdentity(keys: seq<ApiKey>)
    ensures Sanitize(keys) == keys
  {
  }

  datatype ListResponse = Keys(keys: seq<ApiKey>) | ListFail(code: int, body: Http.ErrorBody)

  datatype PostResponse = Created(code: int, key: PublicKey) | PostFail(code: int, body: Http.ErrorBody)

  /** The request body; `None` is an absent field. */
  datatype NewKeyRequest = NewKeyRequest(service: Option<string>, keyName: Option<string>, apiKey: Option<string>, description: Option<string>)

  predicate HasRequiredFields(req: NewKeyRequest) {
    Http.Truthy(req.service) && Http.Truthy(req.keyName) && Http.Truthy(req.apiKey)
  }

  class ApiKeyStore {
    var keys: seq<ApiKey>
    var nextId: nat
    var audit: seq<AuditEntry>

    ghost predicate Valid()
      reads this
    {
      UniqueKeys(keys) && forall k :: k in keys ==> k.id < nextId
    }

    constructor ()
      ensures Valid() && keys == [] && audit == []
    {
      keys := [];
      nextId := 0;
      audit := [];
    }

    /** `GET /api/api-keys`. */
    method Get(userId: Option<string>) returns (resp: ListResponse)
      ensures !Http.SignedIn(userId) ==> resp == ListFail(Http.UNAUTHORIZED, Http.RouteError("Unauthorized"))
      ensures Http.SignedIn(userId) ==> resp == Keys(ListFor(keys, userId.value))
    {
      if !Http.SignedIn(userId) {
        return ListFail(Http.UNAUTHORIZED, Http.RouteError("Unauthorized"));
      }
      var list := ListFor(keys, userId.value);
      SanitizeIsIdentity(list);
      resp := Keys(Sanitize(list));
    }

    /** `POST /api/api-keys`. */
    method Post(userId: Option<string>, req: NewKeyRequest, encrypt: string -> string, now: int) returns (resp: PostResponse)
      requires Valid()
      modifies this
      ensures Valid()
      ensures !Http.SignedIn(userId) ==>
        resp == PostFail(Http.UNAUTHORIZED, Http.RouteError("Unauthorized"))
        && keys == old(keys) && audit == old(audit)
      ensures Http.SignedIn(userId) && !HasRequiredFields(req) ==>
        resp == PostFail(Http.BAD_REQUEST, Http.RouteError("Missing required fields"))
        && keys == old(keys) && audit == old(audit)
      ensures (Http.SignedIn(userId) && HasRequiredFields(req)
        && FindSlot(old(keys), userId.value, req.service.value, req.keyName.value).Some?) ==>
        resp == PostFail(Http.BAD_REQUEST, Http.RouteError("API key with this name already exists for this service"))
        && keys == old(keys) && audit == old(audit)
      ensures resp.Created? <==>
        Http.SignedIn(userId) && HasRequiredFields(req)
        && FindSlot(old(keys), userId.value, req.service.value, req.keyName.value).None?
      ensures resp.Created? ==>
        var k := ApiKey(old(nextId), userId.value, req.service.value, req.keyName.value,
                           encrypt(req.apiKey.value), true, now, now);
        && keys == old(keys) + [k]
        && resp == Created(Http.CREATED, ToPublic(k))
        && audit == old(audit) + [AuditEntry(userId.value, "api_key_created", k.id, k.service, k.keyName)]
        && FindSlot(keys, userId.value, k.service, k.keyName) == Some(k)
      ensures resp.PostFail? ==> keys == old(keys) && audit == old(audit)
    {
      if !Http.SignedIn(userId) {
        return PostFail(Http.UNAUTHORIZED, Http.RouteError("Unauthorized"));
      }
      if !HasRequiredFields(req) {
        return PostFail(Http.BAD_REQUEST, Http.RouteError("Missing required fields"));
      }
      var owner, service, keyName := userId.value, req.service.value, req.keyName.value;
      var existing := FindSlot(keys, owner, service, keyName);
      if existing.Some? {
        return PostFail(Http.BAD_REQUEST, Http.RouteError("API key with this name already exists for this service"));
      }
      var encryptedKey := encrypt(req.apiKey.value);
      var k := ApiKey(nextId, owner, service, keyName, encryptedKey, true, now, now);
      FindSlotAppend(keys, k);
      assert forall i :: 0 <= i < |keys| ==> keys[i].id != k.id && !InSlot(k, keys[i].userId, keys[i].service, keys[i].keyName) by {
        forall i | 0 <= i < |keys| ensures keys[i].id != k.id && !InSlot(k, keys[i].userId, keys[i].service, keys[i].keyName) {
          assert keys[i] in keys;
        }
      }
      keys := keys + [k];
      nextId := nextId + 1;
      audit := audit + [AuditEntry(owner, "api_key_created", k.id, service, keyName)];
      resp := Created(Http.CREATED, ToPublic(k));
    }
  }

  /** A key added to a table without its slot is what the slot then finds. */
  lemma {:induction false} FindSlotAppend(keys: seq<ApiKey>, k: ApiKey)
    requires FindSlot(keys, k.userId, k.service, k.keyName).None?
    ensures FindSlot(keys + [k], k.userId, k.service, k.keyName) == Some(k)
  {
    if keys != [] {
      assert (keys + [k])[1..] == keys[1..] + [k];
      FindSlotAppend(keys[1..], k);
    } else {
      assert keys + [k] == [k];
    }
  }

  /** A second `POST` for the same slot is always refused. */
  method PostTwice(store: ApiKeyStore, userId: Option<string>, req: NewKeyRequest, encrypt: string -> string, now: int)
    returns (first: PostResponse, second: PostResponse)
    requires store.Valid()
    modifies store
    ensures first.Created? ==> second.PostFail? && second.code == Http.BAD_REQUEST
    ensures first.PostFail? ==> second == first
  {
    first := store.Post(userId, req, encrypt, now);
    second := store.Post(userId, req, encrypt, now);
    if first.Created? {
      assert FindSlot(store.keys, userId.value, req.service.value, req.keyName.value).Some?;
    }
  }
}
