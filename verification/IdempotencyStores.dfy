/** The two idempotency stores as objects (internal/idempotency/idempotency.go). Each keeps, for every
    key, the slot that the protocol of module Idempotency works on. */
module IdempotencyStores {
  import opened Domain
  import opened Idempotency

  /** idemKey.String: the stored key of a client's key at an endpoint. */
  function ScopedKey(endpoint: string, key: string): string {
    endpoint + "\0" + key
  }

  /** Two requests share a stored key only if they agree on endpoint and key, provided that the client
      keys have no NUL, whatever the endpoints contain. */
  lemma ScopedKeyInjective(endpoint: string, key: string, endpoint': string, key': string)
    requires '\0' !in key && '\0' !in key'
    requires ScopedKey(endpoint, key) == ScopedKey(endpoint', key')
    ensures endpoint == endpoint' && key == key'
  {
    LastNul(endpoint, key, endpoint', key');
    LastNul(endpoint', key', endpoint, key);
    var s, t := ScopedKey(endpoint, key), ScopedKey(endpoint', key');
    assert endpoint == s[..|endpoint|] && endpoint' == t[..|endpoint'|];
    assert key == s[|endpoint| + 1..] && key' == t[|endpoint'| + 1..];
  }

  /** The last NUL of a stored key ends the endpoint, so no other endpoint reaches beyond it. */
  lemma LastNul(endpoint: string, key: string, endpoint': string, key': string)
    requires '\0' !in key && ScopedKey(endpoint, key) == ScopedKey(endpoint', key')
    ensures |endpoint'| <= |endpoint|
  {
    assert ScopedKey(endpoint', key')[|endpoint'|] == '\0';
  }

  // --- in memory -------------------------------------------------------------

  datatype MemEntry = MemEntry(response: Option<Entry>, claimed: bool, expires: Time)

  class MemStore {
    var mem: map<string, MemEntry>

    constructor ()
      ensures forall key :: Slot(key) == Vacant
    {
      mem := map[];
    }

    function Slot(key: string): Slot
      reads this
    {
      if key in mem then MemSlot(mem[key].response, mem[key].expires) else Vacant
    }

    method LookupResponse(key: string, now: Time) returns (r: Option<Entry>)
      modifies this
      ensures r == Hit(old(Slot(key)), now)
      ensures Slot(key) == AfterLookup(old(Slot(key)), now)
      ensures forall k :: k != key ==> Slot(k) == old(Slot(k))
    {
      if key !in mem || now > mem[key].expires {
        if key in mem {
          mem := mem - {key};
        }
        return None;
      }
      return mem[key].response;
    }

    method Claim(key: string, now: Time, ttl: nat) returns (claimed: bool)
      modifies this
      ensures claimed == Claimable(old(Slot(key)), now)
      ensures Slot(key) == if claimed then AfterClaim(Mem, old(Slot(key)), now, ttl) else old(Slot(key))
      ensures forall k :: k != key ==> Slot(k) == old(Slot(k))
    {
      if key in mem && now < mem[key].expires {
        return false;
      }
      mem := mem[key := MemEntry(None, true, now + ttl)];
      return true;
    }

    method StoreResponse(key: string, e: Entry, now: Time, ttl: nat)
      modifies this
      ensures Slot(key) == AfterStore(Mem, old(Slot(key)), e, now, ttl)
      ensures forall k :: k != key ==> Slot(k) == old(Slot(k))
    {
      mem := mem[key := MemEntry(Some(e), false, now + ttl)];
    }
  }

  // --- in Redis --------------------------------------------------------------

  datatype Value = Mark | Response(entry: Entry)

  /** The keys and values of the Redis server, each with its expiry. */
  class RedisStore {
    const prefix: string
    var kv: map<string, (Value, Time)>

    constructor (prefix: string)
      ensures Valid() && this.prefix == (if prefix == "" then "idempot" else prefix)
      ensures forall key :: Slot(key) == Vacant
    {
      this.prefix := if prefix == "" then "idempot" else prefix;
      kv := map[];
    }

    function ClaimKey(key: string): string {
      prefix + ":claim:" + key
    }

    function RespKey(key: string): string {
      prefix + ":resp:" + key
    }

    /** Claim keys and response keys never collide, and each determines the client's key. */
    lemma KeysApart(k: string, l: string)
      ensures ClaimKey(k) != RespKey(l)
      ensures ClaimKey(k) == ClaimKey(l) || RespKey(k) == RespKey(l) ==> k == l
    {
      var n := |prefix|;
      assert ClaimKey(k)[n + 1] == 'c' && RespKey(l)[n + 1] == 'r';
      assert ClaimKey(k)[n + 7..] == k && ClaimKey(l)[n + 7..] == l;
      assert RespKey(k)[n + 6..] == k && RespKey(l)[n + 6..] == l;
    }

    /** Response keys hold responses. */
    predicate Valid()
      reads this
    {
      forall k <- kv :: |prefix| + 1 < |k| && k[|prefix| + 1] == 'r' ==> kv[k].0.Response?
    }

    function Slot(key: string): Slot
      requires Valid()
      reads this
    {
      assert RespKey(key)[|prefix| + 1] == 'r';
      if ClaimKey(key) !in kv && RespKey(key) !in kv then Vacant
      else
        RedisSlot(if ClaimKey(key) in kv then Some(kv[ClaimKey(key)].1) else None,
                  if RespKey(key) in kv then Some((kv[RespKey(key)].0.entry, kv[RespKey(key)].1)) else None)
    }

    /** GET: an expired key is gone. */
    function Get(k: string, now: Time): Option<Value>
      reads this
    {
      if k in kv && now < kv[k].1 then Some(kv[k].0) else None
    }

    method LookupResponse(key: string, now: Time) returns (r: Option<Entry>)
      requires Valid()
      ensures r == Hit(Slot(key), now)
    {
      assert RespKey(key)[|prefix| + 1] == 'r';
      var raw := Get(RespKey(key), now);
      if raw.None? {
        return None;
      }
      return Some(raw.value.entry);
    }

    /** SET NX with expiry. */
    method Claim(key: string, now: Time, ttl: nat) returns (claimed: bool)
      requires Valid()
      modifies this
      ensures Valid()
      ensures claimed == Claimable(old(Slot(key)), now)
      ensures Slot(key) == if claimed then AfterClaim(Redis, old(Slot(key)), now, ttl) else old(Slot(key))
      ensures forall k :: k != key ==> Slot(k) == old(Slot(k))
    {
      claimed := Get(ClaimKey(key), now).None?;
      if claimed {
        assert ClaimKey(key)[|prefix| + 1] == 'c';
        kv := kv[ClaimKey(key) := (Mark, now + ttl)];
      }
      forall k ensures ClaimKey(key) != RespKey(k) && (ClaimKey(k) == ClaimKey(key) ==> k == key) {
        KeysApart(key, k);
      }
    }

    /** SET with expiry. */
    method StoreResponse(key: string, e: Entry, now: Time, ttl: nat)
      requires Valid()
      modifies this
      ensures Valid()
      ensures Slot(key) == AfterStore(Redis, old(Slot(key)), e, now, ttl)
      ensures forall k :: k != key ==> Slot(k) == old(Slot(k))
    {
      kv := kv[RespKey(key) := (Response(e), now + ttl)];
      forall k ensures ClaimKey(k) != RespKey(key) && (RespKey(k) == RespKey(key) ==> k == key) {
        KeysApart(k, key);
      }
    }
  }
}
