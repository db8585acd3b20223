/**
 Process-local TTL maps with a reverse index: authentication contexts by token digest and by API key, organization
 identities by public id and by internal id.  Both pairs of dictionaries follow the same protocol.
 */
module HotpathCache {
  import opened Wrappers
  import opened Subscriptions

  /** A cached value, the owner whose invalidation must drop it, and its expiry on the process clock. */
  datatype Entry<+V> = Entry(owner: nat, value: V, expiresAt: Instant)

  datatype Index<K, V> = Index(entries: map<K, Entry<V>>, byOwner: map<nat, K>)

  /** Each entry is the one its owner points back to. */
  ghost predicate Coherent<K(!new), V>(ix: Index<K, V>) {
    forall k :: k in ix.entries ==>
      ix.entries[k].owner in ix.byOwner && ix.byOwner[ix.entries[k].owner] == k
  }

  function Put<K, V>(ix: Index<K, V>, k: K, owner: nat, value: V, ttl: int, now: Instant): Index<K, V> {
    if ttl <= 0 then ix
    else
      var moved := owner in ix.byOwner && ix.byOwner[owner] != k;
      var kept := if moved then ix.entries - {ix.byOwner[owner]} else ix.entries;
      Index(kept[k := Entry(owner, value, now + ttl)], ix.byOwner[owner := k])
  }

  /** Dropping an entry that a lookup found expired. */
  function Expire<K, V>(ix: Index<K, V>, k: K): Index<K, V>
    requires k in ix.entries
  {
    var owner := ix.entries[k].owner;
    Index(ix.entries - {k},
          if owner in ix.byOwner && ix.byOwner[owner] == k then ix.byOwner - {owner} else ix.byOwner)
  }

  function Invalidate<K, V>(ix: Index<K, V>, owner: nat): Index<K, V> {
    if owner in ix.byOwner then Index(ix.entries - {ix.byOwner[owner]}, ix.byOwner - {owner}) else ix
  }

  /** What caching means: with a positive TTL the key now maps to the value until then and its owner points at it, any
      other entry the owner pointed at is gone, and all else is as it was; without one nothing changes. */
  ghost predicate IsPut<K(!new), V(!new)>(before: Index<K, V>, after: Index<K, V>, k: K, owner: nat, value: V, ttl: int,
                                          now: Instant)
  {
    if ttl <= 0 then after == before
    else
      && k in after.entries && after.entries[k] == Entry(owner, value, now + ttl)
      && owner in after.byOwner && after.byOwner[owner] == k
      && (forall x :: x != k ==>
            (x in after.entries <==> x in before.entries && !(owner in before.byOwner && before.byOwner[owner] == x))
            && (x in after.entries ==> after.entries[x] == before.entries[x]))
      && (forall o :: o != owner ==>
            (o in after.byOwner <==> o in before.byOwner) && (o in after.byOwner ==>
                after.byOwner[o] == before.byOwner[o]))
  }

  lemma PutIsExact<K(!new), V(!new)>(ix: Index<K, V>, k: K, owner: nat, value: V, ttl: int, now: Instant)
    ensures IsPut(ix, Put(ix, k, owner, value, ttl, now), k, owner, value, ttl, now)
  {
  }

  datatype Op<K, V> =
    | PutOp(k: K, owner: nat, value: V, ttl: int, now: Instant)
    | ExpireOp(k: K)
    | InvalidateOp(owner: nat)

  function ApplyOp<K, V>(ix: Index<K, V>, op: Op<K, V>): Index<K, V> {
    match op
    case PutOp(k, owner, value, ttl, now) => Put(ix, k, owner, value, ttl, now)
    case ExpireOp(k) => if k in ix.entries then Expire(ix, k) else ix
    case InvalidateOp(owner) => Invalidate(ix, owner)
  }

  function ApplyOps<K, V>(ix: Index<K, V>, ops: seq<Op<K, V>>): Index<K, V>
    decreases |ops|
  {
    if ops == [] then ix else ApplyOps(ApplyOp(ix, ops[0]), ops[1..])
  }

  lemma {:induction false} OpsKeepCoherent<K(!new), V>(ix: Index<K, V>, ops: seq<Op<K, V>>)
    requires Coherent(ix)
    ensures Coherent(ApplyOps(ix, ops))
    decreases |ops|
  {
    if ops == [] {
    } else {
      OpsKeepCoherent(ApplyOp(ix, ops[0]), ops[1..]);
    }
  }

  /** After any sequence of operations, invalidating an owner removes every entry of that owner, and keeps every entry
      of the others except one that the owner's index still points at. */
  lemma InvalidationIsComplete<K(!new), V>(ops: seq<Op<K, V>>, owner: nat)
    ensures
      var ix := ApplyOps(Index(map[], map[]), ops);
      var gone := Invalidate(ix, owner);
      && (forall k :: k in gone.entries ==> gone.entries[k].owner != owner)
      && (forall k ::
            k in ix.entries && ix.entries[k].owner != owner && (owner in ix.byOwner ==> ix.byOwner[owner] != k)
            ==> k in gone.entries && gone.entries[k] == ix.entries[k])
  {
    OpsKeepCoherent(Index(map[], map[]), ops);
  }

  /** What authentication caches for a token: the key, its role and its own expiry. */
  datatype AuthContext = AuthContext(apiKey: nat, role: string, expiresAt: Option<Instant>)

  datatype OrgIdentity = OrgIdentity(org: nat, publicId: string)

  class Hotpath {
    var authByDigest: map<string, Entry<AuthContext>>
    var authByKey: map<nat, string>
    var orgByPublic: map<string, Entry<OrgIdentity>>
    var orgById: map<nat, string>

    ghost function Auth(): Index<string, AuthContext>
      reads this
    {
      Index(authByDigest, authByKey)
    }

    ghost function Orgs(): Index<string, OrgIdentity>
      reads this
    {
      Index(orgByPublic, orgById)
    }

    ghost predicate Valid()
      reads this
    {
      && Coherent(Auth()) && Coherent(Orgs())
      && (forall d :: d in authByDigest ==> authByDigest[d].owner == authByDigest[d].value.apiKey)
    }

    constructor ()
      ensures Valid() && authByDigest == map[] && orgByPublic == map[]
    {
      authByDigest, authByKey, orgByPublic, orgById := map[], map[], map[], map[];
    }

    method CacheAuthContext(digest: string, ctx: AuthContext, ttl: int, now: Instant)
      requires Valid()
      modifies this`authByDigest, this`authByKey
      ensures Valid() && Auth() == Put(old(Auth()), digest, ctx.apiKey, ctx, ttl, now)
      ensures IsPut(old(Auth()), Auth(), digest, ctx.apiKey, ctx, ttl, now)
    {
      PutIsExact(Auth(), digest, ctx.apiKey, ctx, ttl, now);
      if ttl <= 0 {
        return;
      }
      if ctx.apiKey in authByKey {
        var previous := authByKey[ctx.apiKey];
        if previous != digest {
          authByDigest := authByDigest - {previous};
        }
      }
      authByDigest := authByDigest[digest := Entry(ctx.apiKey, ctx, now + ttl)];
      authByKey := authByKey[ctx.apiKey := digest];
    }

    /** A hit is a live entry of a key that has not itself expired; anything else cleans up after itself. */
    method GetCachedAuthContext(digest: string, now: Instant, wallClock: Instant) returns (ctx: Option<AuthContext>)
      requires Valid()
      modifies this`authByDigest, this`authByKey
      ensures Valid()
      ensures ctx.Some? <==>
                && digest in old(authByDigest) && now < old(authByDigest)[digest].expiresAt
                && var key := old(authByDigest)[digest].value.expiresAt; key.Some? ==> wallClock < key.value
      ensures ctx.Some? ==> ctx.value == old(authByDigest)[digest].value && Auth() == old(Auth())
      ensures ctx.None? && digest in old(authByDigest) ==>
                digest !in authByDigest && authByDigest == old(authByDigest) - {digest}
    {
      if digest !in authByDigest {
        return None;
      }
      var item := authByDigest[digest];
      if now >= item.expiresAt {
        authByDigest := authByDigest - {digest};
        if item.value.apiKey in authByKey && authByKey[item.value.apiKey] == digest {
          authByKey := authByKey - {item.value.apiKey};
        }
        return None;
      }
      if item.value.expiresAt.Some? && item.value.expiresAt.value <= wallClock {
        InvalidateAuthContext(item.value.apiKey);
        return None;
      }
      return Some(item.value);
    }

    /** No context of the key survives. */
    method InvalidateAuthContext(apiKey: nat)
      requires Valid()
      modifies this`authByDigest, this`authByKey
      ensures Valid() && Auth() == Invalidate(old(Auth()), apiKey)
      ensures forall d :: d in authByDigest ==> authByDigest[d].value.apiKey != apiKey
    {
      if apiKey in authByKey {
        var digest := authByKey[apiKey];
        authByKey := authByKey - {apiKey};
        authByDigest := authByDigest - {digest};
      }
    }

    method SetL1Org(publicId: string, org: nat, ttl: int, now: Instant)
      requires Valid()
      modifies this`orgByPublic, this`orgById
      ensures Valid() && Orgs() == Put(old(Orgs()), publicId, org, OrgIdentity(org, publicId), ttl, now)
      ensures IsPut(old(Orgs()), Orgs(), publicId, org, OrgIdentity(org, publicId), ttl, now)
    {
      PutIsExact(Orgs(), publicId, org, OrgIdentity(org, publicId), ttl, now);
      if ttl <= 0 {
        return;
      }
      if org in orgById {
        var previous := orgById[org];
        if previous != publicId {
          orgByPublic := orgByPublic - {previous};
        }
      }
      orgByPublic := orgByPublic[publicId := Entry(org, OrgIdentity(org, publicId), now + ttl)];
      orgById := orgById[org := publicId];
    }

    method GetL1Org(publicId: string, now: Instant) returns (identity: Option<OrgIdentity>)
      requires Valid()
      modifies this`orgByPublic, this`orgById
      ensures Valid()
      ensures identity.Some? <==> publicId in old(orgByPublic) && now < old(orgByPublic)[publicId].expiresAt
      ensures identity.Some? ==> identity.value == old(orgByPublic)[publicId].value && Orgs() == old(Orgs())
      ensures identity.None? ==>
                && Orgs() == (if publicId in old(orgByPublic) then Expire(old(Orgs()), publicId) else old(Orgs()))
                && orgByPublic == old(orgByPublic) - {publicId}
                && (forall o :: o in orgById <==>
                      o in old(orgById) && !(publicId in old(orgByPublic) && old(orgById)[o] == publicId
                                             && old(orgByPublic)[publicId].owner == o))
    {
      if publicId !in orgByPublic {
        return None;
      }
      var item := orgByPublic[publicId];
      if now >= item.expiresAt {
        orgByPublic := orgByPublic - {publicId};
        if item.owner in orgById && orgById[item.owner] == publicId {
          orgById := orgById - {item.owner};
        }
        return None;
      }
      return Some(item.value);
    }

    /** The organization half of `drop_l1_snapshot`. */
    method DropL1Org(org: nat)
      requires Valid()
      modifies this`orgByPublic, this`orgById
      ensures Valid() && Orgs() == Invalidate(old(Orgs()), org)
      ensures forall k :: k in orgByPublic ==> orgByPublic[k].owner != org
    {
      if org in orgById {
        var publicId := orgById[org];
        orgById := orgById - {org};
        orgByPublic := orgByPublic - {publicId};
      }
    }
  }
}
