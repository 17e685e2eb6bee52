/** The in-memory refresh-token denylist (app/auth/tokens.py). */
module Tokens {
  import opened Options

  // ----- what each operation does to the dictionary -----

  function Unexpired(t: map<string, real>, now: real): map<string, real> {
    map jti | jti in t && t[jti] > now :: t[jti]
  }

  function ExpiryOf(ttl: int, now: real): real {
    now + (if ttl < 0 then 0 else ttl) as real
  }

  predicate Denied(t: map<string, real>, jti: string, now: real) {
    jti in t && t[jti] > now
  }

  /** A lookup deletes the entry it finds expired. */
  function AfterLookup(t: map<string, real>, jti: string, now: real): map<string, real> {
    if jti in t && t[jti] <= now then t - {jti} else t
  }

  function AfterRevoke(t: map<string, real>, jti: string, ttl: int, now: real): map<string, real> {
    Unexpired(t, now)[jti := ExpiryOf(ttl, now)]
  }

  // ----- the full revocation history -----

  datatype Revocation = Revocation(jti: string, expiry: real)

  function LastExpiry(history: seq<Revocation>, jti: string): Option<real> {
    if history == [] then None
    else if history[|history| - 1].jti == jti then Some(history[|history| - 1].expiry)
    else LastExpiry(history[..|history| - 1], jti)
  }

  /** What a store that forgot nothing would answer. */
  predicate RevokedBy(history: seq<Revocation>, jti: string, now: real) {
    var last := LastExpiry(history, jti);
    last.Some? && last.value > now
  }

  lemma LastOfLonger(history: seq<Revocation>, r: Revocation, jti: string)
    ensures LastExpiry(history + [r], jti) == if r.jti == jti then Some(r.expiry) else LastExpiry(history, jti)
  {
    assert (history + [r])[..|history|] == history;
  }

  predicate Rising(history: seq<Revocation>) {
    forall i, j | 0 <= i < j < |history| :: history[i].expiry <= history[j].expiry
  }

  /** With one lifetime for every revocation, as the auth service uses, the last revocation of an
      id is the one that counts longest: an id is revoked while any of its revocations lasts. */
  lemma {:induction false} AnyLiveRevocationCounts(history: seq<Revocation>, jti: string, now: real)
    requires Rising(history)
    ensures RevokedBy(history, jti, now) <==> exists r | r in history :: r.jti == jti && r.expiry > now
  {
    if history != [] {
      var earlier, last := history[..|history| - 1], history[|history| - 1];
      AnyLiveRevocationCounts(earlier, jti, now);
      assert history == earlier + [last];
      if last.jti == jti {
        forall r | r in history && r.jti == jti && r.expiry > now ensures last.expiry > now {
          var i :| 0 <= i < |history| && history[i] == r;
          assert i < |history| - 1 ==> history[i].expiry <= history[|history| - 1].expiry;
        }
      }
    }
  }

  /** What a history looks like when every revocation had the same lifetime, on a clock that rises. */
  predicate OneLifetime(history: seq<Revocation>, ttl: int, clock: real) {
    Rising(history) && forall r | r in history :: r.expiry <= ExpiryOf(ttl, clock)
  }

  lemma RevokingKeepsOneLifetime(history: seq<Revocation>, ttl: int, clock: real, jti: string, now: real)
    requires OneLifetime(history, ttl, clock) && clock <= now
    ensures OneLifetime(history, ttl, now)
    ensures OneLifetime(history + [Revocation(jti, ExpiryOf(ttl, now))], ttl, now)
  {
    var next := history + [Revocation(jti, ExpiryOf(ttl, now))];
    forall i, j | 0 <= i < j < |next| ensures next[i].expiry <= next[j].expiry {
      assert next[i] in history;
    }
  }

  // ----- the store -----

  /** What purging and lazy deletion must not lose. */
  ghost predicate Remembers(t: map<string, real>, history: seq<Revocation>, clock: real) {
    && (forall jti | jti in t :: LastExpiry(history, jti) == Some(t[jti]))
    && (forall jti | RevokedBy(history, jti, clock) :: jti in t)
  }

  class InMemoryRefreshTokenStore {
    var revoked: map<string, real>
    ghost var history: seq<Revocation>
    ghost var clock: real

    ghost predicate Valid()
      reads this
    {
      Remembers(revoked, history, clock)
    }

    constructor (ghost start: real)
      ensures Valid() && revoked == map[] && history == [] && clock == start
    {
      revoked := map[];
      history, clock := [], start;
    }

    /** `_purge`: collects the expired ids, then deletes them. */
    method Purge(now: real)
      modifies this`revoked
      ensures revoked == Unexpired(old(revoked), now)
      ensures forall jti :: jti in revoked <==> jti in old(revoked) && old(revoked)[jti] > now
      ensures forall jti | jti in revoked :: revoked[jti] == old(revoked)[jti]
    {
      var expired := [];
      var rest := revoked.Keys;
      while rest != {}
        invariant rest <= revoked.Keys
        invariant forall jti :: jti in expired <==> jti in revoked && jti !in rest && revoked[jti] <= now
      {
        var jti :| jti in rest;
        if revoked[jti] <= now {
          expired := expired + [jti];
        }
        rest := rest - {jti};
      }
      for i := 0 to |expired|
        invariant forall jti :: jti in revoked <==> jti in old(revoked) && jti !in expired[..i]
        invariant forall jti | jti in revoked :: revoked[jti] == old(revoked)[jti]
      {
        revoked := revoked - {expired[i]};
      }
    }

    method Revoke(jti: string, ttl: int, now: real)
      requires Valid() && clock <= now
      modifies this
      ensures Valid() && clock == now
      ensures history == old(history) + [Revocation(jti, ExpiryOf(ttl, now))]
      ensures revoked == AfterRevoke(old(revoked), jti, ttl, now)
      ensures jti in revoked && revoked[jti] == now + (if ttl < 0 then 0.0 else ttl as real)
      ensures forall k | k != jti ::
                && (k in revoked <==> k in old(revoked) && old(revoked)[k] > now)
                && (k in revoked ==> revoked[k] == old(revoked)[k])
    {
      Purge(now);
      revoked := revoked[jti := ExpiryOf(ttl, now)];
      history, clock := history + [Revocation(jti, ExpiryOf(ttl, now))], now;
      forall k
        ensures LastExpiry(history, k) == if k == jti then Some(ExpiryOf(ttl, now)) else LastExpiry(old(history), k)
      {
        LastOfLonger(old(history), Revocation(jti, ExpiryOf(ttl, now)), k);
      }
    }

    /** Answers exactly as the full history would. */
    method IsRevoked(jti: string, now: real) returns (r: bool)
      requires Valid() && clock <= now
      modifies this
      ensures Valid() && clock == now && history == old(history)
      ensures r == RevokedBy(history, jti, now)
      ensures r == Denied(old(revoked), jti, now) && revoked == AfterLookup(old(revoked), jti, now)
    {
      clock := now;
      if jti !in revoked {
        return false;
      }
      if revoked[jti] <= now {
        revoked := revoked - {jti};
        return false;
      }
      r := true;
    }

    method Clear()
      modifies this`revoked, this`history
      ensures Valid() && revoked == map[] && history == []
    {
      revoked, history := map[], [];
    }
  }
}
