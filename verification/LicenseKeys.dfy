/** internal/activation: the keys and access tokens of one license. Key rotation and the exchange of a recovery
    token each run in one transaction under the license's lock, so each is one method here; `now` is the time
    its request read before it took the lock, and need not follow the order of the transactions. */
module LicenseKeys {
  import opened Basics
  import opened Entitlement

  type KeyId = string
  type Hash = string

  const ROTATION_COOLDOWN: int := 24 * HOUR
  const MINUTE: int := 60 * SECOND
  const MANAGEMENT_LIFETIME: int := 15 * MINUTE
  const RECOVERY_LIFETIME: int := 30 * MINUTE

  datatype LicenseKey = LicenseKey(secretHash: Hash, createdAt: Time, revokedAt: Option<Time>)

  datatype Purpose = Management | Recovery

  datatype AccessToken = AccessToken(purpose: Purpose, createdAt: Time, expiresAt: Time, consumedAt: Option<Time>)

  datatype Answer = Done | Unauthorized | RateLimited(retryAfter: int)

  /** A rotation that was carried out: the management session it consumed, the key it revoked, and when. */
  datatype Rotation = Rotation(token: Hash, revoked: KeyId, at: Time)

  // ----- the cooldown -----

  /** Seconds to wait before another rotation is allowed; zero when it is allowed now. */
  function RetryAfter(lastRotation: Option<Time>, now: Time): int {
    if lastRotation.None? || now >= lastRotation.value + ROTATION_COOLDOWN then 0
    else
      var remaining := lastRotation.value + ROTATION_COOLDOWN - now;
      var seconds := (remaining + SECOND - 1) / SECOND;
      if seconds > 1 then seconds else 1
  }

  /** Waiting exactly as long as asked is always enough, and no whole number of seconds less would be. */
  lemma WaitingIsEnough(lastRotation: Option<Time>, now: Time)
    ensures var seconds := RetryAfter(lastRotation, now);
            && RetryAfter(lastRotation, now + seconds * SECOND) == 0
            && (seconds > 0 ==> RetryAfter(lastRotation, now + (seconds - 1) * SECOND) > 0)
  {
  }

  /** `max(revoked_at)` over a set of revoked keys. */
  ghost predicate IsLastRotation(last: Option<Time>, keys: map<KeyId, LicenseKey>, ids: set<KeyId>)
    requires ids <= keys.Keys
  {
    && (last.None? <==> forall id :: id in ids ==> keys[id].revokedAt.None?)
    && (last.Some? ==> (exists id :: id in ids && keys[id].revokedAt == last)
                       && forall id :: id in ids && keys[id].revokedAt.Some? ==> keys[id].revokedAt.value <= last.value)
  }

  // ----- what the stored rows satisfy -----

  predicate IsActive(keys: map<KeyId, LicenseKey>, id: KeyId) {
    id in keys && keys[id].revokedAt.None?
  }

  /** Exactly one key is active; of the revoked ones only the one the latest rotation revoked is kept. */
  ghost predicate KeysValid(keys: map<KeyId, LicenseKey>, rotations: seq<Rotation>) {
    && (exists id :: IsActive(keys, id))
    && (forall a, b :: IsActive(keys, a) && IsActive(keys, b) ==> a == b)
    && (forall a, b :: a in keys && b in keys && keys[a].secretHash == keys[b].secretHash ==> a == b)
    && (forall id :: id in keys && !IsActive(keys, id) ==> rotations != [] && id == Latest(rotations).revoked)
    && (rotations != [] ==>
          Latest(rotations).revoked in keys
          && keys[Latest(rotations).revoked].revokedAt == Some(Latest(rotations).at))
  }

  function Latest(rotations: seq<Rotation>): Rotation
    requires rotations != []
  {
    rotations[|rotations| - 1]
  }

  function Lifetime(purpose: Purpose): int {
    if purpose == Management then MANAGEMENT_LIFETIME else RECOVERY_LIFETIME
  }

  /** A token lives as long as its purpose says, and only a recovery token can be consumed. */
  predicate TokenValid(t: AccessToken) {
    t.expiresAt == t.createdAt + Lifetime(t.purpose) && (t.purpose == Management ==> t.consumedAt.None?)
  }

  ghost predicate TokensValid(tokens: map<Hash, AccessToken>, minted: set<Hash>) {
    forall t :: t in tokens ==> TokenValid(tokens[t]) && t in minted
  }

  /** Rotations are a cooldown apart, and each consumed a session of its own. */
  ghost predicate RotationsValid(rotations: seq<Rotation>, tokens: map<Hash, AccessToken>, minted: set<Hash>) {
    && (forall i, j :: 0 <= i < j < |rotations| ==>
          rotations[i].at + ROTATION_COOLDOWN <= rotations[j].at && rotations[i].token != rotations[j].token)
    && (forall i :: 0 <= i < |rotations| ==> rotations[i].token in minted && rotations[i].token !in tokens)
  }

  /** A recovery token is exchanged once, and stays consumed as long as it is stored. */
  ghost predicate ExchangesValid(exchanged: seq<Hash>, tokens: map<Hash, AccessToken>, minted: set<Hash>) {
    && (forall i, j :: 0 <= i < j < |exchanged| ==> exchanged[i] != exchanged[j])
    && (forall t :: t in exchanged ==>
          t in minted
          && (t in tokens ==> tokens[t].purpose == Recovery && tokens[t].consumedAt.Some?))
  }

  /** `max(revoked_at)` is the time of the latest rotation. */
  lemma LastRotationIsLatest(keys: map<KeyId, LicenseKey>, rotations: seq<Rotation>, last: Option<Time>)
    requires KeysValid(keys, rotations) && IsLastRotation(last, keys, keys.Keys)
    ensures last == if rotations == [] then None else Some(Latest(rotations).at)
  {
  }

  /** The keys a rotation leaves. */
  function RotatedKeys(keys: map<KeyId, LicenseKey>, revoked: KeyId, newKeyId: KeyId, newSecretHash: Hash, now: Time)
    : map<KeyId, LicenseKey>
    requires revoked in keys
  {
    var marked := keys[revoked := keys[revoked].(revokedAt := Some(now))];
    var inserted := marked[newKeyId := LicenseKey(newSecretHash, now, None)];
    map id | id in inserted && (inserted[id].revokedAt.None? || id == revoked) :: inserted[id]
  }

  lemma RotationKeepsKeys(keys: map<KeyId, LicenseKey>, rotations: seq<Rotation>, rotation: Rotation, newKeyId: KeyId,
                          newSecretHash: Hash)
    requires KeysValid(keys, rotations) && IsActive(keys, rotation.revoked)
    requires newKeyId !in keys && forall id :: id in keys ==> keys[id].secretHash != newSecretHash
    ensures var after := RotatedKeys(keys, rotation.revoked, newKeyId, newSecretHash, rotation.at);
            && KeysValid(after, rotations + [rotation])
            && after == map[rotation.revoked := keys[rotation.revoked].(revokedAt := Some(rotation.at)),
                            newKeyId := LicenseKey(newSecretHash, rotation.at, None)]
  {
    var after := RotatedKeys(keys, rotation.revoked, newKeyId, newSecretHash, rotation.at);
    assert IsActive(after, newKeyId);
  }

  lemma RotationKeepsTokens(rotations: seq<Rotation>, exchanged: seq<Hash>, tokens: map<Hash, AccessToken>,
                            minted: set<Hash>, rotation: Rotation)
    requires TokensValid(tokens, minted) && RotationsValid(rotations, tokens, minted)
             && ExchangesValid(exchanged, tokens, minted)
    requires rotation.token in tokens && (rotations != [] ==> rotation.at >= Latest(rotations).at + ROTATION_COOLDOWN)
    ensures var after := tokens - {rotation.token};
            TokensValid(after, minted) && RotationsValid(rotations + [rotation], after, minted)
              && ExchangesValid(exchanged, after, minted)
  {
  }

  lemma MintingKeepsTokens(rotations: seq<Rotation>, exchanged: seq<Hash>, tokens: map<Hash, AccessToken>,
                           minted: set<Hash>, newToken: Hash, purpose: Purpose, now: Time)
    requires TokensValid(tokens, minted) && RotationsValid(rotations, tokens, minted)
             && ExchangesValid(exchanged, tokens, minted)
    requires newToken !in minted
    ensures var after := tokens[newToken := AccessToken(purpose, now, now + Lifetime(purpose), None)];
            var allMinted := minted + {newToken};
            TokensValid(after, allMinted) && RotationsValid(rotations, after, allMinted)
              && ExchangesValid(exchanged, after, allMinted)
  {
  }

  lemma RemovalKeepsTokens(rotations: seq<Rotation>, exchanged: seq<Hash>, tokens: map<Hash, AccessToken>,
                           minted: set<Hash>, removed: set<Hash>)
    requires TokensValid(tokens, minted) && RotationsValid(rotations, tokens, minted)
             && ExchangesValid(exchanged, tokens, minted)
    ensures var after := tokens - removed;
            TokensValid(after, minted) && RotationsValid(rotations, after, minted)
              && ExchangesValid(exchanged, after, minted)
  {
  }

  lemma ExchangingKeepsTokens(rotations: seq<Rotation>, exchanged: seq<Hash>, tokens: map<Hash, AccessToken>,
                              minted: set<Hash>, token: Hash, now: Time)
    requires TokensValid(tokens, minted) && RotationsValid(rotations, tokens, minted)
             && ExchangesValid(exchanged, tokens, minted)
    requires token in tokens && tokens[token].purpose == Recovery && tokens[token].consumedAt.None?
    ensures token !in exchanged
    ensures var after := tokens[token := tokens[token].(consumedAt := Some(now))];
            TokensValid(after, minted) && RotationsValid(rotations, after, minted)
              && ExchangesValid(exchanged + [token], after, minted)
  {
  }

  class LicenseCredentials {
    var keys: map<KeyId, LicenseKey>
    var tokens: map<Hash, AccessToken>

    // What has happened so far.
    ghost var rotations: seq<Rotation>
    ghost var exchanged: seq<Hash>
    ghost var minted: set<Hash>

    ghost predicate Valid()
      reads this
    {
      && KeysValid(keys, rotations)
      && TokensValid(tokens, minted)
      && RotationsValid(rotations, tokens, minted)
      && ExchangesValid(exchanged, tokens, minted)
    }

    /** The license as IssuePurchasedLicense inserts it, with its one key. */
    constructor (keyId: KeyId, secretHash: Hash, now: Time)
      ensures Valid() && keys == map[keyId := LicenseKey(secretHash, now, None)] && tokens == map[]
      ensures rotations == [] && exchanged == [] && minted == {}
    {
      keys := map[keyId := LicenseKey(secretHash, now, None)];
      tokens := map[];
      rotations, exchanged, minted := [], [], {};
      new;
      assert IsActive(keys, keyId);
    }

    /** CreateManagementSession for an active key's hash. */
    method CreateManagementSession(secretHash: Hash, newToken: Hash, now: Time) returns (answer: Answer)
      requires Valid() && newToken !in minted
      modifies this`tokens, this`minted
      ensures Valid()
      ensures var known := exists id :: IsActive(keys, id) && keys[id].secretHash == secretHash;
              var session := AccessToken(Management, now, now + MANAGEMENT_LIFETIME, None);
              && answer == (if known then Done else Unauthorized)
              && tokens == if known then old(tokens)[newToken := session] else old(tokens)
    {
      if exists id :: id in keys && IsActive(keys, id) && keys[id].secretHash == secretHash {
        MintToken(newToken, Management, now);
        return Done;
      }
      return Unauthorized;
    }

    method MintToken(newToken: Hash, purpose: Purpose, now: Time)
      requires Valid() && newToken !in minted
      modifies this`tokens, this`minted
      ensures Valid() && minted == old(minted) + {newToken}
      ensures tokens == old(tokens)[newToken := AccessToken(purpose, now, now + Lifetime(purpose), None)]
    {
      hide TokensValid, RotationsValid, ExchangesValid, KeysValid;
      MintingKeepsTokens(rotations, exchanged, tokens, minted, newToken, purpose, now);
      tokens := tokens[newToken := AccessToken(purpose, now, now + Lifetime(purpose), None)];
      minted := minted + {newToken};
    }

    /** The tokens a cleanup may take: expired, and not locked by another transaction. */
    function Removable(locked: set<Hash>, now: Time): set<Hash>
      reads this`tokens
    {
      set t | t in tokens && t !in locked && tokens[t].expiresAt <= now
    }

    /** The token of a set that expires first. */
    method FirstToExpire(among: set<Hash>) returns (first: Hash)
      requires among != {} && among <= tokens.Keys
      ensures first in among && forall t :: t in among ==> tokens[first].expiresAt <= tokens[t].expiresAt
    {
      first :| first in among;
      var rest := among;
      while rest != {}
        invariant rest <= among && first in among
        invariant forall t :: t in among - rest ==> tokens[first].expiresAt <= tokens[t].expiresAt
        decreases rest
      {
        var t :| t in rest;
        if tokens[t].expiresAt < tokens[first].expiresAt {
          first := t;
        }
        rest := rest - {t};
      }
    }

    /** Cleanup removes one batch of expired tokens, those that expired first; it skips locked ones. */
    method CleanUp(batch: nat, locked: set<Hash>, now: Time) returns (removed: set<Hash>)
      requires Valid()
      modifies this`tokens
      ensures Valid() && tokens == old(tokens) - removed
      ensures removed <= old(Removable(locked, now)) && |removed| <= batch
      ensures |removed| < batch ==> removed == old(Removable(locked, now))
      ensures forall r, t :: r in removed && t in old(Removable(locked, now)) - removed ==>
                old(tokens)[r].expiresAt <= old(tokens)[t].expiresAt
    {
      var rest := Removable(locked, now);
      removed := {};
      while |removed| < batch && rest != {}
        invariant tokens == old(tokens)
        invariant removed + rest == Removable(locked, now) && removed !! rest && |removed| <= batch
        invariant forall r, t :: r in removed && t in rest ==> tokens[r].expiresAt <= tokens[t].expiresAt
        decreases rest
      {
        var first := FirstToExpire(rest);
        removed, rest := removed + {first}, rest - {first};
      }
      RemovalKeepsTokens(rotations, exchanged, tokens, minted, removed);
      tokens := tokens - removed;
    }

    method LastRotation() returns (last: Option<Time>)
      ensures IsLastRotation(last, keys, keys.Keys)
    {
      last := None;
      var rest := keys.Keys;
      while rest != {}
        invariant rest <= keys.Keys
        invariant IsLastRotation(last, keys, keys.Keys - rest)
        decreases rest
      {
        var id :| id in rest;
        ghost var seen := keys.Keys - rest;
        if keys[id].revokedAt.Some? && (last.None? || keys[id].revokedAt.value > last.value) {
          last := keys[id].revokedAt;
        }
        rest := rest - {id};
        assert keys.Keys - rest == seen + {id};
      }
      assert keys.Keys - rest == keys.Keys;
    }

    /** A management session of this license that has not expired. */
    predicate InSession(token: Hash, now: Time)
      reads this`tokens
    {
      token in tokens && tokens[token].purpose == Management && tokens[token].expiresAt > now
    }

    /** The statements of a rotation on `license_keys`: revoke the active key, insert the new one, delete the
        older revoked ones. */
    method ReplaceKey(revoked: KeyId, newKeyId: KeyId, newSecretHash: Hash, now: Time)
      requires revoked in keys
      modifies this`keys
      ensures keys == RotatedKeys(old(keys), revoked, newKeyId, newSecretHash, now)
    {
      keys := keys[revoked := keys[revoked].(revokedAt := Some(now))];
      keys := keys[newKeyId := LicenseKey(newSecretHash, now, None)];
      keys := map id | id in keys && (keys[id].revokedAt.None? || id == revoked) :: keys[id];
    }

    /** RotateLicenseKey under the locks of the session and the license. A rotation happens exactly when the
        session is good and the cooldown is over; it consumes the session, revokes the one active key and leaves
        the new key as the only other one. */
    method RotateLicenseKey(token: Hash, newKeyId: KeyId, newSecretHash: Hash, now: Time) returns (answer: Answer)
      requires Valid()
      requires newKeyId !in keys && forall id :: id in keys ==> keys[id].secretHash != newSecretHash
      modifies this`keys, this`tokens, this`rotations
      ensures Valid()
      ensures var waited := old(rotations) == [] || now >= Latest(old(rotations)).at + ROTATION_COOLDOWN;
              answer == if !old(InSession(token, now)) then Unauthorized
                        else if waited then Done
                        else RateLimited(RetryAfter(Some(Latest(old(rotations)).at), now))
      ensures answer != Done ==> keys == old(keys) && tokens == old(tokens) && rotations == old(rotations)
      ensures answer == Done ==>
                && tokens == old(tokens) - {token}
                && exists revoked :: IsActive(old(keys), revoked)
                                     && rotations == old(rotations) + [Rotation(token, revoked, now)]
                                     && keys == map[revoked := old(keys)[revoked].(revokedAt := Some(now)),
                                                    newKeyId := LicenseKey(newSecretHash, now, None)]
    {
      hide TokensValid, RotationsValid, ExchangesValid, IsLastRotation, RotatedKeys;
      if !InSession(token, now) {
        return Unauthorized;
      }
      var lastRotation := LastRotation();
      LastRotationIsLatest(keys, rotations, lastRotation);
      var retryAfter := RetryAfter(lastRotation, now);
      if retryAfter > 0 {
        return RateLimited(retryAfter);
      }
      assert exists id :: id in keys && IsActive(keys, id);
      hide KeysValid, RetryAfter;
      var revoked :| revoked in keys && IsActive(keys, revoked);
      Rotate(token, revoked, newKeyId, newSecretHash, now);
      answer := Done;
    }

    /** The writes of a rotation. */
    method Rotate(token: Hash, revoked: KeyId, newKeyId: KeyId, newSecretHash: Hash, now: Time)
      requires Valid() && token in tokens && IsActive(keys, revoked)
      requires newKeyId !in keys && forall id :: id in keys ==> keys[id].secretHash != newSecretHash
      requires rotations != [] ==> now >= Latest(rotations).at + ROTATION_COOLDOWN
      modifies this`keys, this`tokens, this`rotations
      ensures Valid() && tokens == old(tokens) - {token}
              && rotations == old(rotations) + [Rotation(token, revoked, now)]
      ensures keys == map[revoked := old(keys)[revoked].(revokedAt := Some(now)),
                          newKeyId := LicenseKey(newSecretHash, now, None)]
    {
      hide TokensValid, RotationsValid, ExchangesValid, KeysValid, IsLastRotation, RotatedKeys;
      RotationKeepsKeys(keys, rotations, Rotation(token, revoked, now), newKeyId, newSecretHash);
      RotationKeepsTokens(rotations, exchanged, tokens, minted, Rotation(token, revoked, now));
      ReplaceKey(revoked, newKeyId, newSecretHash, now);
      tokens := tokens - {token};
      rotations := rotations + [Rotation(token, revoked, now)];
    }

    /** ExchangeRecoveryToken under the locks of the token and the license, whose state it reads: consume the token
        and open a session. */
    method ExchangeRecoveryToken(token: Hash, newToken: Hash, license: LicenseState, now: Time) returns (answer: Answer)
      requires Valid() && newToken !in minted
      modifies this`tokens, this`exchanged, this`minted
      ensures Valid()
      ensures var available := token in old(tokens) && old(tokens)[token].purpose == Recovery
              && old(tokens)[token].expiresAt > now
                               && old(tokens)[token].consumedAt.None? && license == LicenseActive;
              answer == if available then Done else Unauthorized
      ensures answer != Done ==> tokens == old(tokens) && exchanged == old(exchanged) && minted == old(minted)
      ensures answer == Done ==>
                && token !in old(exchanged) && exchanged == old(exchanged) + [token]
                && tokens == old(tokens)[token := old(tokens)[token].(consumedAt := Some(now))]
                                        [newToken := AccessToken(Management, now, now + MANAGEMENT_LIFETIME, None)]
    {
      hide TokensValid, RotationsValid, ExchangesValid, KeysValid;
      if token !in tokens || tokens[token].purpose != Recovery {
        return Unauthorized;
      }
      var available := tokens[token].expiresAt > now && tokens[token].consumedAt.None? && license == LicenseActive;
      if !available {
        return Unauthorized;
      }
      ExchangingKeepsTokens(rotations, exchanged, tokens, minted, token, now);
      tokens := tokens[token := tokens[token].(consumedAt := Some(now))];
      exchanged := exchanged + [token];
      MintToken(newToken, Management, now);
      answer := Done;
    }
  }
}
