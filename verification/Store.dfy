/** The store: tables that its statements update in place, each statement one step of `Tables`. */
module Store {
  import opened Prelude
  import opened Text
  import opened Library
  import opened Config
  import opened Tables

  class SQLite {
    const lib: Library
    var requests: map<string, AuthRequest>
    var consents: map<string, ConsentRequest>
    var codes: map<string, AuthorizationCode>
    var tokens: map<string, AccessToken>
    var profiles: map<string, ManagedProfile>
    var audit: seq<AuditEvent>

    function Contents(): Db
      reads this
    {
      Db(requests, consents, codes, tokens, profiles, audit)
    }

    constructor (lib: Library)
      ensures this.lib == lib && Contents() == EMPTY
    {
      this.lib := lib;
      requests, consents, codes, tokens, profiles, audit := map[], map[], map[], map[], map[], [];
    }

    // ---- Authorization requests ----------------------------------------------------

    method CreateAuthRequest(row: AuthRequest) returns (ok: bool)
      modifies this`requests
      ensures (Contents(), ok) == Tables.CreateAuthRequest(old(Contents()), row)
    {
      if row.id in requests {
        return false;
      }
      requests := requests[row.id := row.(expiresAt := Unix(row.expiresAt) * SECOND, createdAt := Unix(row.createdAt) * SECOND)];
      return true;
    }

    /** Scans for the backend and state; with unique states there is at most one row to find. */
    method GetAuthRequestByBackendState(backend: string, state: string, now: int) returns (r: Result<AuthRequest, StoreError>)
      ensures UniqueStates(requests) ==> r == GetAuthRequest(Contents(), backend, state, now)
      ensures r.Ok? ==> r.value in requests.Values && HasState(r.value, backend, state) && now <= r.value.expiresAt
    {
      var ids := requests.Keys;
      while ids != {}
        invariant ids <= requests.Keys
        invariant forall id :: id in requests && id !in ids ==> !HasState(requests[id], backend, state)
        decreases |ids|
      {
        var id :| id in ids;
        var row := requests[id];
        if row.backend == backend && row.backendState.state == state {
          if UniqueStates(requests) {
            FoundByState(Contents(), id, state);
          }
          if now > row.expiresAt {
            return Err(Expired);
          }
          return Ok(row);
        }
        ids := ids - {id};
      }
      return Err(NotFound);
    }

    method DeleteAuthRequest(id: string)
      modifies this`requests
      ensures Contents() == Tables.DeleteAuthRequest(old(Contents()), id)
    {
      requests := requests - {id};
    }

    // ---- Consent requests ------------------------------------------------------------

    method CreateConsentRequest(row: ConsentRequest) returns (ok: bool)
      modifies this`consents
      ensures (Contents(), ok) == Tables.CreateConsentRequest(old(Contents()), row)
    {
      if row.id in consents {
        return false;
      }
      consents := consents[row.id := row.(expiresAt := Unix(row.expiresAt) * SECOND, createdAt := Unix(row.createdAt) * SECOND)];
      return true;
    }

    method GetConsentRequest(id: string, now: int) returns (r: Result<ConsentRequest, StoreError>)
      ensures r == Tables.GetConsentRequest(Contents(), id, now)
    {
      if id !in consents {
        return Err(NotFound);
      }
      if now >= consents[id].expiresAt {
        return Err(Expired);
      }
      return Ok(consents[id]);
    }

    method DeleteConsentRequest(id: string)
      modifies this`consents
      ensures Contents() == Tables.DeleteConsentRequest(old(Contents()), id)
    {
      consents := consents - {id};
    }

    // ---- Authorization codes ----------------------------------------------------------

    method CreateAuthorizationCode(code: string, given: AuthorizationCode) returns (ok: bool)
      modifies this`codes
      ensures (Contents(), ok) == Tables.CreateAuthorizationCode(old(Contents()), given.(codeHash := HashToken(lib, code)))
    {
      var rec := given.(codeHash := HashToken(lib, code));
      if rec.codeHash in codes {
        return false;
      }
      codes := codes[rec.codeHash := rec.(expiresAt := Unix(rec.expiresAt) * SECOND, createdAt := Unix(rec.createdAt) * SECOND, usedAt := None)];
      return true;
    }

    /** One transaction: select, check, conditional update, and the number of rows it changed. */
    method ConsumeAuthorizationCode(code: string, now: int) returns (r: Result<AuthorizationCode, StoreError>)
      modifies this`codes
      ensures (Contents(), r) == Tables.ConsumeAuthorizationCode(old(Contents()), HashToken(lib, code), now)
    {
      var hash := HashToken(lib, code);
      if hash !in codes {
        return Err(NotFound);
      }
      var rec := codes[hash];
      if rec.usedAt.Some? {
        return Err(Used);
      }
      if !(now < rec.expiresAt) {
        return Err(Expired);
      }
      var affected := 0;
      if hash in codes && codes[hash].usedAt.None? {
        codes := codes[hash := codes[hash].(usedAt := Some(Unix(now) * SECOND))];
        affected := 1;
      }
      if affected != 1 {
        return Err(Used);
      }
      return Ok(rec);
    }

    // ---- Access tokens -------------------------------------------------------------------

    method CreateAccessToken(token: string, given: AccessToken) returns (ok: bool)
      modifies this`tokens
      ensures (Contents(), ok) == Tables.CreateAccessToken(old(Contents()), given.(tokenHash := HashToken(lib, token)))
    {
      var rec := given.(tokenHash := HashToken(lib, token));
      if rec.tokenHash in tokens {
        return false;
      }
      tokens := tokens[rec.tokenHash := rec.(expiresAt := Unix(rec.expiresAt) * SECOND, createdAt := Unix(rec.createdAt) * SECOND, revokedAt := None)];
      return true;
    }

    method GetAccessToken(token: string, now: int) returns (r: Result<AccessToken, StoreError>)
      ensures r == Tables.GetAccessToken(Contents(), HashToken(lib, token), now)
    {
      var hash := HashToken(lib, token);
      if hash !in tokens {
        return Err(NotFound);
      }
      var rec := tokens[hash];
      if rec.revokedAt.Some? {
        return Err(Revoked);
      }
      if !(now < rec.expiresAt) {
        return Err(Expired);
      }
      return Ok(rec);
    }

    method RevokeAccessToken(token: string, now: int)
      modifies this`tokens
      ensures Contents() == Tables.RevokeAccessToken(old(Contents()), HashToken(lib, token), now)
    {
      var hash := HashToken(lib, token);
      if hash in tokens && tokens[hash].revokedAt.None? {
        tokens := tokens[hash := tokens[hash].(revokedAt := Some(Unix(now) * SECOND))];
      }
    }

    // ---- Managed profiles --------------------------------------------------------------------

    /** Looks for the row that the uniqueness of issuer and subject allows one of. */
    method RowOfOwner(owner: Owner) returns (key: Option<string>)
      ensures key.Some? ==> key.value in profiles && profiles[key.value].Holder() == owner
      ensures key.None? ==> !OwnerTaken(Contents(), owner)
    {
      var keys := profiles.Keys;
      while keys != {}
        invariant keys <= profiles.Keys
        invariant forall k :: k in profiles && k !in keys ==> profiles[k].Holder() != owner
        decreases |keys|
      {
        var k :| k in keys;
        if profiles[k].issuer == owner.issuer && profiles[k].subject == owner.subject {
          return Some(k);
        }
        keys := keys - {k};
      }
      return None;
    }

    method CreateManagedProfile(profile: ManagedProfile) returns (ok: bool)
      modifies this`profiles
      ensures (Contents(), ok) == Tables.CreateManagedProfile(old(Contents()), profile)
      ensures !ok ==> Contents() == old(Contents())
      ensures old(ProfilesKeyed(profiles)) ==> ProfilesKeyed(profiles)
    {
      var taken := RowOfOwner(profile.Holder());
      if Lower(profile.handle) in profiles || taken.Some? {
        return false;
      }
      profiles := profiles[Lower(profile.handle) :=
        profile.(createdAt := Unix(profile.createdAt) * SECOND, updatedAt := Unix(profile.updatedAt) * SECOND)];
      return true;
    }

    method GetManagedProfileByHandle(handle: string) returns (r: Option<ManagedProfile>)
      ensures r == Tables.GetManagedProfileByHandle(Contents(), handle)
    {
      if Lower(handle) in profiles {
        return Some(profiles[Lower(handle)]);
      }
      return None;
    }

    method GetManagedProfileByIdentity(owner: Owner) returns (r: Option<ManagedProfile>)
      requires ProfilesKeyed(profiles)
      ensures r == Tables.GetManagedProfileByIdentity(Contents(), owner)
    {
      var key := RowOfOwner(owner);
      if key.None? {
        return None;
      }
      FoundByOwner(Contents(), key.value);
      return Some(profiles[key.value]);
    }

    method UpdateManagedProfile(profile: ManagedProfile) returns (ok: bool)
      modifies this`profiles
      requires ProfilesKeyed(profiles)
      ensures (Contents(), ok) == Tables.UpdateManagedProfile(old(Contents()), profile)
      ensures ProfilesKeyed(profiles)
    {
      var key := RowOfOwner(profile.Holder());
      if key.None? {
        assert Tables.UpdateManagedProfile(Contents(), profile).0.profiles == profiles;
        return false;
      }
      ghost var before := Contents();
      profiles := profiles[key.value := Presented(profiles[key.value], profile)];
      assert Tables.UpdateManagedProfile(before, profile).0.profiles == profiles;
      return true;
    }

    // ---- Audit and cleanup -----------------------------------------------------------------------

    method CreateAuditEvent(kind: AuditKind, subject: string, me: string, clientId: string, now: int)
      modifies this`audit
      ensures Contents() == Audit(old(Contents()), kind, subject, me, clientId, now)
    {
      audit := audit + [AuditEvent(kind, subject, me, clientId, Unix(now) * SECOND)];
    }

    /** One of the cleanup's statements. */
    method DeleteDead(part: CleanupPart, now: int)
      modifies this`requests, this`consents, this`codes, this`tokens
      ensures Contents() == Purge(old(Contents()), part, now)
    {
      var cutoff := Unix(now) * SECOND;
      match part {
        case Requests => requests := map k | k in requests && !(requests[k].expiresAt <= cutoff) :: requests[k];
        case Consents => consents := map k | k in consents && !(consents[k].expiresAt <= cutoff) :: consents[k];
        case Codes => codes := map k | k in codes && !(codes[k].expiresAt <= cutoff || codes[k].usedAt.Some?) :: codes[k];
        case Tokens => tokens := map k | k in tokens && !(tokens[k].expiresAt <= cutoff) :: tokens[k];
      }
    }

    method Cleanup(now: int)
      modifies this`requests, this`consents, this`codes, this`tokens
      ensures Contents() == Purge(Purge(Purge(Purge(old(Contents()), Requests, now), Consents, now), Codes, now), Tokens, now)
    {
      hide Purge, Contents;
      ghost var before := Contents();
      var parts := [Requests, Consents, Codes, Tokens];
      for i := 0 to |parts|
        invariant Contents() == PurgeAll(before, parts[..i], now)
      {
        DeleteDead(parts[i], now);
        assert parts[..i + 1] == parts[..i] + [parts[i]];
        PurgeNext(before, parts[..i], parts[i], now);
      }
      assert parts[..4] == parts;
      PurgeFour(before, now);
    }
  }

  /** The deletes in `parts`, first to last. */
  function PurgeAll(db: Db, parts: seq<CleanupPart>, at: int): Db {
    if parts == [] then db else Purge(PurgeAll(db, parts[..|parts| - 1], at), parts[|parts| - 1], at)
  }

  lemma PurgeNext(db: Db, parts: seq<CleanupPart>, part: CleanupPart, at: int)
    ensures PurgeAll(db, parts + [part], at) == Purge(PurgeAll(db, parts, at), part, at)
  {
    hide Purge;
    assert (parts + [part])[..|parts|] == parts;
  }

  lemma PurgeFour(db: Db, at: int)
    ensures PurgeAll(db, [Requests, Consents, Codes, Tokens], at)
            == Purge(Purge(Purge(Purge(db, Requests, at), Consents, at), Codes, at), Tokens, at)
  {
    hide Purge, PurgeAll;
    PurgeNext(db, [], Requests, at);
    PurgeNext(db, [Requests], Consents, at);
    PurgeNext(db, [Requests, Consents], Codes, at);
    PurgeNext(db, [Requests, Consents, Codes], Tokens, at);
    assert [] + [Requests] == [Requests] && [Requests] + [Consents] == [Requests, Consents];
    assert [Requests, Consents] + [Codes] == [Requests, Consents, Codes];
    assert [Requests, Consents, Codes] + [Tokens] == [Requests, Consents, Codes, Tokens];
    PurgeNone(db, at);
  }

  lemma PurgeNone(db: Db, at: int)
    ensures PurgeAll(db, [], at) == db
  {
  }
}
