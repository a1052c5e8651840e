/** The intent table with its transactions. Claims and results also move the session's pacing row, in the
    same transaction. */
module GroupIntentRepository {
  import opened Options
  import opened GroupIntents
  import P = PacingLimit

  type Key = (nat, nat)

  datatype ClaimedIntent = ClaimedIntent(revision: nat, token: nat, attempt: nat)

  class IntentTable {
    const config: Config
    const limits: P.SyncRateLimits
    var rows: map<Key, Intent>

    constructor (config: Config, limits: P.SyncRateLimits)
      ensures this.config == config && this.limits == limits && rows == map[]
    {
      this.config, this.limits, rows := config, limits, map[];
    }

    function RowOf(key: Key): Option<Intent>
      reads this
    {
      if key in rows then Some(rows[key]) else None
    }

    /** The insert, or its conflict update. */
    method Schedule(key: Key, now: Instant) returns (created: bool)
      modifies this
      ensures created <==> key !in old(rows)
      ensures rows == old(rows)[key := Scheduled(config, old(RowOf(key)), now)]
    {
      created := key !in rows;
      if created {
        rows := rows[key := Intent(PENDING, 1, 0, None, now + config.debounce, now + config.debounce, 0, None, now, now, 0)];
        return;
      }
      var i := rows[key];
      if i.status == COMPLETED || i.status == FAILED {
        i := i.(firstRequestedAt := now, coalesced := 0);
      } else {
        i := i.(coalesced := i.coalesced + 1);
      }
      i := i.(requested := i.requested + 1, lastRequestedAt := now,
              notBefore := Earlier(i.firstRequestedAt + config.maxWait, now + config.debounce));
      if i.status != RUNNING {
        i := i.(status := PENDING, attempts := 0, nextAttemptAt := i.notBefore);
      }
      rows := rows[key := i];
    }

    /** Pacing first, then the guarded update; both succeed or the claim is void. */
    method TryClaim(key: Key, token: nat, now: Instant) returns (claim: Option<ClaimedIntent>)
      requires limits.config.Valid()
      requires key.0 in limits.rows ==> P.RowOk(limits.config, limits.rows[key.0])
      modifies this, limits
      ensures claim.Some? <==>
        && key in old(rows) && (old(rows)[key].status == PENDING || old(rows)[key].status == RETRY)
        && old(rows)[key].nextAttemptAt <= now && old(rows)[key].notBefore <= now && old(rows)[key].attempts < config.maxAttempts
        && P.Ready(P.Ensured(limits.config, old(limits.RowOf(key.0)), now), now)
      ensures rows == if claim.Some? then old(rows)[key := Claimed(old(rows)[key], token, now)] else old(rows)
      ensures claim.Some? ==> claim.value == ClaimedIntent(old(rows)[key].requested, token, old(rows)[key].attempts + 1)
      ensures claim.Some? ==>
        var before := P.State(now, old(limits.RowOf(key.0)), []);
        limits.rows == old(limits.rows)[key.0 := P.After(limits.config, before, P.Reserve(token), now).row.value]
      ensures claim.None? && key in old(rows) ==>
        limits.rows == old(limits.rows)[key.0 := P.Ensured(limits.config, old(limits.RowOf(key.0)), now)]
    {
      if key !in rows {
        return None;
      }
      limits.Ensure(key.0, now);
      var rate := limits.ReadyAndRate(key.0, now);
      if rate.None? {
        return None;
      }
      var i := rows[key];
      if (i.status == PENDING || i.status == RETRY) && i.nextAttemptAt <= now && i.notBefore <= now
         && i.attempts < config.maxAttempts
      {
        rows := rows[key := i.(status := RUNNING, claimed := Some(i.requested), attempts := i.attempts + 1,
                               lease := Some(Lease(token, now + LEASE_MS)))];
        limits.Acquire(key.0, token, rate.value, now);
        return Some(ClaimedIntent(i.requested, token, i.attempts + 1));
      }
      claim := None;
    }

    /** Both leases are renewed, or neither. */
    method RenewLease(key: Key, token: nat, now: Instant) returns (renewed: bool)
      modifies this, limits
      ensures renewed <==>
        Owns(old(RowOf(key)), token, now)
        && P.Owns(old(limits.RowOf(key.0)), token) && old(limits.rows)[key.0].lease.value.expiresAt > now
      ensures rows == if renewed then old(rows)[key := Renewed(old(rows)[key], now)] else old(rows)
      ensures limits.rows == if renewed then old(limits.rows)[key.0 := P.Extended(old(limits.rows)[key.0], now)] else old(limits.rows)
    {
      if !Owns(RowOf(key), token, now) {
        return false;
      }
      var before := rows;
      rows := rows[key := rows[key].(lease := Some(Lease(token, now + LEASE_MS)))];
      renewed := limits.Renew(key.0, token, now);
      if !renewed {
        rows := before;
      }
    }

    /** The update shared by a completed read and a missing group. */
    method Finish(key: Key, token: nat, revision: nat, now: Instant) returns (owned: bool)
      modifies this
      ensures owned <==> OwnsRevision(old(RowOf(key)), token, revision, now)
      ensures rows == if owned then old(rows)[key := Finished(old(rows)[key], revision, now)] else old(rows)
    {
      owned := key in rows && rows[key].status == RUNNING && rows[key].lease.Some?
               && rows[key].lease.value.token == token && rows[key].lease.value.expiresAt > now
               && rows[key].claimed == Some(revision);
      if owned {
        var i := rows[key];
        if i.completed < revision {
          i := i.(completed := revision);
        }
        if i.requested > revision {
          i := i.(status := PENDING, attempts := 0, nextAttemptAt := Later(i.notBefore, now));
        } else {
          i := i.(status := COMPLETED);
        }
        rows := rows[key := i.(claimed := None, lease := None)];
      }
    }

    /** A read that succeeded also counts as a pacing success. */
    method Complete(key: Key, token: nat, revision: nat, now: Instant) returns (owned: bool)
      requires limits.config.Valid() && (key.0 in limits.rows ==> P.RowOk(limits.config, limits.rows[key.0]))
      modifies this, limits
      ensures owned <==> OwnsRevision(old(RowOf(key)), token, revision, now)
      ensures rows == if owned then old(rows)[key := Finished(old(rows)[key], revision, now)] else old(rows)
      ensures limits.rows == if owned && P.Owns(old(limits.RowOf(key.0)), token)
                             then old(limits.rows)[key.0 := P.Succeeded(limits.config, old(limits.rows)[key.0])] else old(limits.rows)
    {
      owned := Finish(key, token, revision, now);
      if owned {
        limits.Success(key.0, token);
      }
    }

    /** A missing group ends the read and only gives the pacing lease back. */
    method SkipMissing(key: Key, token: nat, revision: nat, now: Instant) returns (owned: bool)
      modifies this, limits
      ensures owned <==> OwnsRevision(old(RowOf(key)), token, revision, now)
      ensures rows == if owned then old(rows)[key := Finished(old(rows)[key], revision, now)] else old(rows)
      ensures limits.rows == if owned && P.Owns(old(limits.RowOf(key.0)), token)
                             then old(limits.rows)[key.0 := old(limits.rows)[key.0].(lease := None)] else old(limits.rows)
    {
      owned := Finish(key, token, revision, now);
      if owned {
        limits.Release(key.0, token);
      }
    }

    method Fail(key: Key, token: nat, revision: nat, failure: Failure, policy: P.Policy, now: Instant) returns (owned: bool)
      modifies this, limits
      ensures owned <==> OwnsRevision(old(RowOf(key)), token, revision, now)
      ensures rows == if owned then old(rows)[key := GaveUp(config, old(rows)[key], revision, failure, now)] else old(rows)
      ensures limits.rows == if owned && P.Owns(old(limits.RowOf(key.0)), token)
                             then old(limits.rows)[key.0 := P.Failed(limits.config, old(limits.rows)[key.0], policy, now)]
                             else old(limits.rows)
    {
      owned := OwnsRevision(RowOf(key), token, revision, now);
      if owned {
        var i := rows[key];
        var newer, retry := i.requested > revision, failure.retryable && i.attempts < config.maxAttempts;
        if newer {
          i := i.(status := PENDING, attempts := 0, nextAttemptAt := Later(i.notBefore, now));
        } else if retry {
          i := i.(status := RETRY, nextAttemptAt := RetryAt(i.attempts, failure.jitter, now));
        } else {
          i := i.(status := FAILED);
        }
        rows := rows[key := i.(claimed := None, lease := None)];
        limits.Failure(key.0, token, policy, now);
      }
    }

    /** Expired claims go back to the queue or fail, and expired pacing leases of their sessions are freed. */
    method RecoverExpired(now: Instant) returns (count: nat)
      modifies this, limits
      ensures rows == map key | key in old(rows) ::
        if IsExpired(old(rows)[key], now) then Recovered(config, old(rows)[key], now) else old(rows)[key]
      ensures count == |Expired(old(rows), now)|
      ensures limits.rows == map session | session in old(limits.rows) ::
        if (exists key :: key in Expired(old(rows), now) && key.0 == session) && HasExpiredLease(old(limits.rows)[session], now)
        then old(limits.rows)[session].(lease := None) else old(limits.rows)[session]
    {
      var expired := Expired(rows, now);
      count := |expired|;
      var todo := expired;
      while todo != {}
        invariant todo <= expired && rows.Keys == old(rows.Keys)
        invariant forall key :: key in rows ==>
          rows[key] == if key in expired - todo then Recovered(config, old(rows)[key], now) else old(rows)[key]
        invariant limits.rows == old(limits.rows)
      {
        var key :| key in todo;
        rows := rows[key := Recovered(config, rows[key], now)];
        todo := todo - {key};
      }
      limits.rows := map session | session in limits.rows ::
        if (exists key :: key in expired && key.0 == session) && HasExpiredLease(limits.rows[session], now)
        then limits.rows[session].(lease := None) else limits.rows[session];
    }
  }

  function Expired(rows: map<Key, Intent>, now: Instant): set<Key> {
    set key | key in rows && IsExpired(rows[key], now)
  }

  predicate HasExpiredLease(row: P.Row, now: Instant) {
    row.lease.Some? && row.lease.value.expiresAt < now
  }
}
