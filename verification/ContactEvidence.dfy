/** The evidence tables of one session, what the writer and the backfill insert, and the shape all of it has:
    every identity is stored once, and every link leads from an observed identity to a phone. */
module ContactEvidence {
  import opened Options
  import opened Reachability
  import opened ContactResolution

  /** One normalized observation. A phone JID carries its own digits as phone; other identities may come with
      a phone that the gateway reported. */
  datatype Observation = Observation(kind: Kind, value: string, phone: Option<string>, observedAt: nat, key: nat)

  const SUFFIX := "@c.us"

  predicate IsDigits(s: string) {
    s != "" && forall i :: 0 <= i < |s| ==> '0' <= s[i] <= '9'
  }

  /** A JID up to its device or its server. */
  function Stem(value: string): string {
    if value == "" || value[0] == ':' || value[0] == '@' then "" else [value[0]] + Stem(value[1..])
  }

  lemma {:induction false} StemOfDigits(digits: string, rest: string)
    requires forall i :: 0 <= i < |digits| ==> '0' <= digits[i] <= '9'
    requires rest != "" && (rest[0] == ':' || rest[0] == '@')
    ensures Stem(digits + rest) == digits
  {
    if digits == "" {
      assert digits + rest == rest;
    } else {
      StemOfDigits(digits[1..], rest);
      assert (digits + rest)[1..] == digits[1..] + rest;
    }
  }

  /** What normalization guarantees of an observation: a phone JID is its digits and a fixed suffix. */
  predicate IsNormalized(o: Observation) {
    o.kind != PHONE && (o.kind == PHONE_JID ==> o.phone.Some? && IsDigits(o.phone.value) && o.value == o.phone.value + SUFFIX)
  }

  /** Identities are unique by kind and value. */
  predicate UniqueIdentities(ids: map<Id, Identity>) {
    forall a, b :: a in ids && b in ids && ids[a].kind == ids[b].kind && ids[a].value == ids[b].value ==> a == b
  }

  /** The link of an observed identity to a phone; a derived one leads from a phone JID to its own digits. */
  predicate IsStored(ids: map<Id, Identity>, e: Evidence) {
    && e.left in ids && e.right in ids && ids[e.left].kind != PHONE && ids[e.right].kind == PHONE
    && (e.source == PHONE_JID_DERIVATION <==> ids[e.left].kind == PHONE_JID)
    && (e.source == PHONE_JID_DERIVATION ==> ids[e.right].value == Stem(ids[e.left].value))
  }

  /** A phone JID's row has the part of its name before the server as its phone. */
  predicate IsNamedByPhone(identity: Identity) {
    identity.kind == PHONE_JID ==> identity.phone.Some? && identity.value == identity.phone.value + SUFFIX
  }

  predicate IdentitiesOk(ids: map<Id, Identity>) {
    UniqueIdentities(ids) && forall id :: id in ids ==> IsNamedByPhone(ids[id])
  }

  predicate EvidenceOk(ids: map<Id, Identity>, evidence: seq<Evidence>) {
    IdentitiesOk(ids) && forall e :: e in evidence ==> IsStored(ids, e)
  }

  /** No phone JID is stored under the name of a device. */
  predicate NoDeviceNames(ids: map<Id, Identity>) {
    forall id :: id in ids && ids[id].kind == PHONE_JID ==> ids[id].value == Stem(ids[id].value) + SUFFIX
  }

  /** Whatever generation and cutoff a run reads, the stored evidence has the shape resolution relies on, and
      without device names no two phone JIDs derive one phone. */
  lemma StoredEvidenceHasShape(ids: map<Id, Identity>, evidence: seq<Evidence>, run: nat, cutoff: nat)
    requires EvidenceOk(ids, evidence)
    ensures WriterShape(ids, Candidates(evidence, run, cutoff))
    ensures NoDeviceNames(ids) ==> OneJidPerPhone(Candidates(evidence, run, cutoff))
  {
    var edges := Candidates(evidence, run, cutoff);
    forall e | e in edges ensures IsStored(ids, e) {}
    forall e, f | e in edges && f in edges && e.left == f.left && ids[e.left].kind == PHONE_JID ensures e.right == f.right {
      assert IsStored(ids, e) && IsStored(ids, f);
    }
    if NoDeviceNames(ids) {
      forall e, f | e in edges && f in edges && e.source == f.source == PHONE_JID_DERIVATION && e.right == f.right
        ensures e.left == f.left
      {
        assert IsStored(ids, e) && IsStored(ids, f);
      }
    }
  }

  predicate EndsInSuffix(value: string) {
    |value| >= |SUFFIX| && value == value[..|value| - |SUFFIX|] + SUFFIX
  }

  /** The phone backfilled for a member: of a phone JID the one stored with the member, or else what its name
      gives, if that consists of digits. */
  function BackfilledPhone(kind: Kind, value: string, stored: Option<string>): Option<string> {
    if kind != PHONE_JID then None
    else
      var phone := if stored.Some? then stored.value
                   else if EndsInSuffix(value) then value[..|value| - |SUFFIX|]
                   else value;
      if IsDigits(phone) then Some(phone) else None
  }

  /** No statement stores another phone with a phone JID than its digits. */
  predicate StoredPhoneOk(kind: Kind, value: string, stored: Option<string>) {
    kind == PHONE_JID && stored.Some? ==> stored.value == Stem(value)
  }

  lemma BackfilledPhoneIsOwn(kind: Kind, value: string, stored: Option<string>)
    requires StoredPhoneOk(kind, value, stored)
    requires kind == PHONE_JID ==> EndsInSuffix(value)
    ensures BackfilledPhone(kind, value, stored).Some? ==> BackfilledPhone(kind, value, stored).value == Stem(value)
  {
    if kind == PHONE_JID && stored.None? && IsDigits(value[..|value| - |SUFFIX|]) {
      StemOfDigits(value[..|value| - |SUFFIX|], SUFFIX);
    }
  }

  /** Everything a link of one observation is determined by. */
  predicate IsLinkOf(ids: map<Id, Identity>, o: Observation, generation: Option<nat>, now: nat, e: Evidence) {
    && e.source == SourceOf(o) && e.generation == generation && e.createdAt == now && e.left in ids && e.right in ids
    && ids[e.left].kind == o.kind && ids[e.left].value == o.value
    && o.phone.Some? && ids[e.right].kind == PHONE && ids[e.right].value == o.phone.value
  }

  /** Identities gain rows and keep what identifies those they had. */
  predicate Grows(before: map<Id, Identity>, after: map<Id, Identity>) {
    forall id :: id in before ==> id in after && after[id].kind == before[id].kind && after[id].value == before[id].value
  }

  lemma EvidenceStays(before: map<Id, Identity>, after: map<Id, Identity>, evidence: seq<Evidence>)
    requires EvidenceOk(before, evidence) && Grows(before, after) && IdentitiesOk(after)
    ensures EvidenceOk(after, evidence)
  {
    forall e | e in evidence ensures IsStored(after, e) { assert IsStored(before, e); }
  }

  /** A row is added under a new kind and value, or changes neither. */
  lemma RowChanges(ids: map<Id, Identity>, id: Id, row: Identity)
    requires IdentitiesOk(ids) && IsNamedByPhone(row)
    requires if id in ids then row.kind == ids[id].kind && row.value == ids[id].value else !Has(ids, row.kind, row.value)
    ensures IdentitiesOk(ids[id := row]) && Grows(ids, ids[id := row])
  {
  }

  predicate Has(ids: map<Id, Identity>, kind: Kind, value: string) {
    exists id :: id in ids && ids[id].kind == kind && ids[id].value == value
  }

  class EvidenceTables {
    var ids: map<Id, Identity>
    var evidence: seq<Evidence>
    /** The observation keys already used, per source. */
    var keys: set<(EvidenceSource, nat)>
    var nextId: Id

    ghost predicate Valid()
      reads this
    {
      EvidenceOk(ids, evidence) && forall id :: id in ids ==> id < nextId
    }

    constructor ()
      ensures Valid() && ids == map[] && evidence == []
    {
      ids, evidence, keys, nextId := map[], [], {}, 0;
    }

    /** Insert, or on conflict widen the observed span. */
    method UpsertIdentity(kind: Kind, value: string, phone: Option<string>, observedAt: nat) returns (id: Id)
      requires Valid() && IsNamedByPhone(Identity(kind, value, phone, observedAt))
      modifies this`ids, this`nextId
      ensures Valid() && Grows(old(ids), ids)
      ensures id in ids && ids[id].kind == kind && ids[id].value == value
      ensures ids == if id in old(ids) then old(ids)[id := old(ids)[id].(firstObservedAt := ids[id].firstObservedAt)]
                     else old(ids)[id := Identity(kind, value, phone, observedAt)]
      ensures id in old(ids) ==>
        ids[id].firstObservedAt == if observedAt < old(ids)[id].firstObservedAt then observedAt else old(ids)[id].firstObservedAt
      ensures ids.Keys == old(ids.Keys) + {id} && (id in old(ids) <==> Has(old(ids), kind, value))
    {
      var present := set x | x in ids && ids[x].kind == kind && ids[x].value == value;
      if present != {} {
        id :| id in present;
        var row := ids[id];
        row := row.(firstObservedAt := if row.firstObservedAt <= observedAt then row.firstObservedAt else observedAt);
        RowChanges(ids, id, row);
        ids := ids[id := row];
      } else {
        assert forall x :: x in ids && ids[x].kind == kind && ids[x].value == value ==> x in present;
        id := nextId;
        RowChanges(ids, id, Identity(kind, value, phone, observedAt));
        ids := ids[id := Identity(kind, value, phone, observedAt)];
        nextId := nextId + 1;
      }
      EvidenceStays(old(ids), ids, evidence);
    }

    /** Identities first, then the link, if its observation key is new. Group members and message senders
        are `derivedOnly`: they link phone JIDs and nothing else. */
    method Publish(o: Observation, derivedOnly: bool, generation: Option<nat>, now: nat)
      requires Valid() && IsNormalized(o)
      modifies this
      ensures Valid() && Grows(old(ids), ids) && Has(ids, o.kind, o.value)
      ensures o.phone.Some? ==> Has(ids, PHONE, o.phone.value)
      ensures if MakesLink(o, derivedOnly) && (SourceOf(o), o.key) !in old(keys)
              then keys == old(keys) + {(SourceOf(o), o.key)}
                   && exists e :: evidence == old(evidence) + [e] && IsLinkOf(ids, o, generation, now, e)
              else evidence == old(evidence) && keys == old(keys)
    {
      var left := UpsertIdentity(o.kind, o.value, if o.kind == PHONE_JID then o.phone else None, o.observedAt);
      if o.phone.None? {
        return;
      }
      var right := UpsertIdentity(PHONE, o.phone.value, None, o.observedAt);
      var source := SourceOf(o);
      if (o.kind == PHONE_JID || !derivedOnly) && (source, o.key) !in keys {
        var e := Evidence(left, right, source, generation, now);
        if o.kind == PHONE_JID { StemOfDigits(o.phone.value, SUFFIX); }
        assert IsStored(ids, e);
        evidence := evidence + [e];
        keys := keys + {(source, o.key)};
        assert IsLinkOf(ids, o, generation, now, e);
      }
    }

    /** A member row written before evidence was kept: its identity under its stored name, and a phone JID's
        link to the phone backfilled for it. */
    method Backfill(kind: Kind, value: string, stored: Option<string>, syncedAt: nat, key: nat, now: nat)
      requires Valid() && kind != PHONE && StoredPhoneOk(kind, value, stored)
      requires kind == PHONE_JID ==> EndsInSuffix(value)
      modifies this
      ensures Valid() && Grows(old(ids), ids) && Has(ids, kind, value)
      ensures var phone := BackfilledPhone(kind, value, stored);
        if phone.Some? && (PHONE_JID_DERIVATION, key) !in old(keys)
        then keys == old(keys) + {(PHONE_JID_DERIVATION, key)}
             && exists e :: evidence == old(evidence) + [e] && IsLinkOf(ids, Observation(kind, value, phone, syncedAt, key), None, now, e)
        else evidence == old(evidence) && keys == old(keys)
    {
      var left := UpsertIdentity(kind, value, if kind == PHONE_JID then Some(value[..|value| - |SUFFIX|]) else None, syncedAt);
      var phone := BackfilledPhone(kind, value, stored);
      if phone.None? {
        return;
      }
      BackfilledPhoneIsOwn(kind, value, stored);
      var right := UpsertIdentity(PHONE, phone.value, None, syncedAt);
      if (PHONE_JID_DERIVATION, key) !in keys {
        var e := Evidence(left, right, PHONE_JID_DERIVATION, None, now);
        assert IsStored(ids, e);
        evidence := evidence + [e];
        keys := keys + {(PHONE_JID_DERIVATION, key)};
        assert IsLinkOf(ids, Observation(kind, value, phone, syncedAt, key), None, now, e);
      }
    }

    method PublishAll(observations: seq<Observation>, derivedOnly: bool, generation: Option<nat>, now: nat)
      requires Valid() && forall o :: o in observations ==> IsNormalized(o)
      modifies this
      ensures Valid() && Grows(old(ids), ids)
      ensures forall o :: o in observations ==> Has(ids, o.kind, o.value) && (o.phone.Some? ==> Has(ids, PHONE, o.phone.value))
    {
      var i := 0;
      while i < |observations|
        invariant 0 <= i <= |observations| && Valid() && Grows(old(ids), ids)
        invariant forall o :: o in observations[..i] ==>
          Has(ids, o.kind, o.value) && (o.phone.Some? ==> Has(ids, PHONE, o.phone.value))
      {
        ghost var before := ids;
        Publish(observations[i], derivedOnly, generation, now);
        forall kind, value | Has(before, kind, value) ensures Has(ids, kind, value) { HasStays(before, ids, kind, value); }
        assert observations[..i + 1] == observations[..i] + [observations[i]];
        i := i + 1;
      }
      assert observations[..i] == observations;
    }
  }

  predicate MakesLink(o: Observation, derivedOnly: bool) {
    o.phone.Some? && (o.kind == PHONE_JID || !derivedOnly)
  }

  function SourceOf(o: Observation): EvidenceSource {
    if o.kind == PHONE_JID then PHONE_JID_DERIVATION else OPENWA_CONTACT_PHONE
  }

  lemma HasStays(before: map<Id, Identity>, after: map<Id, Identity>, kind: Kind, value: string)
    requires Has(before, kind, value) && Grows(before, after)
    ensures Has(after, kind, value)
  {
    var id :| id in before && before[id].kind == kind && before[id].value == value;
    assert id in after;
  }
}
