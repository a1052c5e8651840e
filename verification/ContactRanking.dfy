/** Which of its possible names a member shows, and which phone, told from the tables a page reads. */
module ContactRanking {
  import opened Options
  import opened Reachability
  import opened ContactResolution
  import opened ContactEvidence
  import opened ContactNames
  import opened ContactPushNames

  predicate HasContactName(r: Resolution, id: Id) {
    && id in r.assignments && r.assignments[id].status == RESOLVED
    && r.assignments[id].cluster in r.clusters && r.clusters[r.assignments[id].cluster].name.Some?
  }

  /** A push name of another identity that is resolved into the same cluster. */
  predicate IsAliasPush(pushes: map<Id, Push>, r: Resolution, id: Id, z: Id) {
    && z in pushes && z != id && id in r.assignments && z in r.assignments
    && r.assignments[id].status == RESOLVED && r.assignments[z].status == RESOLVED
    && r.assignments[z].cluster == r.assignments[id].cluster
  }

  /** Observed later, or at the same time under a greater key, or then in a later row. */
  predicate IsNoOlder(a: Push, b: Push) {
    && a.observedAt >= b.observedAt
    && (a.observedAt == b.observedAt ==> a.key >= b.key)
    && (a.observedAt == b.observedAt && a.key == b.key ==> a.observation >= b.observation)
  }

  /** Contact name of its cluster, participant name, own push name, newest push name of its aliases, none: a
      member shows the first of these that it has. */
  lemma ShownByRank(ids: Directory, pushes: map<Id, Push>, r: Resolution, id: Id, participantName: Option<string>)
    requires id in ids
    ensures var shown := Projected(ids, pushes, r, id, participantName);
      && shown.Shown?
      && (shown.source == Some(OPENWA_CONTACT_NAME) <==> HasContactName(r, id))
      && (shown.source == Some(GROUP_PARTICIPANT_NAME) <==> !HasContactName(r, id) && participantName.Some?)
      && (shown.source == Some(OPENWA_PUSH_NAME) <==> !HasContactName(r, id) && participantName.None? && id in pushes)
      && (shown.source == Some(RESOLVED_ALIAS_PUSH_NAME) <==>
            !HasContactName(r, id) && participantName.None? && id !in pushes && exists z :: z in pushes && IsAliasPush(pushes, r, id, z))
      && (shown.source.None? <==> shown.name.None?)
      && (HasContactName(r, id) ==> shown.name == r.clusters[r.assignments[id].cluster].name)
      && (shown.source == Some(GROUP_PARTICIPANT_NAME) ==> shown.name == participantName)
      && (shown.source == Some(OPENWA_PUSH_NAME) ==> shown.name == Some(pushes[id].name))
      && (shown.source == Some(RESOLVED_ALIAS_PUSH_NAME) ==>
            exists z :: z in pushes && IsAliasPush(pushes, r, id, z) && shown.name == Some(pushes[z].name)
                        && forall o :: o in pushes && IsAliasPush(pushes, r, id, o) ==> IsNoOlder(pushes[z], pushes[o]))
  {
    if IsResolved(r, id) {
      AliasesAreRanked(pushes, r, id);
    }
  }

  lemma AliasesAreRanked(pushes: map<Id, Push>, r: Resolution, id: Id)
    requires IsResolved(r, id)
    ensures AliasPush(pushes, r, id).Some? <==> exists z :: z in pushes && IsAliasPush(pushes, r, id, z)
    ensures AliasPush(pushes, r, id).Some? ==>
      exists z :: z in pushes && IsAliasPush(pushes, r, id, z) && AliasPush(pushes, r, id) == Some(pushes[z].name)
                  && forall o :: o in pushes && IsAliasPush(pushes, r, id, o) ==> IsNoOlder(pushes[z], pushes[o])
  {
    var others := OtherAliases(r, id);
    forall z ensures z in others && z in pushes <==> IsAliasPush(pushes, r, id, z) {}
    if z :| z in pushes && IsAliasPush(pushes, r, id, z) {
      assert z in others && z in pushes;
      NewestExists(pushes, others);
    }
    if exists z :: IsNewest(pushes, others, z) {
      var z :| IsNewest(pushes, others, z) && NewestPush(pushes, others) == Some(pushes[z].name);
      forall o | o in pushes && IsAliasPush(pushes, r, id, o) ensures IsNoOlder(pushes[z], pushes[o]) {
        assert o in others && NewerPush(pushes[z], pushes[o]);
      }
      assert IsAliasPush(pushes, r, id, z);
    }
  }

  /** A resolved member shows the phone its run assigned it, an unresolved phone JID its own number, and any other
      member none. */
  lemma ShownPhone(ids: Directory, pushes: map<Id, Push>, r: Resolution, id: Id, participantName: Option<string>)
    requires id in ids && IsNamedByPhone(ids[id])
    ensures var shown, resolved := Projected(ids, pushes, r, id, participantName), id in r.assignments && r.assignments[id].status == RESOLVED;
      && shown.Shown? && shown.kind == ids[id].kind
      && (resolved ==> shown.phone == r.assignments[id].phone)
      && (!resolved && ids[id].kind == PHONE_JID ==> shown.phone.Some? && ids[id].value == shown.phone.value + "@c.us")
      && (!resolved && ids[id].kind != PHONE_JID ==> shown.phone.None?)
  {
  }

  /** The newest push name of an identity that was inserted and not deleted is the one observed last. */
  lemma NewestIsObservedLast(heard: seq<Heard>, gone: set<nat>, x: Id)
    requires DistinctHeard(heard)
    ensures x in Newest(heard, gone) <==> exists i :: 0 <= i < |heard| && i !in gone && heard[i].id == x
    ensures x in Newest(heard, gone) ==>
      && (exists i :: 0 <= i < |heard| && i !in gone && heard[i] == Heard(x, Newest(heard, gone)[x]))
      && forall i :: 0 <= i < |heard| && i !in gone && heard[i].id == x ==> IsNoOlder(Newest(heard, gone)[x], heard[i].push)
  {
    NewestIsListedFirst(heard, gone, x);
  }
}
