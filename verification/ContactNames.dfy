/** What a member shows under one resolution: the contact name of its cluster, its name as a participant, the
    push names heard from it and its aliases, and its phone. */
module ContactNames {
  import opened Options
  import opened Reachability
  import opened ContactResolution

  type Directory = map<Id, Identity>

  datatype NameSource = OPENWA_CONTACT_NAME | GROUP_PARTICIPANT_NAME | OPENWA_PUSH_NAME | RESOLVED_ALIAS_PUSH_NAME

  /** A push-name observation, and the identity it was heard from. */
  datatype Push = Push(name: string, observedAt: nat, key: nat, observation: nat)
  datatype Heard = Heard(id: Id, push: Push)

  /** The projected columns. */
  datatype Shown = Unprojected | Shown(kind: Kind, phone: Option<string>, name: Option<string>, source: Option<NameSource>)

  predicate IsResolved(r: Resolution, id: Id) {
    id in r.assignments && r.assignments[id].status == RESOLVED
  }

  /** The identity whose work row covers `id`. */
  function Canonical(r: Resolution, id: Id): Id {
    if IsResolved(r, id) then r.assignments[id].cluster else id
  }

  /** Members and senders are observed under anything but a bare phone. */
  predicate Speaks(ids: Directory, id: Id) {
    id in ids && ids[id].kind != PHONE
  }

  // ---------------------------------------------------------------------------------------------
  // Push names

  predicate NewerPush(a: Push, b: Push) {
    || a.observedAt > b.observedAt
    || (a.observedAt == b.observedAt && (a.key > b.key || (a.key == b.key && a.observation >= b.observation)))
  }

  predicate StrictlyNewer(a: Push, b: Push) {
    NewerPush(a, b) && a.observation != b.observation
  }

  /** The newest observation of each identity, after one more. */
  function Observed(pushes: map<Id, Push>, x: Id, push: Push): map<Id, Push> {
    if x in pushes && !StrictlyNewer(push, pushes[x]) then pushes else pushes[x := push]
  }

  /** The newest observation of each identity among those inserted and not `gone` again. */
  function Newest(heard: seq<Heard>, gone: set<nat>): map<Id, Push> {
    if heard == [] then map[]
    else
      var last, before := heard[|heard| - 1], Newest(heard[..|heard| - 1], gone);
      if |heard| - 1 in gone then before else Observed(before, last.id, last.push)
  }

  /** Observation identifiers are unique. */
  predicate DistinctHeard(heard: seq<Heard>) {
    forall i, j :: 0 <= i < j < |heard| ==> heard[i].push.observation != heard[j].push.observation
  }

  predicate DistinctPushes(pushes: map<Id, Push>) {
    forall a, b :: a in pushes && b in pushes && pushes[a].observation == pushes[b].observation ==> a == b
  }

  predicate IsNew(heard: seq<Heard>, push: Push) {
    forall i :: 0 <= i < |heard| ==> heard[i].push.observation != push.observation
  }

  /** The newest observation of an identity is one of those present, and no other present one of it is newer. */
  lemma {:induction false} NewestIsListedFirst(heard: seq<Heard>, gone: set<nat>, x: Id)
    requires DistinctHeard(heard)
    ensures x in Newest(heard, gone) <==> exists i :: 0 <= i < |heard| && i !in gone && heard[i].id == x
    ensures x in Newest(heard, gone) ==> exists i :: 0 <= i < |heard| && i !in gone && heard[i] == Heard(x, Newest(heard, gone)[x])
    ensures forall i :: 0 <= i < |heard| && i !in gone && heard[i].id == x ==> NewerPush(Newest(heard, gone)[x], heard[i].push)
  {
    if heard != [] {
      var n, before := |heard| - 1, heard[..|heard| - 1];
      NewestIsListedFirst(before, gone, x);
      assert forall i :: 0 <= i < n ==> before[i] == heard[i];
      if x in Newest(heard, gone) && Newest(heard, gone)[x] == heard[n].push && heard[n].id == x && n !in gone {
        assert heard[n] == Heard(x, Newest(heard, gone)[x]);
      } else if x in Newest(heard, gone) {
        assert x in Newest(before, gone) && Newest(before, gone)[x] == Newest(heard, gone)[x];
        var i :| 0 <= i < n && i !in gone && before[i] == Heard(x, Newest(before, gone)[x]);
        assert heard[i] == Heard(x, Newest(heard, gone)[x]);
      }
      if x in Newest(before, gone) {
        var i :| 0 <= i < n && i !in gone && before[i] == Heard(x, Newest(before, gone)[x]);
        assert heard[i].push.observation != heard[n].push.observation;
      }
    }
  }

  /** ... and that determines it. */
  lemma NewestIs(heard: seq<Heard>, gone: set<nat>, i: nat)
    requires DistinctHeard(heard) && i < |heard| && i !in gone
    requires forall j :: 0 <= j < |heard| && j !in gone && heard[j].id == heard[i].id ==> NewerPush(heard[i].push, heard[j].push)
    ensures heard[i].id in Newest(heard, gone) && Newest(heard, gone)[heard[i].id] == heard[i].push
  {
    var x := heard[i].id;
    NewestIsListedFirst(heard, gone, x);
    var j :| 0 <= j < |heard| && j !in gone && heard[j] == Heard(x, Newest(heard, gone)[x]);
    assert NewerPush(heard[i].push, heard[j].push) && NewerPush(heard[j].push, heard[i].push);
    assert heard[i].push.observation == heard[j].push.observation;
  }

  lemma NewestAreDistinct(heard: seq<Heard>, gone: set<nat>)
    requires DistinctHeard(heard)
    ensures DistinctPushes(Newest(heard, gone))
  {
    var pushes := Newest(heard, gone);
    forall a, b | a in pushes && b in pushes && pushes[a].observation == pushes[b].observation ensures a == b {
      NewestIsListedFirst(heard, gone, a);
      NewestIsListedFirst(heard, gone, b);
    }
  }

  predicate IsNewest(pushes: map<Id, Push>, among: set<Id>, z: Id) {
    z in among && z in pushes && forall o :: o in among && o in pushes ==> NewerPush(pushes[z], pushes[o])
  }

  ghost function NewestPush(pushes: map<Id, Push>, among: set<Id>): Option<string> {
    if exists z :: IsNewest(pushes, among, z) then
      var z :| IsNewest(pushes, among, z);
      Some(pushes[z].name)
    else None
  }

  // ---------------------------------------------------------------------------------------------
  // The columns a page writes

  function OtherAliases(r: Resolution, id: Id): set<Id>
    requires IsResolved(r, id)
  {
    Aliases(r, r.assignments[id].cluster) - {id}
  }

  function OwnPush(pushes: map<Id, Push>, id: Id): Option<string> {
    if id in pushes then Some(pushes[id].name) else None
  }

  ghost function AliasPush(pushes: map<Id, Push>, r: Resolution, id: Id): Option<string> {
    if IsResolved(r, id) then NewestPush(pushes, OtherAliases(r, id)) else None
  }

  /** The push name an identity would show, and where it is from: its own, or else its aliases' newest. */
  ghost function PushName(pushes: map<Id, Push>, r: Resolution, id: Id): Option<(string, NameSource)> {
    if OwnPush(pushes, id).Some? then Some((OwnPush(pushes, id).value, OPENWA_PUSH_NAME))
    else if AliasPush(pushes, r, id).Some? then Some((AliasPush(pushes, r, id).value, RESOLVED_ALIAS_PUSH_NAME))
    else None
  }

  function ContactNameOf(r: Resolution, id: Id): Option<string> {
    if IsResolved(r, id) then ClusterName(r, r.assignments[id].cluster) else None
  }

  function PhoneOf(ids: Directory, r: Resolution, id: Id): Option<string>
    requires id in ids
  {
    if IsResolved(r, id) then r.assignments[id].phone else Unresolved(ids[id])
  }

  function Unresolved(identity: Identity): Option<string> {
    if identity.kind == PHONE_JID then identity.phone else None
  }

  /** The columns a page writes for a member with this identity and participant name. */
  ghost function Projected(ids: Directory, pushes: map<Id, Push>, r: Resolution, id: Id, participantName: Option<string>): Shown
    requires id in ids
  {
    var kind, phone, name, push := ids[id].kind, PhoneOf(ids, r, id), ContactNameOf(r, id), PushName(pushes, r, id);
    if name.Some? then Shown(kind, phone, name, Some(OPENWA_CONTACT_NAME))
    else if participantName.Some? then Shown(kind, phone, participantName, Some(GROUP_PARTICIPANT_NAME))
    else if push.Some? then Shown(kind, phone, Some(push.value.0), Some(push.value.1))
    else Shown(kind, phone, None, None)
  }

  /** A projection depends on a resolution only through what it contributes for the identity. */
  lemma ProjectionFollowsContribution(ids: Directory, pushes: map<Id, Push>, r: Resolution, p: Resolution, id: Id,
                                      participantName: Option<string>)
    requires id in ids && Contributes(r, id) == Contributes(p, id)
    ensures Projected(ids, pushes, r, id, participantName) == Projected(ids, pushes, p, id, participantName)
    ensures Canonical(r, id) == Canonical(p, id) && PushName(pushes, r, id) == PushName(pushes, p, id)
  {
  }

  /** Nothing ranks before the push names of this identity. */
  predicate ShowsPush(r: Resolution, id: Id, participantName: Option<string>) {
    ContactNameOf(r, id).None? && participantName.None?
  }

  /** Other push names show exactly where nothing ranks before them and they differ in name or source. */
  lemma PushesShow(ids: Directory, pushes: map<Id, Push>, others: map<Id, Push>, r: Resolution, id: Id, participantName: Option<string>)
    requires id in ids
    ensures Projected(ids, pushes, r, id, participantName) != Projected(ids, others, r, id, participantName)
            <==> ShowsPush(r, id, participantName) && PushName(pushes, r, id) != PushName(others, r, id)
  {
  }
}
