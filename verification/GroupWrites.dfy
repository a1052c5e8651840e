/** Writes of group details in one session. A sync item or a targeted intent claims its row and the session's
    pacing lease together, reads the group upstream, and commits only while both still carry its token. A
    capability refresh reserves the pacing lease, then claims a lease on the group row, and commits only while
    that one stands. Holders may stall for any time, leases expire, and the upstream keeps changing. */
module GroupWrites {
  import opened Options

  type Instant = real
  type Group = nat
  type Token = nat

  datatype Target = SyncItem(run: nat, group: Group) | Intent(group: Group)
  datatype Writer = Fenced(target: Target) | Refresh(group: Group)
  datatype Lease = Lease(token: Token, expiresAt: Instant)

  function GroupOf(w: Writer): Group {
    match w
    case Fenced(target) => target.group
    case Refresh(group) => group
  }

  /** One holder's work. `version` numbers the states the upstream has gone through; a read that began at
      `from` may return any version the upstream had until it ended. A refresh has a pacing reservation of its own. */
  datatype Job = Job(writer: Writer, claimed: nat, known: nat, began: Option<nat>, from: nat, fetched: Option<nat>, written: bool,
                     reservation: Option<Token>)

  /** A committed write; the first three times count transactions and reads of the session. */
  datatype Entry = Entry(token: Token, writer: Writer, claimed: nat, began: nat, committed: nat, version: nat)

  datatype State = State(clock: nat, pacing: Option<Lease>, running: map<Target, Lease>, refresh: map<Group, Lease>,
                         reserved: set<Token>, jobs: map<Token, Job>, used: set<Token>, version: nat, log: seq<Entry>)

  const INITIAL := State(0, None, map[], map[], {}, map[], {}, 0, [])
  const LEASE_MS := 120000.0

  datatype Step =
    | Change
    | Claim(target: Target, token: Token)
    | Reserve(token: Token)
    | ClaimRefresh(group: Group, token: Token, reservation: Token)
    | Renew(token: Token)
    | BeginRead(token: Token)
    | EndRead(token: Token, version: nat)
    | Write(token: Token)
    | Finish(token: Token)
    | RecoverTarget(target: Target)
    | RecoverPacing
    | ReleasePacing(token: Token)
    | DropRefresh(group: Group)

  predicate PacingReady(s: State, at: Instant) {
    s.pacing.None? || s.pacing.value.expiresAt < at
  }

  predicate PacedBy(s: State, token: Token) {
    s.pacing.Some? && s.pacing.value.token == token
  }

  predicate IsFenced(s: State, token: Token) {
    token in s.jobs && s.jobs[token].writer.Fenced?
  }

  /** The row of a fenced job still carries its token, unexpired. */
  predicate OwnsRow(s: State, token: Token, at: Instant) {
    IsFenced(s, token) && s.jobs[token].writer.target in s.running
    && s.running[s.jobs[token].writer.target].token == token && s.running[s.jobs[token].writer.target].expiresAt > at
  }

  predicate OwnsRefresh(s: State, token: Token, at: Instant) {
    token in s.jobs && s.jobs[token].writer.Refresh? && s.jobs[token].writer.group in s.refresh
    && s.refresh[s.jobs[token].writer.group].token == token && s.refresh[s.jobs[token].writer.group].expiresAt > at
  }

  /** What a write must find. The pacing token is compared, its expiry is not. */
  predicate MayCommit(s: State, token: Token, at: Instant) {
    token in s.jobs && s.jobs[token].fetched.Some? && !s.jobs[token].written
    && if s.jobs[token].writer.Fenced? then OwnsRow(s, token, at) && PacedBy(s, token) else OwnsRefresh(s, token, at)
  }

  predicate TakesEffect(s: State, step: Step, at: Instant) {
    match step
    case Change => true
    case Claim(target, token) => token !in s.used && target !in s.running && PacingReady(s, at)
    case Reserve(token) => token !in s.used && PacingReady(s, at)
    case ClaimRefresh(group, token, reservation) =>
      token !in s.used && reservation in s.reserved && (group in s.refresh ==> s.refresh[group].expiresAt < at)
    case Renew(token) => OwnsRow(s, token, at) && PacedBy(s, token) && s.pacing.value.expiresAt > at
    case BeginRead(token) => token in s.jobs && s.jobs[token].began.None?
    case EndRead(token, version) =>
      token in s.jobs && s.jobs[token].began.Some? && s.jobs[token].fetched.None? && s.jobs[token].from <= version <= s.version
    case Write(token) => MayCommit(s, token, at)
    case Finish(token) => OwnsRow(s, token, at)
    case RecoverTarget(target) => target in s.running && s.running[target].expiresAt < at
    case RecoverPacing => s.pacing.Some? && s.pacing.value.expiresAt < at
    case ReleasePacing(token) => PacedBy(s, token)
    case DropRefresh(group) => true
  }

  function Committed(s: State, token: Token): Entry
    requires token in s.jobs && s.jobs[token].fetched.Some?
  {
    var j := s.jobs[token];
    Entry(token, j.writer, j.claimed, if j.began.Some? then j.began.value else 0, s.clock, j.fetched.value)
  }

  /** A write clears any capability lease on its group, and a fenced one extends both of its own. */
  function Written(s: State, token: Token, at: Instant): State
    requires MayCommit(s, token, at)
  {
    var j := s.jobs[token];
    var t := s.(log := s.log + [Committed(s, token)], jobs := s.jobs[token := j.(written := true)],
                refresh := s.refresh - {GroupOf(j.writer)});
    if j.writer.Refresh? then t
    else t.(running := s.running[j.writer.target := Lease(token, at + LEASE_MS)], pacing := Some(Lease(token, at + LEASE_MS)))
  }

  function Effect(s: State, step: Step, at: Instant): State
    requires TakesEffect(s, step, at)
  {
    match step
    case Change => s.(version := s.version + 1)
    case Claim(target, token) =>
      s.(running := s.running[target := Lease(token, at + LEASE_MS)], pacing := Some(Lease(token, at + LEASE_MS)),
         used := s.used + {token}, jobs := s.jobs[token := Job(Fenced(target), s.clock, s.version, None, s.version, None, false, None)])
    case Reserve(token) =>
      s.(pacing := Some(Lease(token, at + LEASE_MS)), used := s.used + {token}, reserved := s.reserved + {token})
    case ClaimRefresh(group, token, reservation) =>
      s.(refresh := s.refresh[group := Lease(token, at + LEASE_MS)], used := s.used + {token}, reserved := s.reserved - {reservation},
         jobs := s.jobs[token := Job(Refresh(group), s.clock, s.version, None, s.version, None, false, Some(reservation))])
    case Renew(token) =>
      s.(running := s.running[s.jobs[token].writer.target := Lease(token, at + LEASE_MS)], pacing := Some(Lease(token, at + LEASE_MS)))
    case BeginRead(token) => s.(jobs := s.jobs[token := s.jobs[token].(began := Some(s.clock), from := s.version)])
    case EndRead(token, version) => s.(jobs := s.jobs[token := s.jobs[token].(fetched := Some(version))])
    case Write(token) => Written(s, token, at)
    case Finish(token) =>
      s.(running := s.running - {s.jobs[token].writer.target}, pacing := if PacedBy(s, token) then None else s.pacing)
    case RecoverTarget(target) => s.(running := s.running - {target})
    case RecoverPacing => s.(pacing := None)
    case ReleasePacing(_) => s.(pacing := None)
    case DropRefresh(group) => s.(refresh := s.refresh - {group})
  }

  function After(s: State, step: Step, at: Instant): State {
    (if TakesEffect(s, step, at) then Effect(s, step, at) else s).(clock := s.clock + 1)
  }

  // ---------------------------------------------------------------------------------------------
  // Invariant

  predicate JobOk(s: State, token: Token)
    requires token in s.jobs
  {
    var j := s.jobs[token];
    && token in s.used && j.claimed < s.clock && j.known <= j.from <= s.version
    && (j.began.Some? ==> j.claimed < j.began.value < s.clock)
    && (j.fetched.Some? ==> j.began.Some? && j.from <= j.fetched.value <= s.version)
    && (j.reservation.Some? ==> j.reservation.value in s.used && j.reservation.value !in s.jobs)
  }

  /** Whatever was committed before the claim is no newer than what the claim will read. */
  predicate ReadsAfter(s: State, token: Token)
    requires token in s.jobs
  {
    forall i :: 0 <= i < |s.log| ==>
      && (s.log[i].committed < s.jobs[token].claimed ==> s.log[i].version <= s.jobs[token].known)
      && (s.log[i].token == token ==> s.jobs[token].written)
  }

  predicate EntryOk(s: State, e: Entry) {
    e.token in s.used && e.claimed < e.began < e.committed < s.clock && e.version <= s.version
  }

  /** While a fenced job's token is in the pacing row, no other fenced job has written since its claim. */
  predicate PacingSerializes(s: State) {
    s.pacing.Some? && IsFenced(s, s.pacing.value.token) ==>
      forall i :: 0 <= i < |s.log| && s.log[i].writer.Fenced? && s.log[i].token != s.pacing.value.token ==>
        s.log[i].committed < s.jobs[s.pacing.value.token].claimed
  }

  /** While a capability lease stands, nothing has been written to its group since its claim. */
  predicate RefreshUndisturbed(s: State, group: Group)
    requires group in s.refresh
  {
    s.refresh[group].token in s.jobs &&
    forall i :: 0 <= i < |s.log| && GroupOf(s.log[i].writer) == group ==>
      s.log[i].committed < s.jobs[s.refresh[group].token].claimed
  }

  /** Pairs of writes that must not interleave. */
  predicate MustFollow(a: Entry, b: Entry) {
    (a.writer.Fenced? && b.writer.Fenced?) || (b.writer.Refresh? && GroupOf(a.writer) == GroupOf(b.writer))
  }

  predicate InOrder(a: Entry, b: Entry) {
    && a.committed < b.committed
    && (MustFollow(a, b) ==> a.committed < b.claimed)
    && (a.committed < b.claimed ==> a.version <= b.version)
  }

  predicate LogOk(s: State) {
    forall i, j :: 0 <= i < j < |s.log| ==> InOrder(s.log[i], s.log[j])
  }

  ghost predicate Inv(s: State) {
    && (forall token :: token in s.jobs ==> JobOk(s, token) && ReadsAfter(s, token))
    && (forall i :: 0 <= i < |s.log| ==> EntryOk(s, s.log[i]))
    && (s.pacing.Some? ==> s.pacing.value.token in s.used)
    && (forall x :: x in s.reserved ==> x in s.used && x !in s.jobs)
    && PacingSerializes(s) && (forall group :: group in s.refresh ==> RefreshUndisturbed(s, group)) && LogOk(s)
  }

  /** Steps that neither write nor claim. */
  predicate IsQuiet(step: Step) {
    !step.Write? && !step.Claim? && !step.Reserve? && !step.ClaimRefresh?
  }

  /** `t` holds the same or fewer leases, and its jobs are those of `s`, further along. */
  predicate Continues(s: State, t: State) {
    && t.log == s.log && t.used == s.used && t.reserved == s.reserved && t.jobs.Keys == s.jobs.Keys && s.clock <= t.clock && s.version <= t.version
    && (t.pacing.Some? ==> s.pacing.Some? && t.pacing.value.token == s.pacing.value.token)
    && (forall g :: g in t.refresh ==> g in s.refresh && t.refresh[g] == s.refresh[g])
    && (forall x :: x in t.jobs ==> t.jobs[x].claimed == s.jobs[x].claimed && t.jobs[x].known == s.jobs[x].known
                                    && t.jobs[x].writer == s.jobs[x].writer && t.jobs[x].written == s.jobs[x].written)
  }

  lemma QuietContinues(s: State, step: Step, at: Instant)
    requires IsQuiet(step) || !TakesEffect(s, step, at)
    ensures Continues(s, After(s, step, at))
  {
  }

  lemma QuietJobs(s: State, step: Step, at: Instant, token: Token)
    requires (IsQuiet(step) || !TakesEffect(s, step, at)) && token in s.jobs && JobOk(s, token)
    ensures var t := After(s, step, at); token in t.jobs && JobOk(t, token)
  {
  }

  lemma QuietKeeps(s: State, step: Step, at: Instant)
    requires Inv(s) && (IsQuiet(step) || !TakesEffect(s, step, at))
    ensures Inv(After(s, step, at))
  {
    var t := After(s, step, at);
    QuietContinues(s, step, at);
    forall token | token in t.jobs ensures JobOk(t, token) { QuietJobs(s, step, at, token); }
    ContinuationKeeps(s, t);
  }

  lemma ContinuationKeeps(s: State, t: State)
    requires Inv(s) && Continues(s, t) && forall token :: token in t.jobs ==> JobOk(t, token)
    ensures Inv(t)
  {
    forall token | token in t.jobs ensures ReadsAfter(t, token) { assert ReadsAfter(s, token); }
    forall i | 0 <= i < |t.log| ensures EntryOk(t, t.log[i]) { assert EntryOk(s, s.log[i]); }
    forall g | g in t.refresh ensures RefreshUndisturbed(t, g) { assert RefreshUndisturbed(s, g); }
  }

  /** Taking a lease or reserving: the newcomer follows everything committed so far. */
  lemma ClaimKeeps(s: State, step: Step, at: Instant)
    requires Inv(s) && (step.Claim? || step.Reserve? || step.ClaimRefresh?) && TakesEffect(s, step, at)
    ensures Inv(After(s, step, at))
  {
    var t := After(s, step, at);
    forall i | 0 <= i < |t.log| ensures EntryOk(t, t.log[i]) { assert EntryOk(s, s.log[i]); }
    forall token | token in t.jobs ensures JobOk(t, token) && ReadsAfter(t, token) {
      if token in s.jobs { assert JobOk(s, token) && ReadsAfter(s, token); } else { ClaimedJob(s, step, at, token); }
    }
    forall g | g in t.refresh ensures RefreshUndisturbed(t, g) { ClaimedRefresh(s, step, at, g); }
    ClaimedPacing(s, step, at);
  }

  lemma ClaimedRefresh(s: State, step: Step, at: Instant, g: Group)
    requires (step.Claim? || step.Reserve? || step.ClaimRefresh?) && TakesEffect(s, step, at) && g in After(s, step, at).refresh
    requires g in s.refresh ==> RefreshUndisturbed(s, g)
    requires forall token :: token in s.jobs ==> token in s.used
    requires forall i :: 0 <= i < |s.log| ==> EntryOk(s, s.log[i])
    ensures RefreshUndisturbed(After(s, step, at), g)
  {
  }

  lemma ClaimedPacing(s: State, step: Step, at: Instant)
    requires (step.Claim? || step.Reserve? || step.ClaimRefresh?) && TakesEffect(s, step, at) && PacingSerializes(s)
    requires forall i :: 0 <= i < |s.log| ==> EntryOk(s, s.log[i])
    requires (s.pacing.Some? ==> s.pacing.value.token in s.used) && forall token :: token in s.jobs ==> token in s.used
    ensures PacingSerializes(After(s, step, at))
  {
  }

  lemma ClaimedJob(s: State, step: Step, at: Instant, token: Token)
    requires Inv(s) && (step.Claim? || step.Reserve? || step.ClaimRefresh?) && TakesEffect(s, step, at)
    requires token in After(s, step, at).jobs && token !in s.jobs
    ensures JobOk(After(s, step, at), token) && ReadsAfter(After(s, step, at), token)
  {
    forall i | 0 <= i < |s.log| ensures s.log[i].version <= s.version && s.log[i].token != token {
      assert EntryOk(s, s.log[i]);
    }
  }

  lemma WriteFollows(s: State, token: Token, at: Instant, i: nat)
    requires Inv(s) && MayCommit(s, token, at) && i < |s.log|
    ensures InOrder(s.log[i], Committed(s, token))
  {
    assert EntryOk(s, s.log[i]) && JobOk(s, token) && ReadsAfter(s, token);
    if s.jobs[token].writer.Refresh? {
      assert RefreshUndisturbed(s, s.jobs[token].writer.group);
    }
  }

  lemma WrittenJob(s: State, token: Token, at: Instant, x: Token)
    requires MayCommit(s, token, at) && x in s.jobs && JobOk(s, x) && ReadsAfter(s, x)
    ensures var t := After(s, Write(token), at); x in t.jobs && JobOk(t, x) && ReadsAfter(t, x)
  {
    var t := After(s, Write(token), at);
    forall i | 0 <= i < |t.log|
      ensures (t.log[i].committed < t.jobs[x].claimed ==> t.log[i].version <= t.jobs[x].known)
              && (t.log[i].token == x ==> t.jobs[x].written)
    {
      if i < |s.log| { assert t.log[i] == s.log[i]; }
    }
  }

  lemma WrittenPacing(s: State, token: Token, at: Instant)
    requires MayCommit(s, token, at) && PacingSerializes(s)
    ensures PacingSerializes(After(s, Write(token), at))
  {
    var t := After(s, Write(token), at);
    assert forall i :: 0 <= i < |s.log| ==> t.log[i] == s.log[i];
  }

  lemma WrittenRefresh(s: State, token: Token, at: Instant, g: Group)
    requires MayCommit(s, token, at) && g in After(s, Write(token), at).refresh && RefreshUndisturbed(s, g)
    ensures RefreshUndisturbed(After(s, Write(token), at), g)
  {
    var t := After(s, Write(token), at);
    assert forall i :: 0 <= i < |s.log| ==> t.log[i] == s.log[i];
  }

  lemma WriteKeeps(s: State, token: Token, at: Instant)
    requires Inv(s) && MayCommit(s, token, at)
    ensures Inv(After(s, Write(token), at))
  {
    var t := After(s, Write(token), at);
    assert JobOk(s, token);
    forall i | 0 <= i < |t.log| ensures EntryOk(t, t.log[i]) { if i < |s.log| { assert EntryOk(s, s.log[i]); } }
    forall i, j | 0 <= i < j < |t.log| ensures InOrder(t.log[i], t.log[j]) {
      if j == |s.log| { WriteFollows(s, token, at, i); } else { assert InOrder(s.log[i], s.log[j]); }
    }
    forall x | x in t.jobs ensures JobOk(t, x) && ReadsAfter(t, x) { WrittenJob(s, token, at, x); }
    forall g | g in t.refresh ensures RefreshUndisturbed(t, g) { WrittenRefresh(s, token, at, g); }
    WrittenPacing(s, token, at);
  }

  lemma StepKeeps(s: State, step: Step, at: Instant)
    requires Inv(s)
    ensures Inv(After(s, step, at))
  {
    if IsQuiet(step) || !TakesEffect(s, step, at) {
      QuietKeeps(s, step, at);
    } else if step.Write? {
      WriteKeeps(s, step.token, at);
    } else {
      ClaimKeeps(s, step, at);
    }
  }

  /** The state after a list of steps, each at its instant. */
  function Run(steps: seq<(Step, Instant)>): State {
    if steps == [] then INITIAL
    else After(Run(steps[..|steps| - 1]), steps[|steps| - 1].0, steps[|steps| - 1].1)
  }

  lemma {:induction false} RunKeepsInv(steps: seq<(Step, Instant)>)
    ensures Inv(Run(steps))
  {
    if steps != [] {
      RunKeepsInv(steps[..|steps| - 1]);
      StepKeeps(Run(steps[..|steps| - 1]), steps[|steps| - 1].0, steps[|steps| - 1].1);
    }
  }

  // ---------------------------------------------------------------------------------------------
  // Results

  /** Writes made through sync items and intents commit in the order their reads began: the earlier one had
      committed before the later one was even claimed. */
  lemma WriteOrderIsReadOrder(steps: seq<(Step, Instant)>, i: nat, j: nat)
    requires i < j < |Run(steps).log| && Run(steps).log[i].writer.Fenced? && Run(steps).log[j].writer.Fenced?
    ensures var a, b := Run(steps).log[i], Run(steps).log[j];
            a.began < a.committed < b.claimed < b.began < b.committed && a.version <= b.version
  {
    RunKeepsInv(steps);
    assert EntryOk(Run(steps), Run(steps).log[i]) && EntryOk(Run(steps), Run(steps).log[j]);
    assert InOrder(Run(steps).log[i], Run(steps).log[j]);
  }

  /** A capability refresh commits only if nothing was written to its group since its claim. */
  lemma RefreshSeesTheLatest(steps: seq<(Step, Instant)>, i: nat, j: nat)
    requires i < |Run(steps).log| && j < |Run(steps).log| && i != j && Run(steps).log[j].writer.Refresh?
    requires GroupOf(Run(steps).log[i].writer) == GroupOf(Run(steps).log[j].writer)
    ensures var a, b := Run(steps).log[i], Run(steps).log[j];
            !(b.claimed <= a.committed <= b.committed) && (i < j ==> a.version <= b.version)
  {
    RunKeepsInv(steps);
    if i < j {
      assert InOrder(Run(steps).log[i], Run(steps).log[j]);
    } else {
      assert InOrder(Run(steps).log[j], Run(steps).log[i]);
    }
  }

  /** Stored details can only go back in one way: a capability refresh committed between the claim and the
      write of an item or intent. */
  lemma OnlyRefreshIsOverwritten(steps: seq<(Step, Instant)>, i: nat, j: nat)
    requires i < j < |Run(steps).log| && GroupOf(Run(steps).log[i].writer) == GroupOf(Run(steps).log[j].writer)
    requires Run(steps).log[i].version > Run(steps).log[j].version
    ensures var a, b := Run(steps).log[i], Run(steps).log[j];
            a.writer.Refresh? && b.writer.Fenced? && b.claimed <= a.committed < b.committed
  {
    RunKeepsInv(steps);
    assert InOrder(Run(steps).log[i], Run(steps).log[j]);
  }

  // ---------------------------------------------------------------------------------------------
  // When the details a refresh stores can still go back

  /** The state after further steps, each at its instant. */
  function RunFrom(s: State, steps: seq<(Step, Instant)>): State {
    if steps == [] then s
    else After(RunFrom(s, steps[..|steps| - 1]), steps[|steps| - 1].0, steps[|steps| - 1].1)
  }

  /** Time does not run backwards from `at` on. */
  ghost predicate Later(steps: seq<(Step, Instant)>, at: Instant) {
    && (forall i :: 0 <= i < |steps| ==> at <= steps[i].1)
    && (forall i, j :: 0 <= i <= j < |steps| ==> steps[i].1 <= steps[j].1)
  }

  /** The version a read under way could at least return, or has returned. */
  function LeastRead(j: Job): nat {
    if j.fetched.Some? then j.fetched.value else j.from
  }

  /** The pacing row names an item or intent of the group that still owns its row, has begun to read but not
      written, and could have read something older than `version`. */
  predicate Threatens(s: State, group: Group, version: nat, at: Instant) {
    s.pacing.Some? && var x := s.pacing.value.token;
      && OwnsRow(s, x, at) && GroupOf(s.jobs[x].writer) == group
      && s.jobs[x].began.Some? && !s.jobs[x].written && LeastRead(s.jobs[x]) < version
  }

  /** After its first `n` entries the log stores something older than `version` for the group. */
  ghost predicate GoesBack(s: State, n: nat, group: Group, version: nat) {
    exists i :: n <= i < |s.log| && GroupOf(s.log[i].writer) == group && s.log[i].version < version
  }

  /** Nobody is left who could write something older than `version`. */
  ghost predicate Stands(s: State, n: nat, group: Group, version: nat, at: Instant) {
    && Inv(s) && n <= |s.log| && version <= s.version
    && !Threatens(s, group, version, at) && !GoesBack(s, n, group, version)
    && (group in s.refresh ==> s.refresh[group].token in s.jobs && version <= s.jobs[s.refresh[group].token].known)
  }

  lemma StandingWrite(s: State, n: nat, group: Group, version: nat, at: Instant, token: Token, now: Instant)
    requires Stands(s, n, group, version, at) && at <= now && MayCommit(s, token, now)
    ensures Stands(After(s, Write(token), now), n, group, version, now)
  {
    var t := After(s, Write(token), now);
    StepKeeps(s, Write(token), now);
    assert JobOk(s, token);
    forall i | n <= i < |t.log| && GroupOf(t.log[i].writer) == group ensures version <= t.log[i].version {
      if i < |s.log| { assert t.log[i] == s.log[i]; }
    }
  }

  lemma StandingStep(s: State, n: nat, group: Group, version: nat, at: Instant, step: Step, now: Instant)
    requires Stands(s, n, group, version, at) && at <= now
    ensures Stands(After(s, step, now), n, group, version, now)
  {
    if step.Write? && TakesEffect(s, step, now) {
      StandingWrite(s, n, group, version, at, step.token, now);
    } else {
      StepKeeps(s, step, now);
      NoNewThreat(s, group, version, at, step, now);
      assert After(s, step, now).log == s.log;
    }
  }

  lemma NoNewThreat(s: State, group: Group, version: nat, at: Instant, step: Step, now: Instant)
    requires Inv(s) && at <= now && version <= s.version && !Threatens(s, group, version, at)
    requires !(step.Write? && TakesEffect(s, step, now))
    requires group in s.refresh ==> s.refresh[group].token in s.jobs && version <= s.jobs[s.refresh[group].token].known
    ensures var t := After(s, step, now);
      && version <= t.version && !Threatens(t, group, version, now)
      && (group in t.refresh ==> t.refresh[group].token in t.jobs && version <= t.jobs[t.refresh[group].token].known)
  {
    if s.pacing.Some? && s.pacing.value.token in s.jobs { assert JobOk(s, s.pacing.value.token); }
    RefreshesReadLate(s, group, version, step, now);
  }

  lemma RefreshesReadLate(s: State, group: Group, version: nat, step: Step, now: Instant)
    requires version <= s.version && forall x :: x in s.jobs ==> x in s.used
    requires group in s.refresh ==> s.refresh[group].token in s.jobs && version <= s.jobs[s.refresh[group].token].known
    ensures var t := After(s, step, now);
      group in t.refresh ==> t.refresh[group].token in t.jobs && version <= t.jobs[t.refresh[group].token].known
  {
  }

  lemma {:induction false} StandingRun(s: State, n: nat, group: Group, version: nat, at: Instant, steps: seq<(Step, Instant)>)
    requires Stands(s, n, group, version, at) && Later(steps, at)
    ensures Stands(RunFrom(s, steps), n, group, version, if steps == [] then at else steps[|steps| - 1].1)
  {
    if steps != [] {
      var front := steps[..|steps| - 1];
      assert forall i :: 0 <= i < |front| ==> front[i] == steps[i];
      StandingRun(s, n, group, version, at, front);
      StandingStep(RunFrom(s, front), n, group, version, if front == [] then at else front[|front| - 1].1,
                   steps[|steps| - 1].0, steps[|steps| - 1].1);
    }
  }

  /** Once its read has ended, a threat can be carried out. */
  lemma ThreatCommits(s: State, group: Group, version: nat, at: Instant)
    requires Inv(s) && Threatens(s, group, version, at) && s.jobs[s.pacing.value.token].fetched.Some?
    ensures MayCommit(s, s.pacing.value.token, at)
    ensures GoesBack(After(s, Write(s.pacing.value.token), at), |s.log|, group, version)
  {
    var x := s.pacing.value.token;
    assert After(s, Write(x), at).log[|s.log|] == Committed(s, x);
  }

  lemma ThreatEndsRead(s: State, group: Group, version: nat, at: Instant)
    requires Inv(s) && Threatens(s, group, version, at) && s.jobs[s.pacing.value.token].fetched.None?
    ensures var x := s.pacing.value.token;
            var t := After(s, EndRead(x, s.jobs[x].from), at);
            t.log == s.log && t.pacing == s.pacing && Threatens(t, group, version, at) && t.jobs[x].fetched.Some?
  {
    assert JobOk(s, s.pacing.value.token);
  }

  lemma {:induction false} RunOneMore(s: State, steps: seq<(Step, Instant)>, step: Step, at: Instant)
    ensures RunFrom(s, steps + [(step, at)]) == After(RunFrom(s, steps), step, at)
  {
    assert (steps + [(step, at)])[..|steps|] == steps;
  }

  /** A threat is carried out by ending the read, if need be, and writing. */
  lemma ThreatIsCarriedOut(s: State, group: Group, version: nat, at: Instant)
    requires Inv(s) && Threatens(s, group, version, at)
    ensures exists steps :: Later(steps, at) && GoesBack(RunFrom(s, steps), |s.log|, group, version)
  {
    var x := s.pacing.value.token;
    if s.jobs[x].fetched.Some? {
      ThreatCommits(s, group, version, at);
      RunOneMore(s, [], Write(x), at);
      assert Later([] + [(Write(x), at)], at);
    } else {
      var end := EndRead(x, s.jobs[x].from);
      ThreatEndsRead(s, group, version, at);
      StepKeeps(s, end, at);
      ThreatCommits(After(s, end, at), group, version, at);
      RunOneMore(s, [], end, at);
      RunOneMore(s, [] + [(end, at)], Write(x), at);
      assert Later([] + [(end, at)] + [(Write(x), at)], at);
    }
  }

  /** When a refresh commits, what it stores can still be followed by something older exactly if the pacing row
      then names an item or intent of the group that owns its row and began a read that may return less. */
  lemma RefreshStandsIffUnthreatened(s: State, token: Token, at: Instant)
    requires Occurs(s) && MayCommit(s, token, at) && s.jobs[token].writer.Refresh?
    ensures var t, group, version := After(s, Write(token), at), s.jobs[token].writer.group, s.jobs[token].fetched.value;
            (exists steps :: Later(steps, at) && GoesBack(RunFrom(t, steps), |t.log|, group, version))
            <==> Threatens(s, group, version, at)
  {
    var t, group, version := After(s, Write(token), at), s.jobs[token].writer.group, s.jobs[token].fetched.value;
    var steps0 :| Run(steps0) == s;
    RunKeepsInv(steps0);
    StepKeeps(s, Write(token), at);
    assert JobOk(s, token);
    assert Threatens(t, group, version, at) <==> Threatens(s, group, version, at);
    if Threatens(s, group, version, at) {
      ThreatIsCarriedOut(t, group, version, at);
    } else {
      forall steps | Later(steps, at) ensures !GoesBack(RunFrom(t, steps), |t.log|, group, version) {
        StandingRun(t, |t.log|, group, version, at, steps);
      }
    }
  }

  /** In particular it stands if the pacing row still carries the reservation the refresh itself began with. */
  lemma ReservedRefreshStands(s: State, token: Token, at: Instant, steps: seq<(Step, Instant)>)
    requires Occurs(s) && MayCommit(s, token, at) && s.jobs[token].writer.Refresh? && Later(steps, at)
    requires s.jobs[token].reservation.Some? && PacedBy(s, s.jobs[token].reservation.value)
    ensures var t := After(s, Write(token), at);
            !GoesBack(RunFrom(t, steps), |t.log|, s.jobs[token].writer.group, s.jobs[token].fetched.value)
  {
    var steps0 :| Run(steps0) == s;
    RunKeepsInv(steps0);
    assert JobOk(s, token);
    RefreshStandsIffUnthreatened(s, token, at);
  }

  ghost predicate Occurs(s: State) {
    exists steps :: Run(steps) == s
  }

  lemma OccursNext(s: State, step: Step, at: Instant) returns (t: State)
    requires Occurs(s)
    ensures t == After(s, step, at) && Occurs(t)
  {
    var steps :| Run(steps) == s;
    t := After(s, step, at);
    assert (steps + [(step, at)])[..|steps|] == steps;
    assert Run(steps + [(step, at)]) == t;
  }

  /** A refresh reserved the pacing lease and let it expire; an intent took the lease; only then did the
      refresh claim the group. */
  const OVERTAKEN := State(2, Some(Lease(2, 240001.0)), map[Intent(7) := Lease(2, 240001.0)], map[], {1},
                           map[2 := Job(Fenced(Intent(7)), 1, 0, None, 0, None, false, None)], {1, 2}, 0, [])

  const STALLED := OVERTAKEN.(clock := 3, refresh := map[7 := Lease(3, 240002.0)], reserved := {}, used := {1, 2, 3},
                              jobs := map[2 := Job(Fenced(Intent(7)), 1, 0, None, 0, None, false, None),
                                          3 := Job(Refresh(7), 2, 0, None, 0, None, false, Some(1))])

  /** The intent reads, the group changes, the refresh reads. */
  const ONE_READ := STALLED.(clock := 5, jobs := map[2 := Job(Fenced(Intent(7)), 1, 0, Some(3), 0, Some(0), false, None),
                                                     3 := Job(Refresh(7), 2, 0, None, 0, None, false, Some(1))])

  const BOTH_READ := ONE_READ.(clock := 8, version := 1,
                               jobs := map[2 := Job(Fenced(Intent(7)), 1, 0, Some(3), 0, Some(0), false, None),
                                           3 := Job(Refresh(7), 2, 0, Some(6), 1, Some(1), false, Some(1))])

  lemma IntentOvertakes()
    ensures Occurs(OVERTAKEN)
  {
    assert Run([]) == INITIAL;
    var a := OccursNext(INITIAL, Reserve(1), 0.0);
    var b := OccursNext(a, Claim(Intent(7), 2), 120001.0);
    assert b.jobs == OVERTAKEN.jobs && b.used == OVERTAKEN.used && b.running == OVERTAKEN.running;
  }

  lemma RefreshStalls()
    ensures Occurs(STALLED)
  {
    IntentOvertakes();
    var c := OccursNext(OVERTAKEN, ClaimRefresh(7, 3, 1), 120002.0);
    assert c.jobs == STALLED.jobs && c.used == STALLED.used && c.refresh == STALLED.refresh && c.reserved == {};
  }

  lemma IntentReads()
    ensures Occurs(ONE_READ)
  {
    RefreshStalls();
    var a := OccursNext(STALLED, BeginRead(2), 120003.0);
    var b := OccursNext(a, EndRead(2, 0), 120004.0);
    assert b.jobs == ONE_READ.jobs;
  }

  lemma RefreshReads()
    ensures Occurs(BOTH_READ)
  {
    IntentReads();
    var c := OccursNext(ONE_READ, Change, 120005.0);
    var d := OccursNext(c, BeginRead(3), 120006.0);
    var e := OccursNext(d, EndRead(3, 1), 120007.0);
    assert e.jobs == BOTH_READ.jobs;
  }

  /** ... and that does happen: a refresh that outlives its pacing reservation before it claims the group
      can be overwritten by an intent that read the group earlier. */
  lemma RefreshCanBeOverwritten()
    ensures exists s :: Occurs(s) && |s.log| == 2 && GroupOf(s.log[0].writer) == GroupOf(s.log[1].writer)
                        && s.log[0].version > s.log[1].version
  {
    RefreshReads();
    var a := OccursNext(BOTH_READ, Write(3), 120008.0);
    assert a.jobs[2] == BOTH_READ.jobs[2] && a.running == BOTH_READ.running;
    var b := OccursNext(a, Write(2), 120009.0);
    assert b.log[0].version == 1 && b.log[1].version == 0;
  }

  // ---------------------------------------------------------------------------------------------
  // The tables

  /** The leases of one session as mutable rows. The ghost fields are the history the results speak of. */
  class SessionGroups {
    var pacing: Option<Lease>
    var running: map<Target, Lease>
    var refresh: map<Group, Lease>
    ghost var clock: nat
    ghost var reserved: set<Token>
    ghost var jobs: map<Token, Job>
    ghost var used: set<Token>
    ghost var version: nat
    ghost var log: seq<Entry>

    ghost function Now(): State
      reads this
    {
      State(clock, pacing, running, refresh, reserved, jobs, used, version, log)
    }

    constructor ()
      ensures Now() == INITIAL
    {
      pacing, running, refresh := None, map[], map[];
      clock, reserved, jobs, used, version, log := 0, {}, map[], {}, 0, [];
    }

    /** A work row and the pacing row are claimed under one token. */
    method ClaimTarget(target: Target, token: Token, now: Instant) returns (claimed: bool)
      requires token !in used
      modifies this
      ensures claimed <==> target !in old(running) && PacingReady(old(Now()), now)
      ensures Now() == After(old(Now()), Claim(target, token), now)
    {
      ghost var next := After(Now(), Claim(target, token), now);
      claimed := (pacing.None? || pacing.value.expiresAt < now) && target !in running;
      if claimed {
        running := running[target := Lease(token, now + LEASE_MS)];
        pacing := Some(Lease(token, now + LEASE_MS));
      }
      Remember(next);
    }

    method ReserveRequest(token: Token, now: Instant) returns (granted: bool)
      requires token !in used
      modifies this
      ensures granted <==> PacingReady(old(Now()), now)
      ensures Now() == After(old(Now()), Reserve(token), now)
    {
      ghost var next := After(Now(), Reserve(token), now);
      granted := pacing.None? || pacing.value.expiresAt < now;
      if granted {
        pacing := Some(Lease(token, now + LEASE_MS));
      }
      Remember(next);
    }

    method ClaimCapability(group: Group, token: Token, ghost reservation: Token, now: Instant) returns (claimed: bool)
      requires token !in used && reservation in reserved
      modifies this
      ensures claimed <==> (group in old(refresh) ==> old(refresh)[group].expiresAt < now)
      ensures Now() == After(old(Now()), ClaimRefresh(group, token, reservation), now)
    {
      ghost var next := After(Now(), ClaimRefresh(group, token, reservation), now);
      claimed := group !in refresh || refresh[group].expiresAt < now;
      if claimed {
        refresh := refresh[group := Lease(token, now + LEASE_MS)];
      }
      Remember(next);
    }

    /** Fence checks, the capability check, the write with its lease clearing, then both renewals; if the
        pacing row has lost the token the whole transaction is rolled back. */
    method UpsertGroupDetails(writer: Writer, token: Token, now: Instant) returns (applied: bool)
      requires token in jobs && jobs[token].writer == writer && jobs[token].fetched.Some? && !jobs[token].written
      modifies this
      ensures applied <==> match writer
        case Fenced(target) =>
          && target in old(running) && old(running)[target].token == token && old(running)[target].expiresAt > now
          && old(pacing).Some? && old(pacing).value.token == token
        case Refresh(group) => group in old(refresh) && old(refresh)[group].token == token && old(refresh)[group].expiresAt > now
      ensures Now() == After(old(Now()), Write(token), now)
    {
      ghost var next := After(Now(), Write(token), now);
      applied := false;
      match writer {
        case Fenced(target) =>
          if target in running && running[target].token == token && running[target].expiresAt > now {
            var before := (running, refresh);
            refresh := refresh - {target.group};
            running := running[target := Lease(token, now + LEASE_MS)];
            applied := pacing.Some? && pacing.value.token == token;
            if applied {
              pacing := Some(Lease(token, now + LEASE_MS));
            } else {
              running, refresh := before.0, before.1;
            }
          }
        case Refresh(group) =>
          if group in refresh && refresh[group].token == token && refresh[group].expiresAt > now {
            refresh := refresh - {group};
            applied := true;
          }
      }
      Remember(next);
    }

    /** The end of an item's or intent's read: its row is settled and the pacing lease given back if still its own. */
    method FinishTarget(target: Target, token: Token, now: Instant) returns (owned: bool)
      requires token in jobs && jobs[token].writer == Fenced(target)
      modifies this
      ensures owned <==> OwnsRow(old(Now()), token, now)
      ensures Now() == After(old(Now()), Finish(token), now)
    {
      ghost var next := After(Now(), Finish(token), now);
      owned := target in running && running[target].token == token && running[target].expiresAt > now;
      if owned {
        running := running - {target};
        if pacing.Some? && pacing.value.token == token {
          pacing := None;
        }
      }
      Remember(next);
    }

    ghost method Remember(next: State)
      modifies this`clock, this`reserved, this`jobs, this`used, this`version, this`log
      ensures Now() == next.(pacing := pacing, running := running, refresh := refresh)
    {
      clock, reserved, jobs, used, version, log := next.clock, next.reserved, next.jobs, next.used, next.version, next.log;
    }
  }
}
