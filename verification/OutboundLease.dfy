/** The outbound lease of one session: any number of send calls compete for one row, wait the human-like
    delay, renew the row for 45 s and then POST. Time is real and in milliseconds; every step of every call
    carries the instant at which it happens. */
module OutboundLease {
  import opened Options

  type Instant = real

  /** One `withLease` call: its job, and the random token that no other call shares. */
  datatype Call = Call(job: nat, token: nat)
  datatype Row = Row(holder: Call, expiresAt: Instant)

  const RENEWAL_MS := 45000.0
  const START_BOUND_MS := 15000.0
  const REQUEST_TIMEOUT_MS := 30000.0

  // ---------------------------------------------------------------------------------------------
  // The row

  predicate CanAcquire(row: Option<Row>, call: Call, now: Instant) {
    row.None? || row.value.expiresAt < now || row.value.holder == call
  }

  predicate CanRenew(row: Option<Row>, call: Call, now: Instant) {
    row.Some? && row.value.holder == call && row.value.expiresAt > now
  }

  predicate IsHeld(row: Option<Row>, call: Call) {
    row.Some? && row.value.holder == call
  }

  // ---------------------------------------------------------------------------------------------
  // Calls

  /** Where a call stands; it has no phase while it waits for the row. */
  datatype Phase =
    | Holding(acquiredAt: Instant)
    | Verified(acquiredAt: Instant, renewedAt: Instant)
    | Posting(acquiredAt: Instant, renewedAt: Instant, startedAt: Instant)
    | Done

  datatype Post = Post(call: Call, start: Instant, end: Option<Instant>)

  /** `startBound`: how long after its renewal a call may still issue the POST. `postBound`: how long a POST
      may last. */
  datatype Params = Params(minDelay: Instant, maxDelay: Instant, startBound: Instant, postBound: Instant)
  {
    predicate Valid() {
      0.0 <= minDelay <= maxDelay && 0.0 <= startBound && 0.0 <= postBound
    }
  }

  datatype State = State(now: Instant, row: Option<Row>, phases: map<Call, Phase>, posts: seq<Post>)

  const INITIAL := State(0.0, None, map[], [])

  datatype Step =
    | Acquire(call: Call)
    | Renew(call: Call)
    | StartPost(call: Call)
    | EndPost(call: Call)
    | Release(call: Call)
    | Crash(call: Call)

  /** A POST is cut off when its time is up, so no instant passes beyond an open POST's deadline. */
  predicate Reachable(p: Params, s: State, at: Instant) {
    s.now <= at && forall i :: 0 <= i < |s.posts| && s.posts[i].end.None? ==> at <= s.posts[i].start + p.postBound
  }

  /** A release or a crash ends a call that is not posting; a POST cut off by a crash ends first. */
  predicate Enabled(p: Params, s: State, step: Step, at: Instant) {
    Reachable(p, s, at) &&
    match step
    case Acquire(call) => call !in s.phases && CanAcquire(s.row, call, at)
    case Renew(call) =>
      call in s.phases && s.phases[call].Holding? && at >= s.phases[call].acquiredAt + p.minDelay && CanRenew(s.row, call, at)
    case StartPost(call) => call in s.phases && s.phases[call].Verified? && at <= s.phases[call].renewedAt + p.startBound
    case EndPost(call) => call in s.phases && s.phases[call].Posting?
    case Release(call) => call in s.phases && !s.phases[call].Posting?
    case Crash(call) => call in s.phases && !s.phases[call].Posting?
  }

  function Ended(posts: seq<Post>, call: Call, at: Instant): (r: seq<Post>)
    ensures |r| == |posts|
    ensures forall i :: 0 <= i < |posts| ==>
      r[i] == if posts[i].call == call && posts[i].end.None? then posts[i].(end := Some(at)) else posts[i]
  {
    seq(|posts|, i requires 0 <= i < |posts| =>
      if posts[i].call == call && posts[i].end.None? then posts[i].(end := Some(at)) else posts[i])
  }

  function After(p: Params, s: State, step: Step, at: Instant): State
    requires Enabled(p, s, step, at)
  {
    var t := s.(now := at);
    match step
    case Acquire(call) => t.(row := Some(Row(call, at + (p.maxDelay + RENEWAL_MS))), phases := s.phases[call := Holding(at)])
    case Renew(call) =>
      t.(row := Some(Row(call, at + RENEWAL_MS)), phases := s.phases[call := Verified(s.phases[call].acquiredAt, at)])
    case StartPost(call) =>
      t.(phases := s.phases[call := Posting(s.phases[call].acquiredAt, s.phases[call].renewedAt, at)],
         posts := s.posts + [Post(call, at, None)])
    case EndPost(call) => t.(phases := s.phases[call := Done], posts := Ended(s.posts, call, at))
    case Release(call) => t.(row := if IsHeld(s.row, call) then None else s.row, phases := s.phases[call := Done])
    case Crash(call) => t.(phases := s.phases[call := Done])
  }

  ghost predicate IsRun(p: Params, states: seq<State>, steps: seq<(Step, Instant)>) {
    && |states| == |steps| + 1 && states[0] == INITIAL
    && forall i :: 0 <= i < |steps| ==>
         Enabled(p, states[i], steps[i].0, steps[i].1) && states[i + 1] == After(p, states[i], steps[i].0, steps[i].1)
  }

  // ---------------------------------------------------------------------------------------------
  // Safety

  /** Two POSTs never overlap, and the later starts at least the minimum delay after the earlier ended. */
  predicate Separated(p: Params, posts: seq<Post>) {
    forall i, j :: 0 <= i < j < |posts| ==> posts[i].end.Some? && posts[i].end.value + p.minDelay <= posts[j].start
  }

  ghost predicate Occurs(p: Params, s: State) {
    exists states, steps :: IsRun(p, states, steps) && states[|steps|] == s
  }

  ghost predicate IsSafe(p: Params) {
    forall s :: Occurs(p, s) ==> Separated(p, s.posts)
  }

  predicate CallOk(p: Params, s: State, call: Call)
    requires call in s.phases
  {
    match s.phases[call]
    case Holding(a) => a <= s.now
    case Verified(a, r) => a + p.minDelay <= r <= s.now
    case Posting(a, r, b) => a + p.minDelay <= r <= b <= s.now && b <= r + p.startBound
    case Done => true
  }

  /** The call could still issue its POST, or has one open. */
  predicate Live(p: Params, s: State, call: Call)
    requires call in s.phases
  {
    match s.phases[call]
    case Verified(_, r) => s.now <= r + p.startBound
    case Posting(_, _, _) => true
    case _ => false
  }

  function RenewedAt(phase: Phase): Instant
    requires phase.Verified? || phase.Posting?
  {
    phase.renewedAt
  }

  /** A live call holds the row until 45 s after its renewal. */
  predicate LiveHolds(p: Params, s: State, call: Call)
    requires call in s.phases
  {
    Live(p, s, call) ==> s.row == Some(Row(call, RenewedAt(s.phases[call]) + RENEWAL_MS))
  }

  /** Every POST other than the holder's own ended by the time the holder acquired the row. */
  predicate Cleared(s: State, post: Post) {
    s.row.Some? && s.row.value.holder in s.phases && !s.phases[s.row.value.holder].Done?
    && post.call != s.row.value.holder ==>
      post.end.Some? && post.end.value <= s.phases[s.row.value.holder].acquiredAt
  }

  /** A POST is open exactly while its call is posting, and a call that has not started one has none. */
  predicate PostOk(s: State, post: Post) {
    && post.call in s.phases && (s.phases[post.call].Posting? || s.phases[post.call].Done?)
    && (post.end.None? ==> s.phases[post.call].Posting? && s.phases[post.call].startedAt == post.start)
    && (post.end.Some? ==> post.end.value <= s.now && !s.phases[post.call].Posting?)
    && post.start <= s.now
  }

  predicate Started(s: State, call: Call) {
    exists i :: 0 <= i < |s.posts| && s.posts[i].call == call && s.posts[i].end.None?
  }

  predicate Standing(p: Params, s: State, call: Call)
    requires call in s.phases
  {
    CallOk(p, s, call) && LiveHolds(p, s, call) && (s.phases[call].Posting? ==> Started(s, call))
  }

  ghost predicate Inv(p: Params, s: State) {
    && (forall call :: call in s.phases ==> Standing(p, s, call))
    && (forall i :: 0 <= i < |s.posts| ==> PostOk(s, s.posts[i]) && Cleared(s, s.posts[i]))
    && Separated(p, s.posts)
  }

  /** The two bounds fit into one renewal. */
  predicate Fits(p: Params) {
    p.startBound + p.postBound <= RENEWAL_MS
  }

  /** A call that is still live at `at` holds the row, unexpired. */
  lemma LiveIsFenced(p: Params, s: State, call: Call, at: Instant)
    requires p.Valid() && Fits(p) && Inv(p, s) && Reachable(p, s, at) && call in s.phases
    requires s.phases[call].Posting? || (s.phases[call].Verified? && at <= s.phases[call].renewedAt + p.startBound)
    ensures s.row == Some(Row(call, s.phases[call].renewedAt + RENEWAL_MS)) && at <= s.row.value.expiresAt
  {
    assert Standing(p, s, call);
    if s.phases[call].Posting? {
      var i :| 0 <= i < |s.posts| && s.posts[i].call == call && s.posts[i].end.None?;
      assert PostOk(s, s.posts[i]);
    }
  }

  lemma AcquireKeeps(p: Params, s: State, call: Call, at: Instant)
    requires p.Valid() && Fits(p) && Inv(p, s) && Enabled(p, s, Acquire(call), at)
    ensures Inv(p, After(p, s, Acquire(call), at))
  {
    var t := After(p, s, Acquire(call), at);
    forall i | 0 <= i < |t.posts| ensures PostOk(t, t.posts[i]) && Cleared(t, t.posts[i]) {
      assert PostOk(s, s.posts[i]);
      if s.posts[i].end.None? { LiveIsFenced(p, s, s.posts[i].call, at); }
    }
    forall c | c in t.phases ensures Standing(p, t, c) {
      if c != call {
        assert Standing(p, s, c);
        if Live(p, t, c) { LiveIsFenced(p, s, c, at); }
      }
    }
  }

  lemma RenewKeeps(p: Params, s: State, call: Call, at: Instant)
    requires p.Valid() && Inv(p, s) && Enabled(p, s, Renew(call), at)
    ensures Inv(p, After(p, s, Renew(call), at))
  {
    var t := After(p, s, Renew(call), at);
    forall c | c in t.phases ensures Standing(p, t, c) {
      if c != call { assert Standing(p, s, c); }
    }
    forall i | 0 <= i < |t.posts| ensures PostOk(t, t.posts[i]) && Cleared(t, t.posts[i]) {
      assert PostOk(s, s.posts[i]) && Cleared(s, s.posts[i]);
    }
  }

  lemma StartPostKeeps(p: Params, s: State, call: Call, at: Instant)
    requires p.Valid() && Fits(p) && Inv(p, s) && Enabled(p, s, StartPost(call), at)
    ensures Inv(p, After(p, s, StartPost(call), at))
  {
    var t := After(p, s, StartPost(call), at);
    LiveIsFenced(p, s, call, at);
    assert Standing(p, s, call);
    forall i | 0 <= i < |s.posts| ensures PostOk(t, t.posts[i]) && Cleared(t, t.posts[i])
        && s.posts[i].end.Some? && s.posts[i].end.value + p.minDelay <= at
    {
      assert PostOk(s, s.posts[i]) && Cleared(s, s.posts[i]);
    }
    assert t.posts[|s.posts|] == Post(call, at, None);
    forall c | c in t.phases ensures Standing(p, t, c) {
      assert Standing(p, s, c);
      if c != call && s.phases[c].Posting? { LiveIsFenced(p, s, c, at); }
    }
  }

  lemma EndPostKeeps(p: Params, s: State, call: Call, at: Instant)
    requires p.Valid() && Fits(p) && Inv(p, s) && Enabled(p, s, EndPost(call), at)
    ensures Inv(p, After(p, s, EndPost(call), at))
  {
    var t := After(p, s, EndPost(call), at);
    LiveIsFenced(p, s, call, at);
    forall c | c in t.phases ensures Standing(p, t, c) {
      assert Standing(p, s, c);
      if c != call && s.phases[c].Posting? { LiveIsFenced(p, s, c, at); }
    }
    forall i | 0 <= i < |t.posts| ensures PostOk(t, t.posts[i]) && Cleared(t, t.posts[i]) {
      assert PostOk(s, s.posts[i]) && Cleared(s, s.posts[i]);
    }
  }

  lemma LeaveKeeps(p: Params, s: State, step: Step, at: Instant)
    requires p.Valid() && Inv(p, s) && (step.Release? || step.Crash?) && Enabled(p, s, step, at)
    ensures Inv(p, After(p, s, step, at))
  {
    var t := After(p, s, step, at);
    forall c | c in t.phases ensures Standing(p, t, c) { assert Standing(p, s, c); }
    forall i | 0 <= i < |t.posts| ensures PostOk(t, t.posts[i]) && Cleared(t, t.posts[i]) {
      assert PostOk(s, s.posts[i]) && Cleared(s, s.posts[i]);
    }
  }

  lemma StepKeeps(p: Params, s: State, step: Step, at: Instant)
    requires p.Valid() && Fits(p) && Inv(p, s) && Enabled(p, s, step, at)
    ensures Inv(p, After(p, s, step, at))
  {
    match step
    case Acquire(call) => AcquireKeeps(p, s, call, at);
    case Renew(call) => RenewKeeps(p, s, call, at);
    case StartPost(call) => StartPostKeeps(p, s, call, at);
    case EndPost(call) => EndPostKeeps(p, s, call, at);
    case Release(_) => LeaveKeeps(p, s, step, at);
    case Crash(_) => LeaveKeeps(p, s, step, at);
  }

  lemma {:induction false} RunKeepsInv(p: Params, states: seq<State>, steps: seq<(Step, Instant)>, n: nat)
    requires p.Valid() && Fits(p) && IsRun(p, states, steps) && n <= |steps|
    ensures Inv(p, states[n])
  {
    if n > 0 {
      RunKeepsInv(p, states, steps, n - 1);
      StepKeeps(p, states[n - 1], steps[n - 1].0, steps[n - 1].1);
      assert states[n - 1 + 1] == After(p, states[n - 1], steps[n - 1].0, steps[n - 1].1);
    }
  }

  // ---------------------------------------------------------------------------------------------
  // Bounds that do not fit let two POSTs of one session collide

  lemma OccursNext(p: Params, s: State, step: Step, at: Instant)
    requires Occurs(p, s) && Enabled(p, s, step, at)
    ensures Occurs(p, After(p, s, step, at))
  {
    var states, steps :| IsRun(p, states, steps) && states[|steps|] == s;
    var more, trace := steps + [(step, at)], states + [After(p, s, step, at)];
    forall i | 0 <= i < |more|
      ensures Enabled(p, trace[i], more[i].0, more[i].1) && trace[i + 1] == After(p, trace[i], more[i].0, more[i].1)
    {
      if i < |steps| { assert steps[i] == more[i] && states[i] == trace[i] && states[i + 1] == trace[i + 1]; }
    }
    assert IsRun(p, trace, more) && trace[|more|] == After(p, s, step, at);
  }

  const FIRST := Call(1, 1)
  const SECOND := Call(2, 2)

  /** The first call is renewed as early as the delay allows. */
  lemma FirstRenewed(p: Params)
    requires p.Valid()
    ensures Occurs(p, State(p.minDelay, Some(Row(FIRST, p.minDelay + RENEWAL_MS)), map[FIRST := Verified(0.0, p.minDelay)], []))
  {
    assert IsRun(p, [INITIAL], []) && [INITIAL][0] == INITIAL;
    OccursNext(p, INITIAL, Acquire(FIRST), 0.0);
    var s := After(p, INITIAL, Acquire(FIRST), 0.0);
    OccursNext(p, s, Renew(FIRST), p.minDelay);
    assert After(p, s, Renew(FIRST), p.minDelay).phases == map[FIRST := Verified(0.0, p.minDelay)];
  }

  /** The state after the first call POSTs as late as it may, and the second acquires at `taken`. */
  function Overtaken(p: Params, taken: Instant): State {
    var start := p.minDelay + p.startBound;
    State(if start <= taken then taken else start, Some(Row(SECOND, taken + (p.maxDelay + RENEWAL_MS))),
          map[FIRST := Posting(0.0, p.minDelay, start), SECOND := Holding(taken)], [Post(FIRST, start, None)])
  }

  lemma SecondOvertakes(p: Params, taken: Instant)
    requires p.Valid() && p.minDelay + RENEWAL_MS < taken <= p.minDelay + p.startBound + p.postBound
    ensures Occurs(p, Overtaken(p, taken))
  {
    FirstRenewed(p);
    var s := State(p.minDelay, Some(Row(FIRST, p.minDelay + RENEWAL_MS)), map[FIRST := Verified(0.0, p.minDelay)], []);
    if p.minDelay + p.startBound <= taken { PostsThenAcquires(p, s, taken); } else { AcquiresThenPosts(p, s, taken); }
  }

  lemma PostsThenAcquires(p: Params, s: State, taken: Instant)
    requires p.Valid() && p.minDelay + RENEWAL_MS < taken <= p.minDelay + p.startBound + p.postBound
    requires s == State(p.minDelay, Some(Row(FIRST, p.minDelay + RENEWAL_MS)), map[FIRST := Verified(0.0, p.minDelay)], [])
    requires Occurs(p, s) && p.minDelay + p.startBound <= taken
    ensures Occurs(p, Overtaken(p, taken))
  {
    var start := p.minDelay + p.startBound;
    OccursNext(p, s, StartPost(FIRST), start);
    var t := After(p, s, StartPost(FIRST), start);
    OccursNext(p, t, Acquire(SECOND), taken);
    assert After(p, t, Acquire(SECOND), taken).phases == Overtaken(p, taken).phases;
  }

  lemma AcquiresThenPosts(p: Params, s: State, taken: Instant)
    requires p.Valid() && p.minDelay + RENEWAL_MS < taken < p.minDelay + p.startBound
    requires s == State(p.minDelay, Some(Row(FIRST, p.minDelay + RENEWAL_MS)), map[FIRST := Verified(0.0, p.minDelay)], [])
    requires Occurs(p, s)
    ensures Occurs(p, Overtaken(p, taken))
  {
    var start := p.minDelay + p.startBound;
    OccursNext(p, s, Acquire(SECOND), taken);
    var t := After(p, s, Acquire(SECOND), taken);
    OccursNext(p, t, StartPost(FIRST), start);
    assert After(p, t, StartPost(FIRST), start).phases == Overtaken(p, taken).phases;
  }

  /** From here the second call can renew and POST as soon as its delay is over. */
  lemma SecondPosts(p: Params, s: State, taken: Instant)
    requires p.Valid() && Occurs(p, s) && |s.posts| == 1 && Reachable(p, s, taken + p.minDelay)
    requires SECOND in s.phases && s.phases[SECOND] == Holding(taken)
    requires s.row == Some(Row(SECOND, taken + (p.maxDelay + RENEWAL_MS)))
    ensures exists u :: Occurs(p, u) && u.posts == [s.posts[0], Post(SECOND, taken + p.minDelay, None)]
  {
    OccursNext(p, s, Renew(SECOND), taken + p.minDelay);
    var t := After(p, s, Renew(SECOND), taken + p.minDelay);
    OccursNext(p, t, StartPost(SECOND), taken + p.minDelay);
    assert After(p, t, StartPost(SECOND), taken + p.minDelay).posts == [s.posts[0], Post(SECOND, taken + p.minDelay, None)];
  }

  /** The second call POSTs while the first POST is still open, or too soon after it ended. */
  lemma UnfitBoundsCollide(p: Params)
    requires p.Valid() && !Fits(p)
    ensures exists s :: Occurs(p, s) && !Separated(p, s.posts)
  {
    var slack, end := p.startBound + p.postBound - RENEWAL_MS, p.minDelay + p.startBound + p.postBound;
    if p.minDelay < slack {
      var taken := end - p.minDelay;
      SecondOvertakes(p, taken);
      SecondPosts(p, Overtaken(p, taken), taken);
      var u :| Occurs(p, u) && u.posts == [Overtaken(p, taken).posts[0], Post(SECOND, taken + p.minDelay, None)];
      PairCollides(p, Overtaken(p, taken).posts[0], u.posts[1]);
    } else {
      var taken := end - slack / 2.0;
      SecondOvertakes(p, taken);
      FirstEnds(p, taken, end);
      var s := After(p, Overtaken(p, taken), EndPost(FIRST), end);
      SecondPosts(p, s, taken);
      var u :| Occurs(p, u) && u.posts == [s.posts[0], Post(SECOND, taken + p.minDelay, None)];
      PairCollides(p, s.posts[0], u.posts[1]);
    }
  }

  lemma PairCollides(p: Params, a: Post, b: Post)
    requires a.end.Some? ==> b.start < a.end.value + p.minDelay
    ensures !Separated(p, [a, b])
  {
    var posts := [a, b];
    assert posts[0] == a && posts[1] == b;
  }

  lemma FirstEnds(p: Params, taken: Instant, end: Instant)
    requires p.Valid() && Occurs(p, Overtaken(p, taken))
    requires taken <= end == p.minDelay + p.startBound + p.postBound
    ensures var s := Overtaken(p, taken);
      && Enabled(p, s, EndPost(FIRST), end) && Occurs(p, After(p, s, EndPost(FIRST), end))
      && After(p, s, EndPost(FIRST), end) ==
           State(end, s.row, s.phases[FIRST := Done], [Post(FIRST, p.minDelay + p.startBound, Some(end))])
  {
    OccursNext(p, Overtaken(p, taken), EndPost(FIRST), end);
  }

  /** Two POSTs of a session stay the minimum delay apart, whatever the calls, stalls, expiries and crashes,
      exactly when start bound and POST bound together fit into one renewal. */
  lemma SafeIffBoundsFit(p: Params)
    requires p.Valid()
    ensures IsSafe(p) <==> p.startBound + p.postBound <= RENEWAL_MS
  {
    if Fits(p) {
      forall s | Occurs(p, s) ensures Separated(p, s.posts) {
        var states, steps :| IsRun(p, states, steps) && states[|steps|] == s;
        RunKeepsInv(p, states, steps, |steps|);
      }
    } else {
      UnfitBoundsCollide(p);
    }
  }

  /** The deployed numbers: a POST aborted after 30 s that starts within 15 s of the renewal. */
  lemma DeployedBoundsAreSafe(minDelay: Instant, maxDelay: Instant)
    requires 0.0 <= minDelay <= maxDelay
    ensures IsSafe(Params(minDelay, maxDelay, START_BOUND_MS, REQUEST_TIMEOUT_MS))
  {
    SafeIffBoundsFit(Params(minDelay, maxDelay, START_BOUND_MS, REQUEST_TIMEOUT_MS));
  }

  // ---------------------------------------------------------------------------------------------
  // The table

  type Session = nat

  class OutboundSessionLeases {
    var rows: map<Session, Row>

    constructor ()
      ensures rows == map[]
    {
      rows := map[];
    }

    function RowOf(session: Session): Option<Row>
      reads this
    {
      if session in rows then Some(rows[session]) else None
    }

    /** Only the named session's row may differ. */
    twostate predicate OnlyTouches(session: Session)
      reads this
    {
      forall other :: other != session ==> (other in rows <==> other in old(rows)) && (other in rows ==> rows[other] == old(rows)[other])
    }

    /** Insert, or overwrite an expired or own row. */
    method TryAcquire(session: Session, call: Call, ttl: Instant, now: Instant) returns (acquired: bool)
      modifies this
      ensures acquired <==>
        session !in old(rows) || old(rows)[session].expiresAt < now || old(rows)[session].holder == call
      ensures RowOf(session) == if acquired then Some(Row(call, now + ttl)) else old(RowOf(session))
      ensures OnlyTouches(session)
    {
      if session !in rows {
        rows := rows[session := Row(call, now + ttl)];
        return true;
      }
      var row := rows[session];
      acquired := row.expiresAt < now || (row.holder.job == call.job && row.holder.token == call.token);
      if acquired {
        rows := rows[session := row.(holder := call, expiresAt := now + ttl)];
      }
    }

    method Renew(session: Session, call: Call, ttl: Instant, now: Instant) returns (renewed: bool)
      modifies this
      ensures renewed <==> session in old(rows) && old(rows)[session].holder == call && old(rows)[session].expiresAt > now
      ensures RowOf(session) == if renewed then Some(Row(call, now + ttl)) else old(RowOf(session))
      ensures OnlyTouches(session)
    {
      renewed := session in rows && rows[session].holder == call && rows[session].expiresAt > now;
      if renewed {
        rows := rows[session := rows[session].(expiresAt := now + ttl)];
      }
    }

    method Release(session: Session, call: Call) returns (released: bool)
      modifies this
      ensures released <==> session in old(rows) && old(rows)[session].holder == call
      ensures RowOf(session) == if released then None else old(RowOf(session))
      ensures OnlyTouches(session)
    {
      released := session in rows && rows[session].holder == call;
      if released {
        rows := rows - {session};
      }
    }
  }
}
