/** Carrier propagation over one link: the two ends, each with its debouncer, its
    echo suppression and its interface. */
module CarrierMirror {
  import opened Options
  import opened Debounce

  /** All the state of one end. The debouncer's maps, the echo map and the wire
      table are keyed by interface, so an end is independent of the other links of
      its node. The last three fields count what the end did. */
  datatype Port = Port(
    carrier: bool,
    pending: Option<bool>, deadline: Option<int>, emitted: Option<bool>,
    echo: Option<bool>,
    sent: nat, suppressed: nat, swallowed: nat)

  function PortObserve(p: Port, d: nat, now: int): Port {
    if p.pending == Some(p.carrier) then p else p.(pending := Some(p.carrier), deadline := Some(now + d))
  }

  predicate PortExpired(p: Port, now: int) {
    p.deadline.Some? && p.deadline.value <= now && p.pending.Some?
  }

  /** The edge of a Due, if any. */
  function PortEdge(p: Port, now: int): Option<bool> {
    if PortExpired(p, now) && p.emitted != p.pending then p.pending else None
  }

  function PortDue(p: Port, now: int): Port {
    if PortExpired(p, now) then p.(deadline := None, emitted := p.pending) else p
  }

  // ------------------------------------- ports are what the maps say of a key

  function At<T>(m: map<int, T>, k: int): Option<T> {
    if k in m then Some(m[k]) else None
  }

  predicate Shows(s: State, k: int, p: Port) {
    p.pending == At(s.pending, k) && p.deadline == At(s.deadline, k) && p.emitted == At(s.emitted, k)
  }

  /** The map operations act on each key as on a port, and on no other key. */
  lemma ObserveIsPerKey(s: State, d: nat, k: int, p: Port, key: int, up: bool, now: int)
    requires Shows(s, k, p) && (key == k ==> up == p.carrier)
    ensures Shows(Observed(s, d, key, up, now), k, if key == k then PortObserve(p, d, now) else p)
  {
  }

  lemma DueIsPerKey(s: State, k: int, p: Port, now: int)
    requires s.deadline.Keys <= s.pending.Keys && Shows(s, k, p)
    ensures Shows(AfterDue(s, now), k, PortDue(p, now))
    ensures forall up :: Reports(s, now, Edge(k, up)) <==> PortEdge(p, now) == Some(up)
  {
  }

  // --------------------------------------------------------- the two ends

  datatype Side = X | Y

  function Other(s: Side): Side {
    if s == X then Y else X
  }

  datatype World = World(x: Port, y: Port)

  function Get(w: World, s: Side): Port {
    if s == X then w.x else w.y
  }

  function Ends(s: Side, near: Port, far: Port): World {
    if s == X then World(near, far) else World(far, near)
  }

  /** SetLocalVethState: expect the echo, then set the interface. */
  function Mirror(p: Port, up: bool): Port {
    p.(carrier := up, echo := Some(up), suppressed := p.suppressed + 1)
  }

  /** A restarted daemon has a new debouncer and an empty echo map. */
  function Forgotten(p: Port): Port {
    p.(pending := None, deadline := None, emitted := None, echo := None)
  }

  datatype Event =
    | Flip(side: Side)             // the interface changes by itself
    | Tick(side: Side, now: int)   // one round of the carrier watch
    | Restart(side: Side)          // the daemon starts anew
    | Reassert(side: Side)         // some time later it pushes its current state

  /** One round of the watch: sample, then for an edge that is due either swallow
      the expected echo or notify the peer. */
  function TickEffect(s: Side, near: Port, far: Port, d: nat, now: int): World {
    var seen := PortObserve(near, d, now);
    var edge := PortEdge(seen, now);
    var p := PortDue(seen, now);
    if edge == None then Ends(s, p, far)
    else if p.echo == edge then Ends(s, p.(echo := None, swallowed := p.swallowed + 1), far)
    else Ends(s, p.(sent := p.sent + 1), Mirror(far, edge.value))
  }

  function Step(w: World, d: nat, e: Event): World {
    var near, far := Get(w, e.side), Get(w, Other(e.side));
    match e
    case Flip(s) => Ends(s, near.(carrier := !near.carrier), far)
    case Tick(s, now) => TickEffect(s, near, far, d, now)
    case Restart(s) => Ends(s, Forgotten(near), far)
    case Reassert(s) => Ends(s, near.(sent := near.sent + 1), Mirror(far, near.carrier))
  }

  function Run(w: World, d: nat, es: seq<Event>): World {
    if es == [] then w else Step(Run(w, d, es[..|es| - 1]), d, es[|es| - 1])
  }

  // ------------------------------------------------------- conservation

  ghost predicate EchoesPaidFor(p: Port) {
    p.swallowed + (if p.echo.Some? then 1 else 0) <= p.suppressed
  }

  lemma TickPaysForEcho(s: Side, near: Port, far: Port, d: nat, now: int)
    requires EchoesPaidFor(near) && EchoesPaidFor(far)
    ensures var w := TickEffect(s, near, far, d, now); EchoesPaidFor(w.x) && EchoesPaidFor(w.y)
  {
    var seen := PortObserve(near, d, now);
    assert PortDue(seen, now).echo == near.echo && PortDue(seen, now).swallowed == near.swallowed;
  }

  /** Every swallowed edge, and every echo still expected, is covered by its own
      mirrored state change, in any run with flips, ticks, restarts and re-assertions at
      any time. */
  lemma {:induction false} SwallowedNeverExceedSuppressed(w: World, d: nat, es: seq<Event>)
    requires EchoesPaidFor(w.x) && EchoesPaidFor(w.y)
    ensures EchoesPaidFor(Run(w, d, es).x) && EchoesPaidFor(Run(w, d, es).y)
  {
    if es != [] {
      var v, e := Run(w, d, es[..|es| - 1]), es[|es| - 1];
      SwallowedNeverExceedSuppressed(w, d, es[..|es| - 1]);
      if e.Tick? {
        TickPaysForEcho(e.side, Get(v, e.side), Get(v, Other(e.side)), d, e.now);
      }
    }
  }

  /** What one end sends is what the other end has suppressed. */
  lemma {:induction false} SentIsMirrored(w: World, d: nat, es: seq<Event>)
    requires w.x.sent == w.y.suppressed && w.y.sent == w.x.suppressed
    ensures Run(w, d, es).x.sent == Run(w, d, es).y.suppressed && Run(w, d, es).y.sent == Run(w, d, es).x.suppressed
  {
    if es != [] {
      SentIsMirrored(w, d, es[..|es| - 1]);
    }
  }

  /** The edges that the watch of one side reported in a run, and the re-assertions. */
  function Reported(w: World, d: nat, es: seq<Event>, s: Side): nat {
    if es == [] then 0
    else
      var e, near := es[|es| - 1], Get(Run(w, d, es[..|es| - 1]), s);
      Reported(w, d, es[..|es| - 1], s)
      + (if e == Reassert(s) || (e.Tick? && e.side == s && PortEdge(PortObserve(near, d, e.now), e.now).Some?) then 1 else 0)
  }

  /** Each of them is sent or swallowed, and none is both. */
  lemma {:induction false} ReportedOnce(w: World, d: nat, es: seq<Event>, s: Side)
    ensures Get(Run(w, d, es), s).sent + Get(Run(w, d, es), s).swallowed == Get(w, s).sent + Get(w, s).swallowed + Reported(w, d, es, s)
  {
    if es != [] {
      var v, e := Run(w, d, es[..|es| - 1]), es[|es| - 1];
      ReportedOnce(w, d, es[..|es| - 1], s);
      EventReportsOnce(v, d, e, s);
    }
  }

  lemma EventReportsOnce(v: World, d: nat, e: Event, s: Side)
    ensures var near, after := Get(v, s), Get(Step(v, d, e), s);
      after.sent + after.swallowed == near.sent + near.swallowed +
        (if e == Reassert(s) || (e.Tick? && e.side == s && PortEdge(PortObserve(near, d, e.now), e.now).Some?) then 1 else 0)
  {
  }

  // ----------------------------------------------------------- mirroring

  /** The end has reported v, and nothing is under way. */
  predicate Settled(p: Port, v: bool) {
    p.carrier == v && p.pending == Some(v) && p.deadline == None && p.emitted == Some(v)
  }

  /** The interface is at v, which was not reported, and this was sampled; it is due at
      `due` at the latest. */
  predicate Sampled(p: Port, v: bool, due: int) {
    p.carrier == v && p.emitted != Some(v) && p.pending == Some(v) && p.deadline.Some? && p.deadline.value <= due
  }

  predicate Moving(p: Port, v: bool, due: int) {
    Sampled(p, v, due) || (p.carrier == v && p.emitted != Some(v) && p.pending != Some(v) && p.deadline == None)
  }

  /** How far one change to v at side s has come, with ticks only. Stage 0: not
      sampled; 1: sampled; 2: the far end was told; 3: the far end sampled it; 4: done. */
  datatype Shift = Shift(s: Side, v: bool, echo: Option<bool>, nearSent: nat, farSent: nat)

  predicate NearMoving(w: World, c: Shift, stage: nat, due: int) {
    var near, far := Get(w, c.s), Get(w, Other(c.s));
    && near.sent == c.nearSent && far.sent == c.farSent && Settled(far, !c.v) && near.echo == c.echo
    && if stage == 0 then Moving(near, c.v, due) else Sampled(near, c.v, due)
  }

  predicate NearDone(w: World, c: Shift) {
    var near, far := Get(w, c.s), Get(w, Other(c.s));
    near.sent == c.nearSent + 1 && far.sent == c.farSent && Settled(near, c.v) && near.echo == c.echo
  }

  predicate FarMoving(w: World, c: Shift, stage: nat, due: int) {
    var far := Get(w, Other(c.s));
    && NearDone(w, c) && far.echo == Some(c.v)
    && if stage == 3 then Sampled(far, c.v, due) else Moving(far, c.v, due)
  }

  predicate Mirrored(w: World, c: Shift) {
    NearDone(w, c) && Settled(Get(w, Other(c.s)), c.v) && Get(w, Other(c.s)).echo == None
  }

  /** At `stage` or later. */
  predicate Course(w: World, c: Shift, stage: nat, nearDue: int, farDue: int) {
    || (stage <= 1 && NearMoving(w, c, stage, nearDue))
    || (stage <= 3 && FarMoving(w, c, stage, farDue))
    || Mirrored(w, c)
  }

  function Max(a: int, b: int): int {
    if a < b then b else a
  }

  /** Any tick keeps the change on course. */
  lemma TickStaysOnCourse(w: World, d: nat, c: Shift, stage: nat, nearDue: int, farDue: int, side: Side, now: int)
    requires Course(w, c, stage, nearDue, farDue) && c.echo != Some(c.v)
    ensures Course(Step(w, d, Tick(side, now)), c, stage, if stage == 0 then Max(nearDue, now + d) else nearDue,
                   if stage < 3 then Max(farDue, now + d) else farDue)
  {
  }

  /** The near end samples the change; one debounce later it tells the far end; the
      far end samples it; one debounce later it swallows the echo. */
  lemma TickAdvances(w: World, d: nat, c: Shift, stage: nat, nearDue: int, farDue: int, now: int)
    requires Course(w, c, stage, nearDue, farDue) && stage < 4 && c.echo != Some(c.v)
    requires stage == 1 ==> nearDue <= now
    requires stage == 3 ==> farDue <= now
    ensures Course(Step(w, d, Tick(if stage < 2 then c.s else Other(c.s), now)), c, stage + 1, Max(nearDue, now + d), Max(farDue, now + d))
  {
    if stage < 2 { NearTickAdvances(w, d, c, stage, nearDue, farDue, now); } else { FarTickAdvances(w, d, c, stage, nearDue, farDue, now); }
  }

  lemma NearTickAdvances(w: World, d: nat, c: Shift, stage: nat, nearDue: int, farDue: int, now: int)
    requires Course(w, c, stage, nearDue, farDue) && stage < 2 && c.echo != Some(c.v) && (stage == 1 ==> nearDue <= now)
    ensures Course(Step(w, d, Tick(c.s, now)), c, stage + 1, Max(nearDue, now + d), Max(farDue, now + d))
  {
  }

  lemma FarTickAdvances(w: World, d: nat, c: Shift, stage: nat, nearDue: int, farDue: int, now: int)
    requires Course(w, c, stage, nearDue, farDue) && 2 <= stage < 4 && c.echo != Some(c.v) && (stage == 3 ==> farDue <= now)
    ensures Course(Step(w, d, Tick(Other(c.s), now)), c, stage + 1, Max(nearDue, now + d), Max(farDue, now + d))
  {
  }

  predicate TicksUpTo(es: seq<Event>, t: int) {
    forall e :: e in es ==> e.Tick? && e.now <= t
  }

  predicate Ticks(es: seq<Event>) {
    forall e :: e in es ==> e.Tick?
  }

  lemma {:induction false} RunStaysOnCourse(w: World, d: nat, c: Shift, stage: nat, nearDue: int, farDue: int, es: seq<Event>, t: int)
    requires Course(w, c, stage, nearDue, farDue) && c.echo != Some(c.v) && Ticks(es)
    requires stage < 3 ==> TicksUpTo(es, t)
    ensures Course(Run(w, d, es), c, stage, if stage == 0 then Max(nearDue, t + d) else nearDue,
                   if stage < 3 then Max(farDue, t + d) else farDue)
  {
    if es != [] {
      var e := es[|es| - 1];
      assert e in es && e.Tick?;
      RunStaysOnCourse(w, d, c, stage, nearDue, farDue, es[..|es| - 1], t);
      TickStaysOnCourse(Run(w, d, es[..|es| - 1]), d, c, stage, if stage == 0 then Max(nearDue, t + d) else nearDue,
        if stage < 3 then Max(farDue, t + d) else farDue, e.side, e.now);
    }
  }

  /** A run of ticks in which each end ticks twice, a debounce apart, the far end
      after the near one. Everything else is arbitrary. */
  datatype Schedule = Schedule(
    es1: seq<Event>, t1: int, es2: seq<Event>, t2: int, es3: seq<Event>, t3: int, es4: seq<Event>, t4: int, es5: seq<Event>)

  predicate LongEnough(h: Schedule, d: nat) {
    && TicksUpTo(h.es1, h.t1) && TicksUpTo(h.es2, h.t2) && TicksUpTo(h.es3, h.t3) && Ticks(h.es4) && Ticks(h.es5)
    && h.t1 + d <= h.t2 <= h.t3 && h.t3 + d <= h.t4
  }

  function RunSchedule(w: World, d: nat, s: Side, h: Schedule): World {
    var w1 := Step(Run(w, d, h.es1), d, Tick(s, h.t1));
    var w2 := Step(Run(w1, d, h.es2), d, Tick(s, h.t2));
    var w3 := Step(Run(w2, d, h.es3), d, Tick(Other(s), h.t3));
    Run(Step(Run(w3, d, h.es4), d, Tick(Other(s), h.t4)), d, h.es5)
  }

  /** Whatever puts the near end at an unreported v while the far end is settled on the
      other value: the schedule ends with the change mirrored. */
  lemma CourseIsRun(w0: World, d: nat, c: Shift, h: Schedule)
    requires NearMoving(w0, c, 0, h.t1 + d) && c.echo != Some(c.v) && LongEnough(h, d)
    ensures Mirrored(RunSchedule(w0, d, c.s, h), c)
  {
    var s, a := c.s, h.t1 + d;
    assert Course(w0, c, 0, a, a);
    RunStaysOnCourse(w0, d, c, 0, a, a, h.es1, h.t1);
    TickAdvances(Run(w0, d, h.es1), d, c, 0, a, a, h.t1);
    var w1 := Step(Run(w0, d, h.es1), d, Tick(s, h.t1));
    var b := h.t3 + d;
    RunStaysOnCourse(w1, d, c, 1, a, a, h.es2, h.t2);
    TickAdvances(Run(w1, d, h.es2), d, c, 1, a, Max(a, h.t2 + d), h.t2);
    var w2 := Step(Run(w1, d, h.es2), d, Tick(s, h.t2));
    RunStaysOnCourse(w2, d, c, 2, h.t2 + d, h.t2 + d, h.es3, h.t3);
    TickAdvances(Run(w2, d, h.es3), d, c, 2, h.t2 + d, b, h.t3);
    var w3 := Step(Run(w2, d, h.es3), d, Tick(Other(s), h.t3));
    RunStaysOnCourse(w3, d, c, 3, b, b, h.es4, 0);
    TickAdvances(Run(w3, d, h.es4), d, c, 3, b, b, h.t4);
    var w4 := Step(Run(w3, d, h.es4), d, Tick(Other(s), h.t4));
    RunStaysOnCourse(w4, d, c, 4, Max(b, h.t4 + d), Max(b, h.t4 + d), h.es5, 0);
  }

  /** From ends that agree, a change that lasts is mirrored: exactly one notification
      goes out, none comes back, and both ends are settled on the new value, unless
      the near end was still expecting an echo of exactly that value. */
  lemma ChangeIsMirrored(w: World, d: nat, s: Side, v: bool, h: Schedule)
    requires Settled(Get(w, s), !v) && Settled(Get(w, Other(s)), !v) && LongEnough(h, d)
    requires Get(w, s).echo != Some(v)
    ensures Mirrored(RunSchedule(Step(w, d, Flip(s)), d, s, h), Shift(s, v, Get(w, s).echo, Get(w, s).sent, Get(w, Other(s)).sent))
  {
    CourseIsRun(Step(w, d, Flip(s)), d, Shift(s, v, Get(w, s).echo, Get(w, s).sent, Get(w, Other(s)).sent), h);
  }

  /** The near end took its own change for the echo it was waiting for, or will. */
  predicate Mistaken(w: World, c: Shift, due: int) {
    var near, far := Get(w, c.s), Get(w, Other(c.s));
    && near.sent == c.nearSent && far.sent == c.farSent && Settled(far, !c.v)
    && ((Moving(near, c.v, due) && near.echo == Some(c.v)) || (Settled(near, c.v) && near.echo == None))
  }

  lemma TickStaysMistaken(w: World, d: nat, c: Shift, due: int, side: Side, now: int)
    requires Mistaken(w, c, due)
    ensures Mistaken(Step(w, d, Tick(side, now)), c, Max(due, now + d))
  {
  }

  lemma {:induction false} StaysMistaken(w: World, d: nat, c: Shift, due: int, es: seq<Event>) returns (later: int)
    requires Mistaken(w, c, due) && Ticks(es)
    ensures Mistaken(Run(w, d, es), c, later)
  {
    later := due;
    if es != [] {
      var e := es[|es| - 1];
      assert e in es && e.Tick?;
      hide Mistaken, Step;
      later := StaysMistaken(w, d, c, due, es[..|es| - 1]);
      TickStaysMistaken(Run(w, d, es[..|es| - 1]), d, c, later, e.side, e.now);
      later := Max(later, e.now + d);
    }
  }

  /** With a leftover expectation of v the change to v is never propagated, however
      long the run: the far end stays on the old value. */
  lemma LeftoverEchoLosesChange(w: World, d: nat, s: Side, v: bool, es: seq<Event>)
    requires Settled(Get(w, s), !v) && Settled(Get(w, Other(s)), !v) && Ticks(es)
    requires Get(w, s).echo == Some(v)
    ensures var r := Run(Step(w, d, Flip(s)), d, es);
      && Get(r, s).carrier == v && Get(r, Other(s)).carrier == !v
      && Get(r, s).sent == Get(w, s).sent && Get(r, Other(s)).sent == Get(w, Other(s)).sent
  {
    var c := Shift(s, v, Some(v), Get(w, s).sent, Get(w, Other(s)).sent);
    var later := StaysMistaken(Step(w, d, Flip(s)), d, c, 0, es);
  }

  lemma {:induction false} RunConcat(w: World, d: nat, es: seq<Event>, fs: seq<Event>)
    ensures Run(w, d, es + fs) == Run(Run(w, d, es), d, fs)
  {
    if fs == [] {
      assert es + fs == es;
    } else {
      assert (es + fs)[..|es + fs| - 1] == es + fs[..|fs| - 1];
      RunConcat(w, d, es, fs[..|fs| - 1]);
    }
  }

  function EventsOf(s: Side, h: Schedule): seq<Event> {
    h.es1 + [Tick(s, h.t1)] + h.es2 + [Tick(s, h.t2)] + h.es3 + [Tick(Other(s), h.t3)] + h.es4 + [Tick(Other(s), h.t4)] + h.es5
  }

  lemma RunThenTick(w: World, d: nat, es: seq<Event>, e: Event)
    ensures Run(w, d, es + [e]) == Step(Run(w, d, es), d, e)
  {
    assert (es + [e])[..|es|] == es;
  }

  lemma ScheduleIsRun(w: World, d: nat, s: Side, h: Schedule)
    ensures RunSchedule(w, d, s, h) == Run(w, d, EventsOf(s, h))
  {
    var a := h.es1 + [Tick(s, h.t1)];
    var b := a + h.es2 + [Tick(s, h.t2)];
    var c := b + h.es3 + [Tick(Other(s), h.t3)];
    RunThenTick(w, d, h.es1, Tick(s, h.t1));
    RunConcat(w, d, a, h.es2);
    RunThenTick(w, d, a + h.es2, Tick(s, h.t2));
    RunConcat(w, d, b, h.es3);
    RunThenTick(w, d, b + h.es3, Tick(Other(s), h.t3));
    RunConcat(w, d, c, h.es4);
    RunThenTick(w, d, c + h.es4, Tick(Other(s), h.t4));
    RunConcat(w, d, c + h.es4 + [Tick(Other(s), h.t4)], h.es5);
  }

  /** Exactly when a lasting change reaches the other end. */
  lemma MirroredIffNoLeftover(w: World, d: nat, s: Side, v: bool, h: Schedule)
    requires Settled(Get(w, s), !v) && Settled(Get(w, Other(s)), !v) && LongEnough(h, d)
    ensures Get(RunSchedule(Step(w, d, Flip(s)), d, s, h), Other(s)).carrier == v <==> Get(w, s).echo != Some(v)
  {
    if Get(w, s).echo == Some(v) {
      ScheduleIsRun(Step(w, d, Flip(s)), d, s, h);
      LeftoverEchoLosesChange(w, d, s, v, EventsOf(s, h));
    } else {
      ChangeIsMirrored(w, d, s, v, h);
    }
  }

  // ------------------------------------------------------------- restarts

  /** The near end has restarted at a value that the far end is settled on. Stage 0: it
      may not have sampled its interface yet; 1: it has; 2: it has told the far end. */
  predicate Rejoining(w: World, c: Shift, stage: nat, due: int) {
    var near, far := Get(w, c.s), Get(w, Other(c.s));
    && near.echo == None && far.sent == c.farSent && Settled(far, c.v)
    && (|| (near.sent == c.nearSent && stage == 0 && Moving(near, c.v, due))
        || (near.sent == c.nearSent && stage == 1 && Sampled(near, c.v, due))
        || (near.sent == c.nearSent + 1 && Settled(near, c.v) && far.echo == Some(c.v)))
  }

  lemma TickRejoins(w: World, d: nat, c: Shift, stage: nat, due: int, side: Side, now: int)
    requires Rejoining(w, c, stage, due)
    ensures Rejoining(Step(w, d, Tick(side, now)), c, stage, if stage == 0 then Max(due, now + d) else due)
    ensures side == c.s && stage == 0 ==> Rejoining(Step(w, d, Tick(side, now)), c, 1, Max(due, now + d))
    ensures side == c.s && stage == 1 && due <= now ==> Rejoining(Step(w, d, Tick(side, now)), c, 2, due)
  {
  }

  lemma {:induction false} TicksRejoin(w: World, d: nat, c: Shift, stage: nat, due: int, es: seq<Event>, t: int)
    requires Rejoining(w, c, stage, due) && Ticks(es)
    requires stage == 0 ==> TicksUpTo(es, t) && t + d <= due
    ensures Rejoining(Run(w, d, es), c, stage, due)
  {
    if es != [] {
      var e := es[|es| - 1];
      assert e in es && e.Tick?;
      TicksRejoin(w, d, c, stage, due, es[..|es| - 1], t);
      TickRejoins(Run(w, d, es[..|es| - 1]), d, c, stage, due, e.side, e.now);
    }
  }

  lemma RejoinsInRun(w0: World, d: nat, c: Shift, h: Schedule)
    requires Rejoining(w0, c, 0, h.t1 + d) && LongEnough(h, d)
    ensures Rejoining(RunSchedule(w0, d, c.s, h), c, 2, h.t1 + d)
  {
    var s, a := c.s, h.t1 + d;
    TicksRejoin(w0, d, c, 0, a, h.es1, h.t1);
    TickRejoins(Run(w0, d, h.es1), d, c, 0, a, s, h.t1);
    var w1 := Step(Run(w0, d, h.es1), d, Tick(s, h.t1));
    TicksRejoin(w1, d, c, 1, a, h.es2, h.t2);
    TickRejoins(Run(w1, d, h.es2), d, c, 1, a, s, h.t2);
    var w2 := Step(Run(w1, d, h.es2), d, Tick(s, h.t2));
    TicksRejoin(w2, d, c, 2, a, h.es3, h.t3);
    TickRejoins(Run(w2, d, h.es3), d, c, 2, a, Other(s), h.t3);
    var w3 := Step(Run(w2, d, h.es3), d, Tick(Other(s), h.t3));
    TicksRejoin(w3, d, c, 2, a, h.es4, h.t4);
    TickRejoins(Run(w3, d, h.es4), d, c, 2, a, Other(s), h.t4);
    TicksRejoin(Step(Run(w3, d, h.es4), d, Tick(Other(s), h.t4)), d, c, 2, a, h.es5, h.t4);
  }

  /** A restart, whatever the near end was in: the watch notifies the other end once, and
      the two ends agree. That leaves an expectation behind at the other end if and
      only if they agreed before, because an interface that does not change has no edge. */
  lemma RestartSettles(w: World, d: nat, s: Side, v: bool, u: bool, h: Schedule)
    requires Get(w, s).carrier == v && Settled(Get(w, Other(s)), u) && LongEnough(h, d)
    ensures var r := RunSchedule(Step(w, d, Restart(s)), d, s, h);
      && Settled(Get(r, s), v) && Get(r, s).echo == None && Get(r, s).sent == Get(w, s).sent + 1
      && Settled(Get(r, Other(s)), v) && Get(r, Other(s)).echo == (if u == v then Some(v) else None)
      && Get(r, Other(s)).sent == Get(w, Other(s)).sent
  {
    var c := Shift(s, v, None, Get(w, s).sent, Get(w, Other(s)).sent);
    if u == v {
      RejoinsInRun(Step(w, d, Restart(s)), d, c, h);
    } else {
      CourseIsRun(Step(w, d, Restart(s)), d, c, h);
    }
  }

  /** What the re-assertion is for: two settled ends that disagree, because a change was
      swallowed, agree again on the value of the end that restarted; the other end takes
      the change for the echo it expects and does not answer. */
  lemma ReassertionSettles(w: World, d: nat, s: Side, v: bool, h: Schedule)
    requires Settled(Get(w, s), v) && Settled(Get(w, Other(s)), !v) && Get(w, s).echo == None && LongEnough(h, d)
    ensures var r := RunSchedule(Step(w, d, Reassert(s)), d, s, h);
      && Settled(Get(r, s), v) && Settled(Get(r, Other(s)), v) && Get(r, Other(s)).echo == None
      && Get(r, s).sent == Get(w, s).sent + 1 && Get(r, Other(s)).sent == Get(w, Other(s)).sent
  {
    var c := Shift(s, v, None, Get(w, s).sent, Get(w, Other(s)).sent);
    var w0, b := Step(w, d, Reassert(s)), h.t3 + d;
    RunStaysOnCourse(w0, d, c, 2, b, b, h.es1, h.t1);
    TickStaysOnCourse(Run(w0, d, h.es1), d, c, 2, b, b, s, h.t1);
    var w1 := Step(Run(w0, d, h.es1), d, Tick(s, h.t1));
    RunStaysOnCourse(w1, d, c, 2, b, b, h.es2, h.t2);
    TickStaysOnCourse(Run(w1, d, h.es2), d, c, 2, b, b, s, h.t2);
    var w2 := Step(Run(w1, d, h.es2), d, Tick(s, h.t2));
    RunStaysOnCourse(w2, d, c, 2, b, b, h.es3, h.t3);
    TickAdvances(Run(w2, d, h.es3), d, c, 2, b, b, h.t3);
    var w3 := Step(Run(w2, d, h.es3), d, Tick(Other(s), h.t3));
    RunStaysOnCourse(w3, d, c, 3, b, b, h.es4, 0);
    TickAdvances(Run(w3, d, h.es4), d, c, 3, b, b, h.t4);
    var w4 := Step(Run(w3, d, h.es4), d, Tick(Other(s), h.t4));
    RunStaysOnCourse(w4, d, c, 4, Max(b, h.t4 + d), Max(b, h.t4 + d), h.es5, 0);
  }

  /** The other end goes from v to !v and back, and each change lasts. */
  function Flap(w: World, d: nat, o: Side, h1: Schedule, h2: Schedule): World {
    RunSchedule(Step(RunSchedule(Step(w, d, Flip(o)), d, o, h1), d, Flip(o)), d, o, h2)
  }

  /** After a restart, and its re-assertion if there was one, the ends agree; then the
      other end changes and changes back. The change back reaches the restarted
      end if and only if the ends disagreed before the restart and nothing was
      re-asserted; otherwise the expectation left behind swallows it. */
  lemma FlapAfterRestartArrivesIff(w: World, d: nat, s: Side, v: bool, u: bool, h: Schedule, again: bool, h1: Schedule, h2: Schedule)
    requires Get(w, s).carrier == v && Settled(Get(w, Other(s)), u)
    requires LongEnough(h, d) && LongEnough(h1, d) && LongEnough(h2, d)
    ensures var r := RunSchedule(Step(w, d, Restart(s)), d, s, h);
      var r' := if again then Step(r, d, Reassert(s)) else r;
      var z := Flap(r', d, Other(s), h1, h2);
      Get(z, Other(s)).carrier == v && (Get(z, s).carrier == v <==> u != v && !again)
  {
    var o := Other(s);
    RestartSettles(w, d, s, v, u, h);
    var r := RunSchedule(Step(w, d, Restart(s)), d, s, h);
    var r' := if again then Step(r, d, Reassert(s)) else r;
    assert Other(o) == s && Settled(Get(r', s), v) && Settled(Get(r', o), v);
    ChangeIsMirrored(r', d, o, !v, h1);
    var down := RunSchedule(Step(r', d, Flip(o)), d, o, h1);
    MirroredIffNoLeftover(down, d, o, v, h2);
    if Get(down, o).echo == Some(v) {
      ScheduleIsRun(Step(down, d, Flip(o)), d, o, h2);
      LeftoverEchoLosesChange(down, d, o, v, EventsOf(o, h2));
    } else {
      ChangeIsMirrored(down, d, o, v, h2);
    }
  }
}
