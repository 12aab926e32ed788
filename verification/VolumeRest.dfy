/** Exactly when a set that is left alone comes to rest. */
module VolumeRest {
  import opened VolumeControl
  import opened VolumeClient
  import opened VolumeSync
  import opened VolumeTermination
  import opened VolumeChase

  ghost predicate Reachable(s: Sys) {
    exists start, steps :: Init(start) && Run(start, steps, s)
  }

  function Connected(s: Sys): set<nat> {
    set i: nat | i < |s.clcbs| && s.clcbs[i].used
  }

  predicate Within(members: set<nat>, n: nat) {
    forall i :: i in members ==> i < n
  }

  // ---- A run into the chase ----

  const QUIET := VolumeState(Setting(0, false), 0)
  const FIVE := VolumeState(Setting(5, false), 1)
  const SEVEN := VolumeState(Setting(7, false), 1)
  const OUT := Clcb(false, false, QUIET, [])
  const IDLE := Clcb(true, false, QUIET, [])
  const BEFORE := Server(QUIET, 1, [])
  const TO_FIVE := Command(SetAbsoluteVolume, 0, 5)
  const TO_SEVEN := Command(SetAbsoluteVolume, 1, 7)

  function Joined(n: nat, members: set<nat>, k: nat): Sys {
    Sys(seq(n, i => if i < k && i in members then IDLE else OUT), seq(n, _ => BEFORE), QUIET.setting, false)
  }

  lemma {:induction false} MembersJoin(n: nat, members: set<nat>, k: nat) returns (steps: seq<Step>)
    requires k <= n
    ensures Run(Joined(n, members, 0), steps, Joined(n, members, k))
  {
    if k == 0 {
      return [];
    }
    var before, s := Joined(n, members, k - 1), Joined(n, members, k);
    steps := MembersJoin(n, members, k - 1);
    if k - 1 in members {
      var step := Join(k - 1);
      assert Next(before, step).clcbs == s.clcbs && Next(before, step).servers == s.servers;
      RunExtends(Joined(n, members, 0), steps, before, step);
      steps := steps + [step];
    } else {
      assert before.clcbs == s.clcbs;
    }
  }

  /** `a` and `b` as given, every other member as `c` and `r`. */
  ghost predicate Looks(s: Sys, n: nat, members: set<nat>, a: nat, ca: Clcb, ra: Server,
                        b: nat, cb: Clcb, rb: Server, c: Clcb)
  {
    && |s.clcbs| == |s.servers| == n && a < n && b < n && a != b && a in members && b in members
    && s.clcbs[a] == ca && s.servers[a] == ra
    && s.clcbs[b] == cb && s.servers[b] == rb
    && forall i: nat :: i < n && i != a && i != b ==>
         if i in members then s.clcbs[i] == c && s.servers[i] == BEFORE else s.clcbs[i] == OUT
  }

  /** Two members are turned to different volumes at the same time. */
  lemma TwoAreTurned(s: Sys, n: nat, members: set<nat>, a: nat, b: nat) returns (steps: seq<Step>, t: Sys)
    requires Looks(s, n, members, a, IDLE, BEFORE, b, IDLE, BEFORE, IDLE)
    ensures Run(s, steps, t)
    ensures Looks(t, n, members, a, IDLE, Server(FIVE, 1, [FIVE]), b, IDLE, Server(SEVEN, 1, [SEVEN]), IDLE)
  {
    var one, two := LocalChange(a, FIVE.setting), LocalChange(b, SEVEN.setting);
    assert [] + [FIVE] == [FIVE] && [] + [SEVEN] == [SEVEN];
    var m := Next(s, one);
    RunExtends(s, [], s, one);
    RunExtends(s, [] + [one], m, two);
    steps, t := [] + [one] + [two], Next(m, two);
  }

  lemma FiveIsHeard(s: Sys, n: nat, members: set<nat>, a: nat, b: nat)
    requires Looks(s, n, members, a, IDLE, Server(FIVE, 1, [FIVE]), b, IDLE, Server(SEVEN, 1, [SEVEN]), IDLE)
    ensures Enabled(s, DeliverNotification(a))
    ensures var asked := Clcb(true, true, QUIET, [TO_FIVE]);
            Looks(Next(s, DeliverNotification(a)), n, members, a, Clcb(true, false, FIVE, []), Server(FIVE, 1, []),
                  b, asked, Server(SEVEN, 1, [SEVEN]), asked)
  {
    assert [FIVE][1..] == [] && [] + [TO_FIVE] == [TO_FIVE];
  }

  lemma SevenIsHeard(s: Sys, n: nat, members: set<nat>, a: nat, b: nat)
    requires var asked := Clcb(true, true, QUIET, [TO_FIVE]);
             Looks(s, n, members, a, Clcb(true, false, FIVE, []), Server(FIVE, 1, []),
                   b, asked, Server(SEVEN, 1, [SEVEN]), asked)
    ensures Enabled(s, DeliverNotification(b))
    ensures Looks(Next(s, DeliverNotification(b)), n, members,
                  a, Clcb(true, true, FIVE, [TO_SEVEN]), Server(FIVE, 1, []),
                  b, Clcb(true, false, SEVEN, [TO_FIVE]), Server(SEVEN, 1, []), Clcb(true, true, QUIET, [TO_FIVE]))
  {
    assert [SEVEN][1..] == [] && [] + [TO_SEVEN] == [TO_SEVEN];
  }

  lemma StaleIsDropped(s: Sys, n: nat, members: set<nat>, a: nat, b: nat)
    requires Looks(s, n, members, a, Clcb(true, true, FIVE, [TO_SEVEN]), Server(FIVE, 1, []),
                   b, Clcb(true, false, SEVEN, [TO_FIVE]), Server(SEVEN, 1, []), Clcb(true, true, QUIET, [TO_FIVE]))
    ensures Enabled(s, DeliverCommand(b))
    ensures Looks(Next(s, DeliverCommand(b)), n, members,
                  a, Clcb(true, true, FIVE, [TO_SEVEN]), Server(FIVE, 1, []),
                  b, Clcb(true, false, SEVEN, []), Server(SEVEN, 1, []), Clcb(true, true, QUIET, [TO_FIVE]))
  {
    assert [TO_FIVE][1..] == [];
  }

  lemma LooksLikeChase(s: Sys, n: nat, members: set<nat>, a: nat, b: nat, c: nat)
    requires Looks(s, n, members, a, Clcb(true, true, FIVE, [TO_SEVEN]), Server(FIVE, 1, []),
                   b, Clcb(true, false, SEVEN, []), Server(SEVEN, 1, []), Clcb(true, true, QUIET, [TO_FIVE]))
    requires c in members && c < n && c != a && c != b && Within(members, n)
    ensures Chase(s, c, a, b, 5, 7) && AllFresh(s) && Connected(s) == members && |s.clcbs| == n
  {
    assert IdleAt(s, b) && AskedAt(s, a, 7) && AskedAt(s, c, 5);
    forall i: nat | Used(s, i)
      ensures IdleAt(s, i) || AskedAt(s, i, 5) || AskedAt(s, i, 7)
    {
      assert i != a && i != b ==> i in members;
    }
    forall i: nat
      ensures i in members <==> Used(s, i)
    {
    }
  }

  lemma BothAreHeard(s: Sys, n: nat, members: set<nat>, a: nat, b: nat, c: nat) returns (steps: seq<Step>, t: Sys)
    requires Looks(s, n, members, a, IDLE, Server(FIVE, 1, [FIVE]), b, IDLE, Server(SEVEN, 1, [SEVEN]), IDLE)
    requires c in members && c < n && c != a && c != b && Within(members, n)
    ensures Run(s, steps, t) && Chase(t, c, a, b, 5, 7) && AllFresh(t) && Connected(t) == members && |t.clcbs| == n
  {
    FiveIsHeard(s, n, members, a, b);
    var s1 := Next(s, DeliverNotification(a));
    SevenIsHeard(s1, n, members, a, b);
    var s2 := Next(s1, DeliverNotification(b));
    StaleIsDropped(s2, n, members, a, b);
    t := Next(s2, DeliverCommand(b));
    LooksLikeChase(t, n, members, a, b, c);
    RunExtends(s, [], s, DeliverNotification(a));
    RunExtends(s, [] + [DeliverNotification(a)], s1, DeliverNotification(b));
    RunExtends(s, [] + [DeliverNotification(a)] + [DeliverNotification(b)], s2, DeliverCommand(b));
    steps := [] + [DeliverNotification(a)] + [DeliverNotification(b)] + [DeliverCommand(b)];
  }

  /** A run of the protocol gets into the chase, whatever members are connected, if they are at
      least three. */
  lemma ChaseIsReachable(n: nat, members: set<nat>, a: nat, b: nat, c: nat) returns (t: Sys)
    requires Within(members, n) && a in members && b in members && c in members
    requires a != b && b != c && a != c
    ensures Reachable(t) && Chase(t, c, a, b, 5, 7) && AllFresh(t) && Connected(t) == members && |t.clcbs| == n
  {
    var start, joined := Joined(n, members, 0), Joined(n, members, n);
    var first := MembersJoin(n, members, n);
    var second, turned := TwoAreTurned(joined, n, members, a, b);
    var third;
    third, t := BothAreHeard(turned, n, members, a, b, c);
    RunsCompose(start, first, joined, second, turned);
    RunsCompose(start, first + second, turned, third, t);
    assert Init(start);
  }

  // ---- The chase as an infinite execution ----

  /** A state of the chase with what is left of the round. */
  datatype Conf = Conf(s: Sys, todo: seq<Step>, p: nat, q: nat, r: nat)

  ghost predicate Steady(c: Conf, x: Volume, y: Volume) {
    Deliveries(c.todo) && exists t :: Run(c.s, c.todo, t) && Chase(t, c.p, c.q, c.r, x, y)
  }

  ghost predicate LeadsOn(s: Sys, steps: seq<Step>, p: nat, q: nat, r: nat, x: Volume, y: Volume) {
    exists t :: IsRound(s, steps, t) && Chase(t, p, q, r, x, y)
  }

  lemma RoundExists(s: Sys, p: nat, q: nat, r: nat, x: Volume, y: Volume)
    requires Chase(s, p, q, r, x, y)
    ensures exists steps :: LeadsOn(s, steps, r, p, q, x, y)
  {
    var steps, t := ChaseGoesOn(s, p, q, r, x, y);
    assert LeadsOn(s, steps, r, p, q, x, y);
  }

  /** Starts a new round when the last one is over. */
  ghost function Reloaded(c: Conf, x: Volume, y: Volume): (d: Conf)
    requires Steady(c, x, y)
    ensures Steady(d, x, y) && d.todo != [] && d.s == c.s
    ensures c.todo != [] ==> d == c
    ensures c.todo == [] ==> ServesAll(c.s, d.todo)
  {
    if c.todo != [] then c
    else
      RoundExists(c.s, c.p, c.q, c.r, x, y);
      var steps :| LeadsOn(c.s, steps, c.r, c.p, c.q, x, y);
      Conf(c.s, steps, c.r, c.p, c.q)
  }

  /** One delivery of the chase. */
  ghost function Tick(c: Conf, x: Volume, y: Volume): Conf {
    if Steady(c, x, y) then
      var now := Reloaded(c, x, y);
      Conf(Next(now.s, now.todo[0]), now.todo[1..], now.p, now.q, now.r)
    else c
  }

  lemma TickIsSteady(c: Conf, x: Volume, y: Volume)
    requires Steady(c, x, y)
    ensures Steady(Tick(c, x, y), x, y)
    ensures var now := Reloaded(c, x, y);
            && Enabled(c.s, now.todo[0]) && IsDelivery(now.todo[0])
            && Tick(c, x, y).s == Next(c.s, now.todo[0]) && Tick(c, x, y).todo == now.todo[1..]
  {
  }

  ghost predicate Ticks(f: Conf -> Conf, x: Volume, y: Volume) {
    forall c :: f(c) == Tick(c, x, y)
  }

  function After(f: Conf -> Conf, c: Conf, k: nat): Conf {
    if k == 0 then c else f(After(f, c, k - 1))
  }

  lemma {:induction false} AfterTick(f: Conf -> Conf, c: Conf, k: nat)
    ensures After(f, f(c), k) == After(f, c, k + 1)
  {
    if k > 0 {
      AfterTick(f, c, k - 1);
    }
  }

  lemma {:induction false} AfterAfter(f: Conf -> Conf, c: Conf, k: nat, m: nat)
    ensures After(f, After(f, c, k), m) == After(f, c, k + m)
  {
    if m > 0 {
      AfterAfter(f, c, k, m - 1);
    }
  }

  lemma {:induction false} AfterIsSteady(f: Conf -> Conf, c: Conf, x: Volume, y: Volume, k: nat)
    requires Ticks(f, x, y) && Steady(c, x, y)
    ensures Steady(After(f, c, k), x, y)
  {
    if k > 0 {
      AfterIsSteady(f, c, x, y, k - 1);
      NextIsSteady(f, After(f, c, k - 1), x, y);
    }
  }

  lemma NextIsSteady(f: Conf -> Conf, c: Conf, x: Volume, y: Volume)
    requires Ticks(f, x, y) && Steady(c, x, y)
    ensures Steady(f(c), x, y)
  {
    TickIsSteady(c, x, y);
  }

  lemma SteadyIsNotQuiescent(c: Conf, x: Volume, y: Volume)
    requires Steady(c, x, y)
    ensures !Quiescent(c.s) && Moves(c.s, Tick(c, x, y).s)
  {
    TickIsSteady(c, x, y);
  }

  // ---- It is fair ----

  /** A delivery that could be made: the oldest write or the oldest notification of a member. */
  predicate Pending(s: Sys, step: Step) {
    IsDelivery(step) && Enabled(s, step)
  }

  predicate Taken(s: Sys, t: Sys, step: Step) {
    Enabled(s, step) && t == Next(s, step)
  }

  /** No delivery that can be made is passed over forever. */
  ghost predicate Fair(run: nat -> Sys) {
    forall step, k: nat :: Pending(run(k), step) ==> TakenFrom(run, k, step)
  }

  ghost predicate TakenFrom(run: nat -> Sys, k: nat, step: Step) {
    exists m: nat :: m >= k && Taken(run(m), run(m + 1), step)
  }

  ghost predicate TakenAfter(f: Conf -> Conf, c: Conf, m: nat, step: Step) {
    Taken(After(f, c, m).s, After(f, c, m + 1).s, step)
  }

  lemma TakenLater(f: Conf -> Conf, c: Conf, m: nat, step: Step)
    requires TakenAfter(f, f(c), m, step)
    ensures TakenAfter(f, c, m + 1, step)
  {
    AfterTick(f, c, m);
    AfterTick(f, c, m + 1);
  }

  /** The delivery at place `j` of the round. */
  ghost predicate WillTake(c: Conf, x: Volume, y: Volume, j: nat, step: Step) {
    Steady(c, x, y) && j < |Reloaded(c, x, y).todo| && Reloaded(c, x, y).todo[j] == step
  }

  lemma FirstIsTaken(f: Conf -> Conf, c: Conf, x: Volume, y: Volume, step: Step)
    requires Ticks(f, x, y) && WillTake(c, x, y, 0, step)
    ensures TakenAfter(f, c, 0, step)
  {
    TickIsSteady(c, x, y);
    assert After(f, c, 1) == f(After(f, c, 0)) == Tick(c, x, y);
  }

  lemma OneNearer(f: Conf -> Conf, c: Conf, x: Volume, y: Volume, j: nat, step: Step)
    requires Ticks(f, x, y) && j > 0 && WillTake(c, x, y, j, step)
    ensures WillTake(f(c), x, y, j - 1, step)
  {
    TickIsSteady(c, x, y);
    assert f(c).todo[j - 1] == Reloaded(c, x, y).todo[j];
  }

  lemma {:induction false} IsTaken(f: Conf -> Conf, c: Conf, x: Volume, y: Volume, j: nat, step: Step) returns (m: nat)
    requires Ticks(f, x, y) && WillTake(c, x, y, j, step)
    ensures TakenAfter(f, c, m, step)
    decreases j
  {
    if j == 0 {
      FirstIsTaken(f, c, x, y, step);
      return 0;
    }
    OneNearer(f, c, x, y, j, step);
    m := IsTaken(f, f(c), x, y, j - 1, step);
    TakenLater(f, c, m, step);
    m := m + 1;
  }

  lemma StaysPending(s: Sys, step: Step, other: Step)
    requires Sized(s) && Pending(s, step) && Pending(s, other) && step != other
    ensures Pending(Next(s, other), step)
  {
  }

  lemma ChaseHasOnlyWrites(s: Sys, p: nat, q: nat, r: nat, x: Volume, y: Volume, step: Step)
    requires Chase(s, p, q, r, x, y) && Pending(s, step)
    ensures step.DeliverCommand?
  {
    assert Used(s, step.i) && !ToldAt(s, step.i, x) && !ToldAt(s, step.i, y);
  }

  /** A new round makes every delivery that is pending. */
  lemma NewRoundTakes(f: Conf -> Conf, c: Conf, x: Volume, y: Volume, step: Step) returns (m: nat)
    requires Ticks(f, x, y) && Steady(c, x, y) && c.todo == [] && Pending(c.s, step)
    ensures TakenAfter(f, c, m, step)
  {
    var d := Reloaded(c, x, y);
    ChaseHasOnlyWrites(c.s, c.p, c.q, c.r, x, y, step);
    var j: nat :| j < |d.todo| && d.todo[j] == DeliverCommand(step.i);
    m := IsTaken(f, c, x, y, j, step);
  }

  lemma {:induction false} PendingIsTaken(f: Conf -> Conf, c: Conf, x: Volume, y: Volume, step: Step) returns (m: nat)
    requires Ticks(f, x, y) && Steady(c, x, y) && Pending(c.s, step)
    ensures TakenAfter(f, c, m, step)
    decreases |c.todo|
  {
    if c.todo == [] {
      m := NewRoundTakes(f, c, x, y, step);
    } else if c.todo[0] == step {
      FirstIsTaken(f, c, x, y, step);
      m := 0;
    } else {
      TickIsSteady(c, x, y);
      StaysPending(c.s, step, c.todo[0]);
      m := PendingIsTaken(f, f(c), x, y, step);
      TakenLater(f, c, m, step);
      m := m + 1;
    }
  }

  lemma SteadyRunIsFair(f: Conf -> Conf, c: Conf, x: Volume, y: Volume, run: nat -> Sys)
    requires Ticks(f, x, y) && Steady(c, x, y) && forall k: nat :: run(k) == After(f, c, k).s
    ensures Fair(run)
  {
    forall step, k: nat | Pending(run(k), step)
      ensures TakenFrom(run, k, step)
    {
      AfterIsSteady(f, c, x, y, k);
      var m := PendingIsTaken(f, After(f, c, k), x, y, step);
      AfterAfter(f, c, k, m);
      AfterAfter(f, c, k, m + 1);
      assert Taken(run(k + m), run(k + m + 1), step);
    }
  }

  /** An execution that never comes to rest although no message in flight is passed over forever
      and nobody asks for anything. */
  lemma ChaseNeverEnds(s: Sys, p: nat, q: nat, r: nat, x: Volume, y: Volume) returns (run: nat -> Sys)
    requires Chase(s, p, q, r, x, y)
    ensures run(0) == s && Delivering(run) && Fair(run)
    ensures forall k: nat :: !Quiescent(run(k))
  {
    var c := Conf(s, [], p, q, r);
    assert Run(s, [], s);
    var f: Conf -> Conf := d => Tick(d, x, y);
    run := (k: nat) => After(f, c, k).s;
    SteadyRunIsFair(f, c, x, y, run);
    forall k: nat
      ensures !Quiescent(run(k)) && Moves(run(k), run(k + 1))
    {
      AfterIsSteady(f, c, x, y, k);
      SteadyIsNotQuiescent(After(f, c, k), x, y);
    }
  }

  // ---- The exact condition ----

  ghost predicate ComesToRest(run: nat -> Sys) {
    exists k: nat :: Quiescent(run(k))
  }

  /** An execution of a set of `n` with these members connected, from a state that the protocol
      can be in and with fewer than 256 outstanding changes, in which nobody asks for anything
      and no message in flight is passed over forever. */
  ghost predicate LeftAlone(run: nat -> Sys, n: nat, members: set<nat>) {
    && Reachable(run(0)) && AllFresh(run(0)) && |run(0).clcbs| == n && Connected(run(0)) == members
    && Delivering(run) && Fair(run)
  }

  lemma AtMostTwo(s: Sys) returns (a: nat, b: nat)
    requires |Connected(s)| <= 2
    ensures OnlyConnected(s, a, b)
  {
    var members := Connected(s);
    a := if members == {} then 0 else var i :| i in members; i;
    var others := members - {a};
    b := if others == {} then a + 1 else var i :| i in others; i;
    assert |others - {b}| == 0 ==> others - {b} == {};
    forall i: nat | Used(s, i)
      ensures i == a || i == b
    {
      assert i in members;
    }
  }

  lemma AtLeastThree(members: set<nat>) returns (a: nat, b: nat, c: nat)
    requires |members| >= 3
    ensures a in members && b in members && c in members && a != b && b != c && a != c
  {
    a :| a in members;
    var others := members - {a};
    assert |others| == |members| - 1;
    b :| b in others;
    assert |others - {b}| == |others| - 1;
    c :| c in others - {b};
  }

  lemma FewComeToRest(run: nat -> Sys)
    requires Reachable(run(0)) && AllFresh(run(0)) && |Connected(run(0))| <= 2 && Delivering(run)
    ensures ComesToRest(run)
  {
    var start, steps :| Init(start) && Run(start, steps, run(0));
    RunPreservesInv(start, steps, run(0));
    var a, b := AtMostTwo(run(0));
    PairComesToRest(run, a, b);
  }

  lemma ManyNeedNot(n: nat, members: set<nat>) returns (run: nat -> Sys)
    requires Within(members, n) && |members| >= 3
    ensures LeftAlone(run, n, members) && !ComesToRest(run)
  {
    var a, b, c := AtLeastThree(members);
    var s := ChaseIsReachable(n, members, a, b, c);
    run := ChaseNeverEnds(s, c, a, b, 5, 7);
  }

  /** A set that is left alone is sure to come to rest if and only if at most two members are
      connected, for every size of the set. */
  lemma RestIffAtMostTwo(n: nat, members: set<nat>)
    requires Within(members, n)
    ensures (forall run: nat -> Sys :: LeftAlone(run, n, members) ==> ComesToRest(run)) <==> |members| <= 2
  {
    if |members| <= 2 {
      forall run: nat -> Sys | LeftAlone(run, n, members)
        ensures ComesToRest(run)
      {
        FewComeToRest(run);
      }
    } else {
      var run := ManyNeedNot(n, members);
      assert LeftAlone(run, n, members) && !ComesToRest(run);
    }
  }
}
