/** Volume synchronisation of a set with at most two connected members comes to rest, and
    where. The set is left alone: only messages in flight are delivered. */
module VolumeTermination {
  import opened VolumeControl
  import opened VolumeClient
  import opened VolumeSync

  /** No member but `a` and `b` is connected; the array of members may be of any size. */
  ghost predicate OnlyConnected(s: Sys, a: nat, b: nat) {
    a != b && forall i: nat :: Used(s, i) ==> i == a || i == b
  }

  predicate IsDelivery(step: Step) {
    step.DeliverCommand? || step.DeliverNotification?
  }

  // ---- Fewer than 256 outstanding changes ----

  predicate IsLive(w: Command, r: Server) {
    w.changes == r.state.changes
  }

  /** The oldest count that a write in flight carries, or a new one would carry. */
  function OldestCount(c: Clcb): nat {
    if c.outbox == [] then c.cache.changes else c.outbox[0].changes
  }

  /** Fewer than 256 changes are outstanding: no write in flight is so old that the wrapped
      counter could mistake it for a fresh one. */
  predicate Fresh(c: Clcb, r: Server) {
    r.state.changes - OldestCount(c) < COUNTER_MODULUS
  }

  ghost predicate AllFresh(s: Sys) {
    forall i: nat :: Used(s, i) && i < |s.servers| ==> Fresh(s.clcbs[i], s.servers[i])
  }

  /** With fewer than 256 outstanding changes the wrapped comparison is exact. */
  lemma WireComparisonIsExact(w: Command, v: VolumeState)
    requires 0 <= v.changes - w.changes < COUNTER_MODULUS
    ensures CounterMatches(w, v) <==> w.changes == v.changes
  {
  }

  lemma HeadIsAcceptedIffLive(c: Clcb, r: Server)
    requires c.outbox != [] && Fresh(c, r) && Linked(c, r) && WritesAreGated(c)
    ensures Accepted(c.outbox[0], r.state, r.step) <==> IsLive(c.outbox[0], r)
  {
    var w := c.outbox[0];
    WireComparisonIsExact(w, r.state);
    GateIsExact(w.opcode, r.state.setting, w.volume, r.step);
  }

  lemma CommandKeepsFresh(c: Clcb, r: Server)
    requires c.outbox != [] && Fresh(c, r) && Linked(c, r) && WritesAreGated(c) && WritesAreOrdered(c)
    ensures Fresh(c.(outbox := c.outbox[1..]), AfterWrite(r, c.outbox[0]))
  {
    HeadIsAcceptedIffLive(c, r);
    var d := c.(outbox := c.outbox[1..]);
    assert d.outbox != [] ==> d.outbox[0] == c.outbox[1];
  }

  lemma SyncKeepsFresh(c: Clcb, r: Server, target: Setting)
    requires Fresh(c, r)
    ensures Fresh(Synced(c, target), r)
  {
  }

  lemma DeliveryKeepsFresh(s: Sys, step: Step)
    requires Inv(s) && AllFresh(s) && IsDelivery(step) && Enabled(s, step)
    ensures AllFresh(Next(s, step))
  {
    var t := Next(s, step);
    forall m: nat | Used(t, m) && m < |t.servers|
      ensures Fresh(t.clcbs[m], t.servers[m])
    {
      var c, r := s.clcbs[m], s.servers[m];
      assert Used(s, m) && MemberInv(c, r, s.setState, s.synced) && Fresh(c, r);
      if step == DeliverCommand(m) {
        CommandKeepsFresh(c, r);
      } else if step.DeliverNotification? && step.i != m {
        SyncKeepsFresh(c, r, t.setState);
      }
    }
  }

  lemma DeliveryKeepsUsed(s: Sys, step: Step, i: nat)
    requires IsDelivery(step) && Enabled(s, step)
    ensures Used(Next(s, step), i) <==> Used(s, i)
  {
  }

  lemma DeliveryKeepsConnected(s: Sys, step: Step, a: nat, b: nat)
    requires OnlyConnected(s, a, b) && IsDelivery(step) && Enabled(s, step)
    ensures OnlyConnected(Next(s, step), a, b)
  {
    forall i: nat | Used(Next(s, step), i)
      ensures i == a || i == b
    {
      DeliveryKeepsUsed(s, step, i);
    }
  }

  // ---- What matters about a member ----

  /** The effects still to come from a member: its notifications in flight, or the one write
      that will be accepted. Every other write in flight is dead. */
  function Tokens(c: Clcb, r: Server): nat {
    if r.notifs != [] then |r.notifs| else if c.waiting then 1 else 0
  }

  /** The member's setting once its outbox is empty. */
  function Outcome(outbox: seq<Command>, r: Server): Setting {
    if outbox == [] then r.state.setting
    else if IsLive(outbox[0], r) then Applied(outbox[0].opcode, r.state.setting, outbox[0].volume, r.step)
    else Outcome(outbox[1..], r)
  }

  /** One member: the effects to come from it, where it is heading, what the controller has
      cached of it, and the writes in flight to it. */
  datatype Side =
    | Absent
    | Present(tokens: nat, heading: Setting, cached: Setting, writes: nat)

  function SideOf(s: Sys, i: nat): Side {
    if Used(s, i) && i < |s.servers| then
      var c, r := s.clcbs[i], s.servers[i];
      Present(Tokens(c, r), Outcome(c.outbox, r), c.cache.setting, |c.outbox|)
    else Absent
  }

  lemma {:induction false} DeadOutcome(outbox: seq<Command>, r: Server)
    requires forall k :: 0 <= k < |outbox| ==> !IsLive(outbox[k], r)
    ensures Outcome(outbox, r) == r.state.setting
  {
    if outbox != [] {
      DeadOutcome(outbox[1..], r);
    }
  }

  lemma {:induction false} OutcomeOfAppended(outbox: seq<Command>, w: Command, r: Server)
    requires forall k :: 0 <= k < |outbox| ==> !IsLive(outbox[k], r)
    requires IsLive(w, r)
    ensures Outcome(outbox + [w], r) == Applied(w.opcode, r.state.setting, w.volume, r.step)
  {
    if outbox != [] {
      assert (outbox + [w])[1..] == outbox[1..] + [w];
      OutcomeOfAppended(outbox[1..], w, r);
    }
  }

  /** Delivering a write consumes it without changing what its member is heading for. */
  lemma CommandKeepsHeading(c: Clcb, r: Server, s: Setting, synced: bool)
    requires c.used && c.outbox != [] && MemberInv(c, r, s, synced) && Fresh(c, r)
    ensures var d, q := c.(outbox := c.outbox[1..]), AfterWrite(r, c.outbox[0]);
            Tokens(d, q) == Tokens(c, r) && Outcome(d.outbox, q) == Outcome(c.outbox, r)
  {
    HeadIsAcceptedIffLive(c, r);
    var d, q := c.(outbox := c.outbox[1..]), AfterWrite(r, c.outbox[0]);
    assert forall k :: 0 <= k < |d.outbox| ==> d.outbox[k] == c.outbox[k + 1];
    if IsLive(c.outbox[0], r) {
      DeadOutcome(d.outbox, q);
    }
  }

  lemma CommandStep(s: Sys, i: nat)
    requires Inv(s) && AllFresh(s) && Enabled(s, DeliverCommand(i))
    ensures var d, t := SideOf(s, i), Next(s, DeliverCommand(i));
            d.Present? && d.writes > 0 && SideOf(t, i) == d.(writes := d.writes - 1)
    ensures forall j: nat :: j != i ==> SideOf(Next(s, DeliverCommand(i)), j) == SideOf(s, j)
  {
    assert MemberInv(s.clcbs[i], s.servers[i], s.setState, s.synced) && Fresh(s.clcbs[i], s.servers[i]);
    CommandKeepsHeading(s.clcbs[i], s.servers[i], s.setState, s.synced);
  }

  /** How many more members a setting has to travel to. */
  function Distance(from: Setting, to: Setting): nat {
    if from.muted != to.muted then 2 else if from.volume != to.volume then 1 else 0
  }

  /** The one's mute state, and its volume too if the mute states already agree. */
  function Met(from: Setting, to: Setting): Setting {
    if from.muted == to.muted then from else Setting(to.volume, from.muted)
  }

  /** A write that starts a fresh token takes the setting one member closer. */
  lemma TransferShortens(c: Clcb, r: Server, target: Setting)
    requires c.used && Linked(c, r) && WritesAreGated(c) && r.notifs == [] && !c.waiting
    ensures var d := Synced(c, target);
            && Tokens(d, r) == (if c.cache.setting == target then 0 else 1)
            && (d.waiting ==> Distance(Outcome(d.outbox, r), target) < Distance(target, c.cache.setting))
            && Outcome(d.outbox, r) == Met(target, c.cache.setting)
  {
    var d := Synced(c, target);
    if c.cache.setting == target {
      DeadOutcome(d.outbox, r);
    } else if c.cache.setting.muted != target.muted {
      OutcomeOfAppended(c.outbox, Command(MuteOpcode(target.muted), c.cache.changes, 0), r);
    } else {
      OutcomeOfAppended(c.outbox, Command(SetAbsoluteVolume, c.cache.changes, target.volume), r);
    }
  }

  /** What a notification of `v` does to its sender. */
  predicate Heard(d: Side, d': Side, v: Setting) {
    && d.Present? && d'.Present? && d.tokens > 0
    && d'.tokens == d.tokens - 1 && d'.cached == v
    && (d.tokens == 1 ==> d.heading == v && d'.heading == v)
  }

  /** And to another member. */
  predicate Passed(e: Side, e': Side, v: Setting) {
    if e.Absent? then e'.Absent?
    else
      && e'.Present? && e'.cached == e.cached
      && if e.tokens > 0 then e'.tokens == e.tokens
         else
           && e'.tokens == (if e.cached == v then 0 else 1)
           && e'.heading == Met(v, e.cached)
           && (e'.tokens == 1 ==> Distance(e'.heading, v) < Distance(v, e.cached))
  }

  lemma NotifierStep(s: Sys, i: nat)
    requires Inv(s) && Enabled(s, DeliverNotification(i))
    ensures Heard(SideOf(s, i), SideOf(Next(s, DeliverNotification(i)), i), s.servers[i].notifs[0].setting)
  {
    var c, r, t := s.clcbs[i], s.servers[i], Next(s, DeliverNotification(i));
    assert MemberInv(c, r, s.setState, s.synced);
    if |r.notifs| == 1 {
      DeadOutcome(c.outbox, r);
      DeadOutcome(c.outbox, t.servers[i]);
    }
  }

  lemma OtherStep(s: Sys, i: nat, j: nat)
    requires Inv(s) && Enabled(s, DeliverNotification(i)) && j != i
    ensures Passed(SideOf(s, j), SideOf(Next(s, DeliverNotification(i)), j), s.servers[i].notifs[0].setting)
  {
    if Used(s, j) {
      var c, r, v := s.clcbs[j], s.servers[j], s.servers[i].notifs[0].setting;
      assert MemberInv(c, r, s.setState, s.synced);
      if !c.waiting && r.notifs == [] {
        TransferShortens(c, r, v);
      }
    }
  }

  // ---- The measure ----

  function TokensIn(d: Side): nat {
    if d.Absent? then 0 else d.tokens
  }

  function WritesIn(d: Side): nat {
    if d.Absent? then 0 else d.writes
  }

  /** How far the one token of `d` still has to go to reach `e`. */
  function Way(d: Side, e: Side): nat {
    if d.Absent? || e.Absent? then 0 else Distance(d.heading, e.cached)
  }

  function Rank(d: Side, e: Side): nat {
    if TokensIn(d) > 0 && TokensIn(e) > 0 then 0
    else if TokensIn(d) + TokensIn(e) > 1 then 1
    else if TokensIn(d) == 1 then Way(d, e)
    else if TokensIn(e) == 1 then Way(e, d)
    else 0
  }

  function Measure(d: Side, e: Side): (nat, nat, nat) {
    (TokensIn(d) + TokensIn(e), Rank(d, e), WritesIn(d) + WritesIn(e))
  }

  predicate Less(a: (nat, nat, nat), b: (nat, nat, nat)) {
    || a.0 < b.0
    || (a.0 == b.0 && a.1 < b.1)
    || (a.0 == b.0 && a.1 == b.1 && a.2 < b.2)
  }

  lemma FewerWritesIsLess(d: Side, e: Side)
    requires d.Present? && d.writes > 0
    ensures Less(Measure(d.(writes := d.writes - 1), e), Measure(d, e))
    ensures Less(Measure(e, d.(writes := d.writes - 1)), Measure(e, d))
  {
  }

  lemma HeardIsLess(d: Side, e: Side, d': Side, e': Side, v: Setting)
    requires Heard(d, d', v) && Passed(e, e', v)
    ensures Less(Measure(d', e'), Measure(d, e)) && Less(Measure(e', d'), Measure(e, d))
  {
  }

  function MeasureOf(s: Sys, a: nat, b: nat): (nat, nat, nat) {
    Measure(SideOf(s, a), SideOf(s, b))
  }

  /** Every delivery makes progress, from every state a run can reach. */
  lemma DeliveryDecreases(s: Sys, step: Step, a: nat, b: nat)
    requires Inv(s) && AllFresh(s) && OnlyConnected(s, a, b) && IsDelivery(step) && Enabled(s, step)
    ensures Less(MeasureOf(Next(s, step), a, b), MeasureOf(s, a, b))
  {
    assert Used(s, step.i);
    var i, j := step.i, if step.i == a then b else a;
    if step.DeliverCommand? {
      CommandStep(s, i);
      FewerWritesIsLess(SideOf(s, i), SideOf(s, j));
    } else {
      var t := Next(s, step);
      NotifierStep(s, i);
      OtherStep(s, i, j);
      HeardIsLess(SideOf(s, i), SideOf(s, j), SideOf(t, i), SideOf(t, j), s.servers[i].notifs[0].setting);
    }
  }

  // ---- Coming to rest ----

  /** An execution in which something is delivered as long as anything is in flight. */
  ghost predicate Delivering(run: nat -> Sys) {
    forall k: nat :: Quiescent(run(k)) || Moves(run(k), run(k + 1))
  }

  ghost predicate Moves(s: Sys, t: Sys) {
    exists step :: IsDelivery(step) && Enabled(s, step) && t == Next(s, step)
  }

  /** A state that the protocol can be in, with at most two members connected. */
  ghost predicate Small(s: Sys, a: nat, b: nat) {
    Inv(s) && AllFresh(s) && OnlyConnected(s, a, b)
  }

  lemma DeliveryKeepsSmall(s: Sys, step: Step, a: nat, b: nat)
    requires Small(s, a, b) && IsDelivery(step) && Enabled(s, step)
    ensures Small(Next(s, step), a, b)
    ensures s.synced ==> Next(s, step).synced
  {
    StepPreservesInv(s, step);
    DeliveryKeepsFresh(s, step);
    DeliveryKeepsConnected(s, step, a, b);
  }

  lemma MoveIsProgress(s: Sys, t: Sys, a: nat, b: nat, v: Setting)
    requires Small(s, a, b) && Moves(s, t)
    ensures Small(t, a, b) && Less(MeasureOf(t, a, b), MeasureOf(s, a, b))
    ensures s.synced ==> t.synced
    ensures HeadsFor(s, a, b, v) ==> HeadsFor(t, a, b, v)
  {
    var step :| IsDelivery(step) && Enabled(s, step) && t == Next(s, step);
    DeliveryKeepsSmall(s, step, a, b);
    DeliveryDecreases(s, step, a, b);
    if HeadsFor(s, a, b, v) {
      DeliveryKeepsHeading(s, step, a, b, v);
    }
  }

  lemma {:induction false} RestIsReachedFrom(run: nat -> Sys, k: nat, a: nat, b: nat, v: Setting) returns (n: nat)
    requires Delivering(run) && Small(run(k), a, b)
    ensures n >= k && Quiescent(run(n)) && Small(run(n), a, b)
    ensures run(k).synced ==> run(n).synced
    ensures HeadsFor(run(k), a, b, v) ==> HeadsFor(run(n), a, b, v)
    decreases MeasureOf(run(k), a, b).0, MeasureOf(run(k), a, b).1, MeasureOf(run(k), a, b).2
  {
    if Quiescent(run(k)) {
      return k;
    }
    assert Quiescent(run(k)) || Moves(run(k), run(k + 1));
    MoveIsProgress(run(k), run(k + 1), a, b, v);
    n := RestIsReachedFrom(run, k + 1, a, b, v);
  }

  /** Liveness: a set with at most two connected members that is left alone comes to rest in
      every execution, from every state the protocol can be in, and if a notification was
      processed since the last join all connected members agree. */
  lemma PairComesToRest(run: nat -> Sys, a: nat, b: nat)
    requires Delivering(run) && Small(run(0), a, b)
    ensures exists n: nat :: Quiescent(run(n)) && (run(0).synced ==> Agreement(run(n)))
  {
    var n := RestIsReachedFrom(run, 0, a, b, Setting(0, false));
    if run(0).synced {
      QuiescentAgrees(run(n));
    }
  }

  // ---- Where they come to rest ----

  function Destination(d: Side, e: Side): Setting
    requires d.Present?
  {
    if e.Absent? then d.heading else Met(d.heading, e.cached)
  }

  predicate RestsAt(d: Side, v: Setting) {
    d.Present? ==> d.cached == v
  }

  /** At most one token is left, and it will bring both members to `v`. */
  predicate Heads(d: Side, e: Side, v: Setting) {
    if TokensIn(d) == 0 && TokensIn(e) == 0 then RestsAt(d, v) && RestsAt(e, v)
    else if TokensIn(d) == 1 && TokensIn(e) == 0 then Destination(d, e) == v
    else TokensIn(d) == 0 && TokensIn(e) == 1 && Destination(e, d) == v
  }

  predicate HeadsFor(s: Sys, a: nat, b: nat, v: Setting) {
    Heads(SideOf(s, a), SideOf(s, b), v)
  }

  lemma HeardKeepsHeads(d: Side, e: Side, d': Side, e': Side, n: Setting, v: Setting)
    requires Heard(d, d', n) && Passed(e, e', n) && Heads(d, e, v)
    ensures Heads(d', e', v) && Heads(e', d', v)
  {
  }

  lemma DeliveryKeepsHeading(s: Sys, step: Step, a: nat, b: nat, v: Setting)
    requires Small(s, a, b) && IsDelivery(step) && Enabled(s, step) && HeadsFor(s, a, b, v)
    ensures HeadsFor(Next(s, step), a, b, v)
  {
    assert Used(s, step.i);
    var i, j := step.i, if step.i == a then b else a;
    if step.DeliverCommand? {
      CommandStep(s, i);
    } else {
      var t := Next(s, step);
      NotifierStep(s, i);
      OtherStep(s, i, j);
      HeardKeepsHeads(SideOf(s, i), SideOf(s, j), SideOf(t, i), SideOf(t, j), s.servers[i].notifs[0].setting, v);
    }
  }

  lemma RestingSide(s: Sys, i: nat)
    requires Inv(s) && Quiescent(s)
    ensures SideOf(s, i).Present? ==>
              && SideOf(s, i) == Present(0, s.clcbs[i].cache.setting, s.clcbs[i].cache.setting, 0)
              && s.servers[i].state == s.clcbs[i].cache && !s.clcbs[i].waiting
  {
    if Used(s, i) {
      assert MemberInv(s.clcbs[i], s.servers[i], s.setState, s.synced) && !HasCurrentWrite(s.clcbs[i]);
    }
  }

  /** Where a change of member `i` to `x` ends. */
  function Settled(s: Sys, i: nat, j: nat, x: Setting): Setting {
    if Used(s, j) then Met(x, s.clcbs[j].cache.setting) else x
  }

  lemma LocalChangeHeadsFor(s: Sys, i: nat, j: nat, x: Setting)
    requires Inv(s) && Quiescent(s) && OnlyConnected(s, i, j) && Used(s, i)
    ensures var t := Next(s, LocalChange(i, x)); Small(t, i, j) && HeadsFor(t, i, j, Settled(s, i, j, x))
  {
    var t := Next(s, LocalChange(i, x));
    StepPreservesInv(s, LocalChange(i, x));
    RestingSide(s, i);
    RestingSide(s, j);
    assert SideOf(t, j) == SideOf(s, j);
    assert SideOf(t, i).tokens == 1 && SideOf(t, i).heading == x;
    forall m: nat | Used(t, m) && m < |t.servers|
      ensures Fresh(t.clcbs[m], t.servers[m]) && (m == i || m == j)
    {
      assert Used(s, m);
    }
  }

  /** A change made on one member at rest, with at most one other connected: both end at the
      notifier's setting if their mute states agreed, and otherwise at the notifier's mute state
      and the other member's volume. In every execution. */
  lemma LocalChangeSettlesAt(s: Sys, i: nat, j: nat, x: Setting, run: nat -> Sys)
    requires Inv(s) && Quiescent(s) && OnlyConnected(s, i, j) && Used(s, i)
    requires run(0) == Next(s, LocalChange(i, x)) && Delivering(run)
    ensures exists n: nat ::
              && Quiescent(run(n))
              && forall m: nat :: Used(run(n), m) && m < |run(n).servers| ==>
                   run(n).servers[m].state.setting == Settled(s, i, j, x)
  {
    var v := Settled(s, i, j, x);
    LocalChangeHeadsFor(s, i, j, x);
    var n := RestIsReachedFrom(run, 0, i, j, v);
    forall m: nat | Used(run(n), m) && m < |run(n).servers|
      ensures run(n).servers[m].state.setting == v
    {
      RestingSide(run(n), i);
      RestingSide(run(n), j);
    }
  }
}
