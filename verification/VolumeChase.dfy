/** With three or more connected members a set that is left alone need not come to rest, even
    if every message in flight is delivered again and again: two rival volumes chase each
    other. Together with the case of at most two members this is an exact condition. */
module VolumeChase {
  import opened VolumeControl
  import opened VolumeClient
  import opened VolumeSync
  import opened VolumeTermination

  // ---- The members of a chase ----

  predicate Even(c: Clcb, r: Server) {
    c.used && !c.cache.setting.muted && r.state == c.cache && r.notifs == []
  }

  predicate Idle(c: Clcb, r: Server) {
    Even(c, r) && !c.waiting && c.outbox == []
  }

  /** Asked for volume `v`; the write is in flight. */
  predicate Asked(c: Clcb, r: Server, v: Volume) {
    && Even(c, r) && c.waiting && c.cache.setting.volume != v
    && c.outbox == [Command(SetAbsoluteVolume, c.cache.changes, v)]
  }

  /** Turned to volume `v`; the notification is in flight. */
  predicate Told(c: Clcb, r: Server, v: Volume) {
    && c.used && c.waiting && c.outbox == []
    && r.state == VolumeState(Setting(v, false), c.cache.changes + 1) && r.notifs == [r.state]
  }

  predicate Sized(s: Sys) {
    |s.clcbs| == |s.servers|
  }

  predicate IdleAt(s: Sys, i: nat) {
    i < |s.clcbs| && i < |s.servers| && Idle(s.clcbs[i], s.servers[i])
  }

  predicate AskedAt(s: Sys, i: nat, v: Volume) {
    i < |s.clcbs| && i < |s.servers| && Asked(s.clcbs[i], s.servers[i], v)
  }

  predicate ToldAt(s: Sys, i: nat, v: Volume) {
    i < |s.clcbs| && i < |s.servers| && Told(s.clcbs[i], s.servers[i], v)
  }

  /** Every connected member is idle, or on its way to one of the two volumes. */
  ghost predicate InPlay(s: Sys, x: Volume, y: Volume) {
    && Sized(s)
    && forall i: nat :: Used(s, i) ==>
         IdleAt(s, i) || AskedAt(s, i, x) || AskedAt(s, i, y) || ToldAt(s, i, x) || ToldAt(s, i, y)
  }

  ghost predicate NoneTold(s: Sys, x: Volume, y: Volume) {
    forall i: nat :: !ToldAt(s, i, x) && !ToldAt(s, i, y)
  }

  /** Two rival volumes on their way to `p` and `q`, with `r` idle elsewhere; every other
      connected member is idle or asked for one of the two as well. */
  ghost predicate Chase(s: Sys, p: nat, q: nat, r: nat, x: Volume, y: Volume) {
    && p != q && q != r && p != r && x != y
    && InPlay(s, x, y) && NoneTold(s, x, y)
    && AskedAt(s, p, x) && AskedAt(s, q, y)
    && IdleAt(s, r) && s.clcbs[r].cache.setting.volume != x
  }

  ghost predicate SameConnected(s: Sys, t: Sys) {
    |t.clcbs| == |s.clcbs| && forall i: nat :: Used(t, i) <==> Used(s, i)
  }

  // ---- One delivery ----

  lemma AskedBecomesTold(s: Sys, i: nat, v: Volume)
    requires Sized(s) && AskedAt(s, i, v)
    ensures Enabled(s, DeliverCommand(i))
    ensures var t := Next(s, DeliverCommand(i));
            && Sized(t) && |t.clcbs| == |s.clcbs| && ToldAt(t, i, v)
            && forall j: nat :: j != i && j < |s.clcbs| ==> t.clcbs[j] == s.clcbs[j] && t.servers[j] == s.servers[j]
  {
    var c, r := s.clcbs[i], s.servers[i];
    var v' := AfterCommand(c.outbox[0], r.state, r.step);
    assert c.outbox[1..] == [] && [] + [v'] == [v'];
  }

  lemma ToldBecomesIdle(s: Sys, i: nat, v: Volume)
    requires Sized(s) && ToldAt(s, i, v)
    ensures Enabled(s, DeliverNotification(i))
    ensures var t := Next(s, DeliverNotification(i));
            && Sized(t) && |t.clcbs| == |s.clcbs|
            && IdleAt(t, i) && t.clcbs[i].cache.setting.volume == v
            && forall j: nat :: j != i && j < |s.clcbs| ==>
                 t.servers[j] == s.servers[j]
                 && t.clcbs[j] == if s.clcbs[j].used then Synced(s.clcbs[j], Setting(v, false)) else s.clcbs[j]
  {
  }

  lemma IdleIsAsked(c: Clcb, r: Server, v: Volume)
    requires Idle(c, r)
    ensures c.cache.setting.volume == v ==> Synced(c, Setting(v, false)) == c
    ensures c.cache.setting.volume != v ==> Asked(Synced(c, Setting(v, false)), r, v)
  {
    var w := Command(SetAbsoluteVolume, c.cache.changes, v);
    assert [] + [w] == [w];
  }

  // ---- Every write in flight is delivered ----

  /** What delivering writes makes of the members. */
  ghost predicate Turned(s: Sys, t: Sys) {
    && Sized(t) && SameConnected(s, t)
    && (forall i: nat, v :: AskedAt(s, i, v) ==> AskedAt(t, i, v) || ToldAt(t, i, v))
    && (forall i: nat, v :: ToldAt(s, i, v) ==> ToldAt(t, i, v))
    && (forall i: nat :: IdleAt(s, i) ==> IdleAt(t, i) && t.clcbs[i] == s.clcbs[i])
  }

  ghost predicate Deliveries(steps: seq<Step>) {
    forall k :: 0 <= k < |steps| ==> IsDelivery(steps[k])
  }

  lemma AskedTurns(s: Sys, i: nat, w: Volume)
    requires Sized(s) && AskedAt(s, i, w)
    ensures Enabled(s, DeliverCommand(i)) && Turned(s, Next(s, DeliverCommand(i)))
  {
    AskedBecomesTold(s, i, w);
  }

  lemma TurnedTwice(s: Sys, m: Sys, t: Sys)
    requires Sized(s) && Turned(s, m) && Turned(m, t)
    ensures Turned(s, t)
  {
  }

  lemma {:induction false} WritesAreDelivered(s: Sys, k: nat, x: Volume, y: Volume) returns (steps: seq<Step>, t: Sys)
    requires InPlay(s, x, y) && k <= |s.clcbs|
    requires forall i: nat :: i < k ==> !AskedAt(s, i, x) && !AskedAt(s, i, y)
    ensures Run(s, steps, t) && Deliveries(steps) && Turned(s, t)
    ensures forall i: nat :: !AskedAt(t, i, x) && !AskedAt(t, i, y)
    ensures forall i: nat :: AskedAt(s, i, x) || AskedAt(s, i, y) ==> DeliverCommand(i) in steps
    decreases |s.clcbs| - k
  {
    if k == |s.clcbs| {
      return [], s;
    }
    if !AskedAt(s, k, x) && !AskedAt(s, k, y) {
      steps, t := WritesAreDelivered(s, k + 1, x, y);
    } else {
      var v := if AskedAt(s, k, x) then x else y;
      var step := DeliverCommand(k);
      var m := Next(s, step);
      AskedBecomesTold(s, k, v);
      AskedTurns(s, k, v);
      var rest;
      rest, t := WritesAreDelivered(m, k + 1, x, y);
      TurnedTwice(s, m, t);
      steps := [step] + rest;
      assert steps[0] == step && steps[1..] == rest;
    }
  }

  // ---- Every notification in flight is delivered, that of `q` last ----

  /** `p` has told `x`, which `r` was asked for; `q` has yet to tell `y`. */
  ghost predicate Turning(s: Sys, p: nat, q: nat, r: nat, x: Volume, y: Volume) {
    && p != q && q != r && p != r && x != y
    && InPlay(s, x, y)
    && ((IdleAt(s, p) && s.clcbs[p].cache.setting.volume == x) || AskedAt(s, p, y))
    && ToldAt(s, q, y) && AskedAt(s, r, x)
  }

  lemma HeardInPlay(s: Sys, i: nat, v: Volume, x: Volume, y: Volume)
    requires InPlay(s, x, y) && ToldAt(s, i, v) && (v == x || v == y)
    ensures var t := Next(s, DeliverNotification(i));
            && InPlay(t, x, y) && IdleAt(t, i) && SameConnected(s, t)
            && (forall j: nat, w :: j != i && ToldAt(s, j, w) ==> ToldAt(t, j, w))
            && (forall j: nat, w :: ToldAt(t, j, w) ==> j != i && ToldAt(s, j, w))
            && (forall j: nat, w :: AskedAt(s, j, w) ==> AskedAt(t, j, w))
  {
    var t := Next(s, DeliverNotification(i));
    ToldBecomesIdle(s, i, v);
    forall j: nat | Used(t, j)
      ensures IdleAt(t, j) || AskedAt(t, j, x) || AskedAt(t, j, y) || ToldAt(t, j, x) || ToldAt(t, j, y)
    {
      assert Used(s, j);
      if j != i && IdleAt(s, j) {
        IdleIsAsked(s.clcbs[j], s.servers[j], v);
      }
    }
    forall j: nat, w | ToldAt(t, j, w)
      ensures j != i && ToldAt(s, j, w)
    {
      assert Used(s, j);
      if j != i && IdleAt(s, j) {
        IdleIsAsked(s.clcbs[j], s.servers[j], v);
      }
    }
  }

  /** The first to tell: `r` is asked for its volume. */
  lemma FirstIsHeard(s: Sys, p: nat, q: nat, r: nat, x: Volume, y: Volume)
    requires p != q && q != r && p != r && x != y && InPlay(s, x, y)
    requires ToldAt(s, p, x) && ToldAt(s, q, y) && IdleAt(s, r) && s.clcbs[r].cache.setting.volume != x
    ensures Turning(Next(s, DeliverNotification(p)), p, q, r, x, y)
  {
    HeardInPlay(s, p, x, x, y);
    ToldBecomesIdle(s, p, x);
    IdleIsAsked(s.clcbs[r], s.servers[r], x);
  }

  lemma TurningGoesOn(s: Sys, i: nat, v: Volume, p: nat, q: nat, r: nat, x: Volume, y: Volume)
    requires Turning(s, p, q, r, x, y) && i != q && ToldAt(s, i, v) && (v == x || v == y)
    ensures Turning(Next(s, DeliverNotification(i)), p, q, r, x, y)
  {
    HeardInPlay(s, i, v, x, y);
    ToldBecomesIdle(s, i, v);
    if IdleAt(s, p) {
      IdleIsAsked(s.clcbs[p], s.servers[p], v);
    }
  }

  lemma {:induction false} NewsIsDelivered(s: Sys, k: nat, p: nat, q: nat, r: nat, x: Volume, y: Volume)
    returns (steps: seq<Step>, t: Sys)
    requires Turning(s, p, q, r, x, y) && k <= |s.clcbs|
    requires forall i: nat :: i < k && i != q ==> !ToldAt(s, i, x) && !ToldAt(s, i, y)
    ensures Run(s, steps, t) && Deliveries(steps) && Turning(t, p, q, r, x, y) && SameConnected(s, t)
    ensures forall i: nat :: i != q ==> !ToldAt(t, i, x) && !ToldAt(t, i, y)
    ensures forall i: nat :: i != q && (ToldAt(s, i, x) || ToldAt(s, i, y)) ==> DeliverNotification(i) in steps
    decreases |s.clcbs| - k
  {
    if k == |s.clcbs| {
      return [], s;
    }
    if k == q || (!ToldAt(s, k, x) && !ToldAt(s, k, y)) {
      steps, t := NewsIsDelivered(s, k + 1, p, q, r, x, y);
    } else {
      var v := if ToldAt(s, k, x) then x else y;
      var step := DeliverNotification(k);
      var m := Next(s, step);
      ToldBecomesIdle(s, k, v);
      HeardInPlay(s, k, v, x, y);
      TurningGoesOn(s, k, v, p, q, r, x, y);
      var rest;
      rest, t := NewsIsDelivered(m, k + 1, p, q, r, x, y);
      steps := [step] + rest;
      assert steps[0] == step && steps[1..] == rest;
    }
  }

  /** The last to tell: `p` is asked for its volume, and the same picture is back. */
  lemma LastIsHeard(s: Sys, p: nat, q: nat, r: nat, x: Volume, y: Volume)
    requires Turning(s, p, q, r, x, y)
    requires forall i: nat :: i != q ==> !ToldAt(s, i, x) && !ToldAt(s, i, y)
    ensures Chase(Next(s, DeliverNotification(q)), r, p, q, x, y)
  {
    HeardInPlay(s, q, y, x, y);
    ToldBecomesIdle(s, q, y);
    if IdleAt(s, p) {
      IdleIsAsked(s.clcbs[p], s.servers[p], y);
    }
  }

  // ---- A round of the chase ----

  /** A round delivers everything in flight. */
  ghost predicate ServesAll(s: Sys, steps: seq<Step>) {
    forall i: nat :: Used(s, i) && s.clcbs[i].outbox != [] ==>
      DeliverCommand(i) in steps && DeliverNotification(i) in steps
  }

  ghost predicate IsRound(s: Sys, steps: seq<Step>, t: Sys) {
    steps != [] && Run(s, steps, t) && Deliveries(steps) && ServesAll(s, steps) && SameConnected(s, t)
  }

  lemma {:induction false} RunsCompose(s: Sys, a: seq<Step>, m: Sys, b: seq<Step>, t: Sys)
    requires Run(s, a, m) && Run(m, b, t)
    ensures Run(s, a + b, t)
    decreases |a|
  {
    if a == [] {
      assert a + b == b;
    } else {
      assert (a + b)[1..] == a[1..] + b;
      RunsCompose(Next(s, a[0]), a[1..], m, b, t);
    }
  }

  lemma RunExtends(s: Sys, steps: seq<Step>, m: Sys, step: Step)
    requires Run(s, steps, m) && Enabled(m, step)
    ensures Run(s, steps + [step], Next(m, step))
  {
    assert [step][1..] == [] && Run(Next(m, step), [], Next(m, step));
    RunsCompose(s, steps, m, [step], Next(m, step));
  }

  /** First the writes, then the notification of `p`. */
  lemma FirstHalf(s: Sys, p: nat, q: nat, r: nat, x: Volume, y: Volume)
    returns (steps: seq<Step>, m: Sys, t: Sys)
    requires Chase(s, p, q, r, x, y)
    ensures Run(s, steps + [DeliverNotification(p)], t) && Deliveries(steps)
    ensures Turning(t, p, q, r, x, y) && SameConnected(s, t)
    ensures forall i: nat :: AskedAt(s, i, x) || AskedAt(s, i, y) ==>
              DeliverCommand(i) in steps && (i == p || ToldAt(t, i, x) || ToldAt(t, i, y))
  {
    steps, m := WritesAreDelivered(s, 0, x, y);
    ToldBecomesIdle(m, p, x);
    HeardInPlay(m, p, x, x, y);
    FirstIsHeard(m, p, q, r, x, y);
    t := Next(m, DeliverNotification(p));
    RunExtends(s, steps, m, DeliverNotification(p));
  }

  /** Then the other notifications, that of `q` last. */
  lemma SecondHalf(s: Sys, p: nat, q: nat, r: nat, x: Volume, y: Volume) returns (steps: seq<Step>, t: Sys)
    requires Turning(s, p, q, r, x, y)
    ensures Run(s, steps, t) && Deliveries(steps) && Chase(t, r, p, q, x, y) && SameConnected(s, t)
    ensures forall i: nat :: ToldAt(s, i, x) || ToldAt(s, i, y) ==> DeliverNotification(i) in steps
  {
    var news, m := NewsIsDelivered(s, 0, p, q, r, x, y);
    ToldBecomesIdle(m, q, y);
    HeardInPlay(m, q, y, x, y);
    LastIsHeard(m, p, q, r, x, y);
    t := Next(m, DeliverNotification(q));
    RunExtends(s, news, m, DeliverNotification(q));
    steps := news + [DeliverNotification(q)];
  }

  /** One round later the same picture is back, with the roles rotated, and everything that was
      in flight has been delivered. */
  lemma ChaseGoesOn(s: Sys, p: nat, q: nat, r: nat, x: Volume, y: Volume) returns (steps: seq<Step>, t: Sys)
    requires Chase(s, p, q, r, x, y)
    ensures IsRound(s, steps, t) && Chase(t, r, p, q, x, y)
  {
    var a, m, u := FirstHalf(s, p, q, r, x, y);
    var b;
    b, t := SecondHalf(u, p, q, r, x, y);
    var first := a + [DeliverNotification(p)];
    RunsCompose(s, first, u, b, t);
    steps := first + b;
    assert first[|a|] == DeliverNotification(p);
    forall i: nat | Used(s, i) && s.clcbs[i].outbox != []
      ensures DeliverCommand(i) in steps && DeliverNotification(i) in steps
    {
      assert AskedAt(s, i, x) || AskedAt(s, i, y);
      assert i != p ==> DeliverNotification(i) in b;
    }
  }
}
