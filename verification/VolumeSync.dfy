/** Volume synchronisation of a coordinated set of any size: one controller, its members,
    and the messages in flight between them, as a state machine. Deliveries, local changes
    on a member, user commands, members joining and members leaving interleave freely. */
module VolumeSync {
  import opened VolumeControl
  import opened VolumeClient

  /** A set member: its volume state, its relative step, and the notifications it has sent
      that the controller has not seen yet, oldest first. */
  datatype Server = Server(state: VolumeState, step: nat, notifs: seq<VolumeState>)

  /** `synced` records that a notification was processed since the last member joined. */
  datatype Sys = Sys(clcbs: seq<Clcb>, servers: seq<Server>, setState: Setting, synced: bool)

  datatype Step =
    | UserCommand(opcode: Opcode, volume: Volume)
    | LocalChange(i: nat, setting: Setting)
    | DeliverCommand(i: nat)
    | DeliverNotification(i: nat)
    | Join(i: nat)
    | Leave(i: nat)

  predicate Used(s: Sys, i: nat) {
    i < |s.clcbs| && s.clcbs[i].used
  }

  predicate Enabled(s: Sys, step: Step) {
    && |s.clcbs| == |s.servers|
    && match step
       case UserCommand(_, _) => true
       case LocalChange(i, _) => Used(s, i)
       case DeliverCommand(i) => Used(s, i) && s.clcbs[i].outbox != []
       case DeliverNotification(i) => Used(s, i) && s.servers[i].notifs != []
       case Join(i) => i < |s.clcbs| && !s.clcbs[i].used
       case Leave(i) => Used(s, i)
  }

  function Announced(r: Server, v: VolumeState): Server {
    r.(state := v, notifs := r.notifs + [v])
  }

  function AfterWrite(r: Server, w: Command): Server {
    if Accepted(w, r.state, r.step) then Announced(r, AfterCommand(w, r.state, r.step)) else r
  }

  function Next(s: Sys, step: Step): Sys
    requires Enabled(s, step)
  {
    match step
    case UserCommand(opcode, volume) =>
      s.(clcbs := AfterUserCommand(s.clcbs, opcode, volume))
    case LocalChange(i, setting) =>
      s.(servers := s.servers[i := Announced(s.servers[i], VolumeState(setting, s.servers[i].state.changes + 1))])
    case DeliverCommand(i) =>
      var c := s.clcbs[i];
      s.(clcbs := s.clcbs[i := c.(outbox := c.outbox[1..])],
         servers := s.servers[i := AfterWrite(s.servers[i], c.outbox[0])])
    case DeliverNotification(i) =>
      var r := s.servers[i];
      s.(clcbs := AfterNotification(s.clcbs, i, r.notifs[0]),
         servers := s.servers[i := r.(notifs := r.notifs[1..])],
         setState := r.notifs[0].setting,
         synced := true)
    case Join(i) =>
      s.(clcbs := s.clcbs[i := Clcb(true, false, s.servers[i].state, [])],
         servers := s.servers[i := s.servers[i].(notifs := [])],
         synced := false)
    case Leave(i) =>
      s.(clcbs := s.clcbs[i := s.clcbs[i].(used := false, outbox := [])],
         servers := s.servers[i := s.servers[i].(notifs := [])])
  }

  // ---- The invariant ----

  /** The notifications in flight spell out, one change at a time, the way from the cached
      state to the member's state. */
  predicate Linked(c: Clcb, r: Server) {
    && r.step >= 1
    && r.state.changes == c.cache.changes + |r.notifs|
    && (forall k :: 0 <= k < |r.notifs| ==> r.notifs[k].changes == c.cache.changes + 1 + k)
    && r.state == if r.notifs == [] then c.cache else r.notifs[|r.notifs| - 1]
  }

  /** No write is newer than the cache; one that carries the cached count changes the cached
      setting, and the controller is waiting for the outcome. */
  predicate WritesAreGated(c: Clcb) {
    forall k :: 0 <= k < |c.outbox| ==>
      && c.outbox[k].changes <= c.cache.changes
      && (c.outbox[k].changes == c.cache.changes ==>
            c.waiting && PassesGate(c.outbox[k].opcode, c.cache.setting, c.outbox[k].volume))
  }

  /** Writes are queued with ever newer counts. */
  predicate WritesAreOrdered(c: Clcb) {
    forall j, k :: 0 <= j < k < |c.outbox| ==> c.outbox[j].changes <= c.outbox[k].changes
  }

  predicate HasCurrentWrite(c: Clcb) {
    exists k :: 0 <= k < |c.outbox| && c.outbox[k].changes == c.cache.changes
  }

  /** Waiting is never in vain. */
  predicate WaitingIsJustified(c: Clcb, r: Server) {
    c.waiting ==> r.notifs != [] || HasCurrentWrite(c)
  }

  predicate Follows(c: Clcb, s: Setting) {
    c.waiting || c.cache.setting == s
  }

  predicate MemberInv(c: Clcb, r: Server, s: Setting, synced: bool) {
    c.used ==>
      && Linked(c, r)
      && WritesAreGated(c)
      && WritesAreOrdered(c)
      && WaitingIsJustified(c, r)
      && (synced ==> Follows(c, s))
  }

  ghost predicate Inv(s: Sys) {
    && |s.clcbs| == |s.servers|
    && (forall i :: 0 <= i < |s.servers| ==> s.servers[i].step >= 1)
    && (forall i :: 0 <= i < |s.clcbs| ==> MemberInv(s.clcbs[i], s.servers[i], s.setState, s.synced))
  }

  /** Before anyone joined: renderers in any state, with any positive step size. */
  ghost predicate Init(s: Sys) {
    && |s.clcbs| == |s.servers|
    && (forall i :: 0 <= i < |s.servers| ==> s.servers[i].step >= 1)
    && (forall i :: 0 <= i < |s.clcbs| ==> !s.clcbs[i].used)
  }

  lemma WritePreserves(c: Clcb, r: Server, s: Setting, synced: bool, opcode: Opcode, volume: Volume)
    requires c.used && MemberInv(c, r, s, synced)
    ensures MemberInv(WriteIfValid(c, opcode, volume), r, s, synced)
  {
    var d := WriteIfValid(c, opcode, volume);
    if PassesGate(opcode, c.cache.setting, volume) {
      assert d.outbox[|c.outbox|].changes == d.cache.changes;
      assert HasCurrentWrite(d);
    }
  }

  /** The heart of the protocol: a synchronised member ends up waiting or in agreement. */
  lemma SyncPreserves(c: Clcb, r: Server, old_: Setting, synced: bool, target: Setting)
    requires c.used && MemberInv(c, r, old_, synced)
    ensures MemberInv(Synced(c, target), r, target, true)
  {
    var d := Synced(c, target);
    if c.waiting {
    } else if c.cache.setting.muted != target.muted {
      WritePreserves(c, r, old_, false, MuteOpcode(target.muted), 0);
    } else if c.cache.setting.volume != target.volume {
      WritePreserves(c, r, old_, false, SetAbsoluteVolume, target.volume);
    }
  }

  lemma DeliverCommandPreserves(c: Clcb, r: Server, s: Setting, synced: bool)
    requires c.used && c.outbox != [] && MemberInv(c, r, s, synced)
    ensures MemberInv(c.(outbox := c.outbox[1..]), AfterWrite(r, c.outbox[0]), s, synced)
  {
    var w := c.outbox[0];
    var d := c.(outbox := c.outbox[1..]);
    assert forall k :: 0 <= k < |d.outbox| ==> d.outbox[k] == c.outbox[k + 1];
    if c.waiting && r.notifs == [] && !Accepted(w, r.state, r.step) {
      GateIsExact(w.opcode, r.state.setting, w.volume, r.step);
      var k :| 0 <= k < |c.outbox| && c.outbox[k].changes == c.cache.changes;
      assert k != 0;
      assert d.outbox[k - 1].changes == d.cache.changes;
    }
  }

  lemma NotifierPreserves(c: Clcb, r: Server, s: Setting, synced: bool)
    requires c.used && r.notifs != [] && MemberInv(c, r, s, synced)
    ensures MemberInv(c.(cache := r.notifs[0], waiting := false), r.(notifs := r.notifs[1..]), r.notifs[0].setting, true)
  {
  }

  lemma StepPreservesInv(s: Sys, step: Step)
    requires Inv(s) && Enabled(s, step)
    ensures Inv(Next(s, step))
  {
    var t := Next(s, step);
    forall j | 0 <= j < |t.clcbs|
      ensures MemberInv(t.clcbs[j], t.servers[j], t.setState, t.synced)
    {
      assert MemberInv(s.clcbs[j], s.servers[j], s.setState, s.synced);
      match step {
        case UserCommand(opcode, volume) =>
          if s.clcbs[j].used {
            WritePreserves(s.clcbs[j], s.servers[j], s.setState, s.synced, opcode, volume);
          }
        case DeliverCommand(i) =>
          if j == i { DeliverCommandPreserves(s.clcbs[i], s.servers[i], s.setState, s.synced); }
        case DeliverNotification(i) =>
          if j == i {
            NotifierPreserves(s.clcbs[i], s.servers[i], s.setState, s.synced);
          } else if s.clcbs[j].used {
            SyncPreserves(s.clcbs[j], s.servers[j], s.setState, s.synced, t.setState);
          }
        case _ =>
      }
    }
  }

  // ---- Runs ----

  ghost predicate Run(s: Sys, steps: seq<Step>, t: Sys)
    decreases |steps|
  {
    if steps == [] then s == t
    else Enabled(s, steps[0]) && Run(Next(s, steps[0]), steps[1..], t)
  }

  lemma {:induction false} RunPreservesInv(s: Sys, steps: seq<Step>, t: Sys)
    requires Inv(s) && Run(s, steps, t)
    ensures Inv(t)
    decreases |steps|
  {
    if steps != [] {
      StepPreservesInv(s, steps[0]);
      RunPreservesInv(Next(s, steps[0]), steps[1..], t);
    }
  }

  ghost predicate Quiescent(s: Sys) {
    forall i :: 0 <= i < |s.clcbs| && i < |s.servers| && s.clcbs[i].used ==>
      s.clcbs[i].outbox == [] && s.servers[i].notifs == []
  }

  /** Every connected member renders the set's setting, the controller knows it exactly, and
      nobody is waited for. */
  ghost predicate Agreement(s: Sys) {
    && |s.clcbs| == |s.servers|
    && forall i :: 0 <= i < |s.clcbs| && s.clcbs[i].used ==>
         && s.servers[i].state.setting == s.setState
         && s.clcbs[i].cache == s.servers[i].state
         && !s.clcbs[i].waiting
  }

  lemma QuiescentAgrees(s: Sys)
    requires Inv(s) && s.synced && Quiescent(s)
    ensures Agreement(s)
  {
    forall i | 0 <= i < |s.clcbs| && s.clcbs[i].used
      ensures s.servers[i].state.setting == s.setState
      ensures s.clcbs[i].cache == s.servers[i].state && !s.clcbs[i].waiting
    {
      assert MemberInv(s.clcbs[i], s.servers[i], s.setState, s.synced);
      assert !HasCurrentWrite(s.clcbs[i]);
    }
  }

  /** Safety over every run, for every set size and although the counter wraps: whenever
      nothing is in flight and a notification was processed since the last join, all
      connected members agree. */
  lemma QuiescenceMeansAgreement(s: Sys, steps: seq<Step>, t: Sys)
    requires Init(s) && Run(s, steps, t)
    requires t.synced && Quiescent(t)
    ensures Agreement(t)
  {
    RunPreservesInv(s, steps, t);
    QuiescentAgrees(t);
  }

  /** What waiting guarantees on every run: either news from the member is on its way, or a
      queued write would be accepted by the member as it is now. */
  lemma WaitingIsNeverInVain(s: Sys, steps: seq<Step>, t: Sys, i: nat)
    requires Init(s) && Run(s, steps, t)
    requires Used(t, i) && t.clcbs[i].waiting
    ensures i < |t.servers|
    ensures t.servers[i].notifs != [] ||
            exists k :: 0 <= k < |t.clcbs[i].outbox| &&
                        Accepted(t.clcbs[i].outbox[k], t.servers[i].state, t.servers[i].step)
  {
    RunPreservesInv(s, steps, t);
    var c, r := t.clcbs[i], t.servers[i];
    assert MemberInv(c, r, t.setState, t.synced);
    if r.notifs == [] {
      var k :| 0 <= k < |c.outbox| && c.outbox[k].changes == c.cache.changes;
      GateIsExact(c.outbox[k].opcode, r.state.setting, c.outbox[k].volume, r.step);
      assert Accepted(c.outbox[k], r.state, r.step);
    }
  }

  /** The system once the write queued for member `i`, if there is one, was delivered. */
  function Delivered(s: Sys, i: nat): Sys
    requires Used(s, i) && |s.clcbs| == |s.servers|
  {
    if s.clcbs[i].outbox == [] then s else Next(s, DeliverCommand(i))
  }

  /** A user command takes effect on every connected member with nothing in flight, on every run:
      its renderer ends in the setting the opcode computes from its own, and announces it if that
      is another. */
  lemma CommandTakesEffect(s: Sys, steps: seq<Step>, t: Sys, opcode: Opcode, volume: Volume, i: nat)
    requires Init(s) && Run(s, steps, t)
    requires |t.clcbs| == |t.servers| && Used(t, i) && t.clcbs[i].outbox == [] && t.servers[i].notifs == []
    ensures var r := t.servers[i];
            var u := Delivered(Next(t, UserCommand(opcode, volume)), i);
            && u.servers[i].state.setting == Applied(opcode, r.state.setting, volume, r.step)
            && u.clcbs[i].outbox == []
            && if Applied(opcode, r.state.setting, volume, r.step) == r.state.setting then u.servers[i] == r
               else u.servers[i].state.changes == r.state.changes + 1 && u.servers[i].notifs == [u.servers[i].state]
  {
    RunPreservesInv(s, steps, t);
    var c, r := t.clcbs[i], t.servers[i];
    assert MemberInv(c, r, t.setState, t.synced);
    UserCommandReaches(t.clcbs, opcode, volume, r.step, i);
  }
}
