/** What the idle locks of a group of tabs promise, over every run. */
module IdleLockTheorems {
  import opened Common
  import opened IdleLock

  // ----- what every step keeps

  /** A tab has heard of a time, or a heartbeat will tell it. */
  ghost predicate Heard(w: World, id: nat, time: nat)
    requires id in w.tabs
  {
    w.tabs[id].locked || time <= w.tabs[id].lastActivity || Mail(id, VaultHeartbeat) in w.mail
  }

  ghost predicate TimesInv(w: World) {
    w.latest <= w.clock && forall id :: id in w.tabs ==> InTime(w.tabs[id], w.clock)
  }

  ghost predicate HeartbeatsInv(w: World) {
    forall i, j :: i in w.tabs && j in w.tabs ==> Heard(w, i, w.tabs[j].lastHeartbeatSent)
  }

  /** The tab's record is at most one interval behind the latest activity anywhere. */
  ghost predicate Recent(c: Config, w: World, id: nat)
    requires id in w.tabs
  {
    Heard(w, id, w.latest) || w.latest < w.tabs[id].lastActivity + c.heartbeatIntervalMs
  }

  ghost predicate RecentInv(c: Config, w: World) {
    forall id :: id in w.tabs ==> Recent(c, w, id)
  }

  /** The bound on one lock by timer. */
  ghost predicate NotEarly(c: Config, l: TimerLock) {
    l.at >= l.latest + c.idleMs || l.at + c.heartbeatIntervalMs > l.latest + c.idleMs
  }

  ghost predicate HasFired(fired: seq<nat>, id: nat) {
    exists k :: 0 <= k < |fired| && fired[k] == id
  }

  ghost predicate FiredInv(w: World) {
    && w.tabs.Keys <= w.known
    && (forall k :: 0 <= k < |w.fired| ==> w.fired[k] in w.known)
    && (forall k, l :: 0 <= k < l < |w.fired| ==> w.fired[k] != w.fired[l])
    && (forall id :: id in w.tabs ==> (w.tabs[id].locked <==> HasFired(w.fired, id)))
  }

  ghost predicate LocksInv(c: Config, w: World) {
    && (forall k :: 0 <= k < |w.locks| ==> w.locks[k].audience <= w.known)
    && (forall k :: 0 <= k < |w.locks| ==> w.locks[k].pending || NotEarly(c, w.locks[k]))
    && (forall k :: 0 <= k < |w.locks| ==> HasFired(w.fired, w.locks[k].tab))
    && (forall k, l :: 0 <= k < l < |w.locks| ==> w.locks[k].tab != w.locks[l].tab)
  }

  /** Whoever was mounted when a tab locked by timer is gone, locked or about to hear of it. */
  ghost predicate Told(w: World, id: nat) {
    id !in w.tabs || w.tabs[id].locked || Mail(id, VaultLocked) in w.mail
  }

  ghost predicate ToldInv(w: World) {
    && (forall k, id :: 0 <= k < |w.locks| && id in w.locks[k].audience ==> id in w.known && Told(w, id))
    && (forall m :: m in w.mail && m.msg == VaultLocked ==> Announced(w.locks, m.to))
    && (forall k :: 0 <= k < |w.fired| ==> Announced(w.locks, w.fired[k]) || LockedByTimer(w.locks, w.fired[k]))
  }

  ghost predicate Announced(locks: seq<TimerLock>, id: nat) {
    exists k :: 0 <= k < |locks| && id in locks[k].audience
  }

  ghost predicate LockedByTimer(locks: seq<TimerLock>, id: nat) {
    exists k :: 0 <= k < |locks| && locks[k].tab == id
  }

  /** A tab's heartbeats are an interval apart, the last of them at its recorded time. */
  ghost predicate BeatsInv(c: Config, w: World) {
    && (forall k :: 0 <= k < |w.beats| ==> w.beats[k].tab in w.known)
    && (forall k :: 0 <= k < |w.beats| && w.beats[k].tab in w.tabs ==>
          w.beats[k].at <= w.tabs[w.beats[k].tab].lastHeartbeatSent)
    && (forall k, l :: 0 <= k < l < |w.beats| && w.beats[k].tab == w.beats[l].tab ==>
          w.beats[k].at + c.heartbeatIntervalMs <= w.beats[l].at)
  }

  ghost predicate Inv(c: Config, w: World) {
    TimesInv(w) && HeartbeatsInv(w) && RecentInv(c, w) && FiredInv(w) && LocksInv(c, w) && ToldInv(w)
    && BeatsInv(c, w)
  }

  ghost predicate InTime(t: Tab, clock: nat) {
    t.lastHeartbeatSent <= clock && t.lastActivity <= clock
  }

  lemma OutcomeInTime(c: Config, t: Tab, msg: Message, now: nat)
    requires InTime(t, now)
    ensures InTime(NoteActivity(c, t, now).tab, now) && InTime(Receive(t, msg, now).tab, now)
    ensures InTime(TimerTick(c, t, now).tab, now)
  {
  }

  lemma TimesKept(c: Config, w: World, s: Step)
    requires TimesInv(w) && Enabled(w, s)
    ensures TimesInv(Next(c, w, s))
  {
    if s.Activity? || s.Deliver? || s.Tick? {
      OutcomeInTime(c, w.tabs[s.id], if s.Deliver? then s.msg else VaultLocked, w.clock);
    }
  }

  /** Only local activity moves a tab's heartbeat time, and announces it. */
  lemma BeatMoves(c: Config, w: World, s: Step, id: nat)
    requires w.tabs.Keys <= w.known && Enabled(w, s) && id in w.tabs && id in Next(c, w, s).tabs
    requires w.tabs[id].lastHeartbeatSent != Next(c, w, s).tabs[id].lastHeartbeatSent
    ensures s == Activity(id) && NoteActivity(c, w.tabs[id], w.clock).published.Some?
    ensures Next(c, w, s).tabs[id].lastHeartbeatSent == w.clock
  {
  }

  lemma DeliveredMail(w: World, id: nat, msg: Message, m: Mail)
    requires id in w.tabs && m in w.mail && m != Mail(id, msg)
    ensures m in Delivers(w, id, msg).mail
  {
  }

  lemma HeardKept(c: Config, w: World, s: Step, id: nat, time: nat)
    requires TimesInv(w) && Enabled(w, s) && id in w.tabs && id in Next(c, w, s).tabs && Heard(w, id, time)
    requires time <= w.clock
    ensures Heard(Next(c, w, s), id, time)
  {
    if s.Deliver? && Mail(id, VaultHeartbeat) in w.mail && Mail(id, VaultHeartbeat) != Mail(s.id, s.msg) {
      DeliveredMail(w, s.id, s.msg, Mail(id, VaultHeartbeat));
    }
  }

  /** A heartbeat is heard by its sender and on its way to everybody else. */
  lemma BeatHeard(c: Config, w: World, id: nat, i: nat)
    requires id in w.tabs && i in w.tabs && NoteActivity(c, w.tabs[id], w.clock).published.Some?
    ensures Heard(Acts(c, w, id), i, w.clock)
  {
  }

  lemma HeartbeatsKept(c: Config, w: World, s: Step)
    requires TimesInv(w) && HeartbeatsInv(w) && w.tabs.Keys <= w.known && Enabled(w, s)
    ensures HeartbeatsInv(Next(c, w, s))
  {
    var w' := Next(c, w, s);
    forall i, j | i in w'.tabs && j in w'.tabs ensures Heard(w', i, w'.tabs[j].lastHeartbeatSent) {
      if i in w.tabs && j in w.tabs {
        if w'.tabs[j].lastHeartbeatSent != w.tabs[j].lastHeartbeatSent {
          BeatMoves(c, w, s, j);
          BeatHeard(c, w, j, i);
        } else {
          HeardKept(c, w, s, i, w.tabs[j].lastHeartbeatSent);
        }
      }
    }
  }

  /** Activity that is not announced follows an announcement by less than an interval. */
  lemma RecentAfterActivity(c: Config, w: World, id: nat, i: nat)
    requires TimesInv(w) && HeartbeatsInv(w) && RecentInv(c, w) && id in w.tabs && i in w.tabs
    ensures Recent(c, Acts(c, w, id), i)
  {
    var t := w.tabs[id];
    if t.locked {
      assert Acts(c, w, id) == w;
      assert Recent(c, w, i);
    } else if NoteActivity(c, t, w.clock).published.Some? {
      BeatHeard(c, w, id, i);
    } else {
      assert Heard(w, i, t.lastHeartbeatSent);
    }
  }

  lemma RecentKept(c: Config, w: World, s: Step)
    requires TimesInv(w) && HeartbeatsInv(w) && RecentInv(c, w) && Enabled(w, s)
    ensures RecentInv(c, Next(c, w, s))
  {
    var w' := Next(c, w, s);
    forall i | i in w'.tabs ensures Recent(c, w', i) {
      if i in w.tabs {
        assert Recent(c, w, i);
        if s.Activity? { RecentAfterActivity(c, w, s.id, i); }
        else if Heard(w, i, w.latest) { HeardKept(c, w, s, i, w.latest); }
        else { RecordsGrow(c, w, s, i); }
      }
    }
  }

  lemma RecordsGrow(c: Config, w: World, s: Step, id: nat)
    requires TimesInv(w) && Enabled(w, s) && id in w.tabs && id in Next(c, w, s).tabs
    ensures w.tabs[id].lastActivity <= Next(c, w, s).tabs[id].lastActivity
    ensures s.Activity? || Next(c, w, s).latest == w.latest
  {
  }

  // ----- locks

  lemma HasFiredGrows(fired: seq<nat>, id: nat, other: nat)
    ensures HasFired(fired + [id], other) <==> HasFired(fired, other) || other == id
  {
    assert (fired + [id])[|fired|] == id;
    if HasFired(fired, other) {
      var k :| 0 <= k < |fired| && fired[k] == other;
      assert (fired + [id])[k] == other;
    }
  }

  lemma FiresOnce(w: World, id: nat, o: Outcome)
    requires FiredInv(w) && id in w.tabs && (o.fired <==> !w.tabs[id].locked && o.tab.locked)
    requires (w.tabs[id].locked ==> o.tab.locked)
    ensures FiredInv(Apply(w, id, o))
  {
    if o.fired {
      var fired := w.fired + [id];
      assert !HasFired(w.fired, id);
      forall other
        ensures HasFired(fired, other) <==> HasFired(w.fired, other) || other == id
      {
        HasFiredGrows(w.fired, id, other);
      }
    }
  }

  lemma FiredKept(c: Config, w: World, s: Step)
    requires FiredInv(w) && Enabled(w, s)
    ensures FiredInv(Next(c, w, s))
  {
    match s
    case Activity(id) => FiresOnce(w, id, NoteActivity(c, w.tabs[id], w.clock));
    case Deliver(id, msg) => FiresOnce(w, id, Receive(w.tabs[id], msg, w.clock));
    case Tick(id) => FiresOnce(w, id, TimerTick(c, w.tabs[id], w.clock));
    case Mount(id) => assert !HasFired(w.fired, id);
    case _ =>
  }

  /** A timer lock without an undelivered heartbeat comes at most an interval early. */
  lemma TimerNotEarly(c: Config, w: World, id: nat)
    requires RecentInv(c, w) && id in w.tabs && TimerTick(c, w.tabs[id], w.clock).fired
    requires Mail(id, VaultHeartbeat) !in w.mail
    ensures w.clock >= w.latest + c.idleMs || w.clock + c.heartbeatIntervalMs > w.latest + c.idleMs
  {
    assert Recent(c, w, id);
  }

  lemma LocksKept(c: Config, w: World, s: Step)
    requires RecentInv(c, w) && FiredInv(w) && LocksInv(c, w) && Enabled(w, s)
    ensures LocksInv(c, Next(c, w, s))
  {
    var w' := Next(c, w, s);
    if s.Tick? && TimerTick(c, w.tabs[s.id], w.clock).fired {
      TimerFires(c, w, s.id);
    } else {
      forall k | 0 <= k < |w.locks| ensures HasFired(w'.fired, w.locks[k].tab) {
        if w'.fired != w.fired { HasFiredGrows(w.fired, s.id, w.locks[k].tab); }
      }
    }
  }

  lemma TimerFires(c: Config, w: World, id: nat)
    requires RecentInv(c, w) && FiredInv(w) && LocksInv(c, w) && id in w.tabs && TimerTick(c, w.tabs[id], w.clock).fired
    ensures LocksInv(c, Ticks(c, w, id))
  {
    var w' := Ticks(c, w, id);
    if Mail(id, VaultHeartbeat) !in w.mail { TimerNotEarly(c, w, id); }
    assert !HasFired(w.fired, id);
    forall k | 0 <= k < |w'.locks| ensures HasFired(w'.fired, w'.locks[k].tab) {
      HasFiredGrows(w.fired, id, w'.locks[k].tab);
    }
  }

  lemma LocksOnce(c: Config, w: World, s: Step)
    requires Enabled(w, s)
    ensures var w' := Next(c, w, s); w.locks <= w'.locks && |w'.locks| <= |w.locks| + 1
    ensures |Next(c, w, s).locks| > |w.locks| ==> s.Tick? && TimerTick(c, w.tabs[s.id], w.clock).fired
  {
  }

  lemma AnnouncedGrows(locks: seq<TimerLock>, more: seq<TimerLock>, id: nat)
    requires locks <= more
    ensures Announced(locks, id) ==> Announced(more, id)
    ensures LockedByTimer(locks, id) ==> LockedByTimer(more, id)
  {
    if Announced(locks, id) {
      var k :| 0 <= k < |locks| && id in locks[k].audience;
      assert id in more[k].audience;
    }
    if LockedByTimer(locks, id) {
      var k :| 0 <= k < |locks| && locks[k].tab == id;
      assert more[k].tab == id;
    }
  }

  lemma ToldKept(c: Config, w: World, s: Step, id: nat)
    requires Enabled(w, s) && id in w.known && w.tabs.Keys <= w.known && Told(w, id)
    ensures Told(Next(c, w, s), id)
  {
    if s.Deliver? && Mail(id, VaultLocked) in w.mail && Mail(id, VaultLocked) != Mail(s.id, s.msg) {
      DeliveredMail(w, s.id, s.msg, Mail(id, VaultLocked));
    }
  }

  lemma AudienceTold(c: Config, w: World, s: Step)
    requires FiredInv(w) && ToldInv(w) && Enabled(w, s)
    ensures var w' := Next(c, w, s);
      forall k, id :: 0 <= k < |w'.locks| && id in w'.locks[k].audience ==> id in w'.known && Told(w', id)
  {
    var w' := Next(c, w, s);
    LocksOnce(c, w, s);
    forall k, id | 0 <= k < |w'.locks| && id in w'.locks[k].audience ensures id in w'.known && Told(w', id) {
      if k < |w.locks| {
        assert w'.locks[k] == w.locks[k];
        ToldKept(c, w, s, id);
      }
    }
  }

  /** New lock announcements come from a timer lock and go to its audience. */
  lemma NewMail(c: Config, w: World, s: Step, m: Mail)
    requires Enabled(w, s) && m in Next(c, w, s).mail && m !in w.mail && m.msg == VaultLocked
    ensures |Next(c, w, s).locks| == |w.locks| + 1 && m.to in Next(c, w, s).locks[|w.locks|].audience
  {
  }

  lemma MailAnnounced(c: Config, w: World, s: Step, m: Mail)
    requires ToldInv(w) && Enabled(w, s) && m in Next(c, w, s).mail && m.msg == VaultLocked
    ensures Announced(Next(c, w, s).locks, m.to)
  {
    LocksOnce(c, w, s);
    AnnouncedGrows(w.locks, Next(c, w, s).locks, m.to);
    if m !in w.mail { NewMail(c, w, s, m); }
  }

  lemma FiringStep(c: Config, w: World, s: Step)
    requires Enabled(w, s)
    ensures var w' := Next(c, w, s);
      || w'.fired == w.fired
      || (w'.fired == w.fired + [s.id] && s == Deliver(s.id, VaultLocked))
      || (w'.fired == w.fired + [s.id] && |w'.locks| == |w.locks| + 1 && w'.locks[|w.locks|].tab == s.id)
  {
  }

  lemma FiredExplained(c: Config, w: World, s: Step, id: nat)
    requires ToldInv(w) && Enabled(w, s) && HasFired(Next(c, w, s).fired, id)
    ensures Announced(Next(c, w, s).locks, id) || LockedByTimer(Next(c, w, s).locks, id)
  {
    var locks, fired := Next(c, w, s).locks, Next(c, w, s).fired;
    LocksOnce(c, w, s);
    FiringStep(c, w, s);
    AnnouncedGrows(w.locks, locks, id);
    if HasFired(w.fired, id) {
      var k :| 0 <= k < |w.fired| && w.fired[k] == id;
    } else {
      HasFiredGrows(w.fired, s.id, id);
    }
  }

  lemma ToldInvKept(c: Config, w: World, s: Step)
    requires FiredInv(w) && ToldInv(w) && Enabled(w, s)
    ensures ToldInv(Next(c, w, s))
  {
    var w' := Next(c, w, s);
    AudienceTold(c, w, s);
    forall m | m in w'.mail && m.msg == VaultLocked ensures Announced(w'.locks, m.to) { MailAnnounced(c, w, s, m); }
    forall k | 0 <= k < |w'.fired| ensures Announced(w'.locks, w'.fired[k]) || LockedByTimer(w'.locks, w'.fired[k]) {
      FiredExplained(c, w, s, w'.fired[k]);
    }
  }

  lemma BeatsApplied(c: Config, w: World, id: nat, o: Outcome)
    requires BeatsInv(c, w) && w.tabs.Keys <= w.known && id in w.tabs
    requires o.published == Some(VaultHeartbeat) ==>
      w.clock >= w.tabs[id].lastHeartbeatSent + c.heartbeatIntervalMs && o.tab.lastHeartbeatSent == w.clock
    requires o.published != Some(VaultHeartbeat) ==> o.tab.lastHeartbeatSent == w.tabs[id].lastHeartbeatSent
    ensures BeatsInv(c, Apply(w, id, o))
  {
  }

  lemma BeatsKept(c: Config, w: World, s: Step)
    requires BeatsInv(c, w) && w.tabs.Keys <= w.known && Enabled(w, s)
    ensures BeatsInv(c, Next(c, w, s))
  {
    match s
    case Activity(id) => BeatsApplied(c, w, id, NoteActivity(c, w.tabs[id], w.clock));
    case Deliver(id, msg) => BeatsApplied(c, w, id, Receive(w.tabs[id], msg, w.clock));
    case Tick(id) => BeatsApplied(c, w, id, TimerTick(c, w.tabs[id], w.clock));
    case _ =>
  }

  /** Every step keeps the invariant. */
  lemma NextKeepsInv(c: Config, w: World, s: Step)
    requires Inv(c, w) && Enabled(w, s)
    ensures Inv(c, Next(c, w, s))
  {
    TimesKept(c, w, s);
    HeartbeatsKept(c, w, s);
    RecentKept(c, w, s);
    FiredKept(c, w, s);
    LocksKept(c, w, s);
    ToldInvKept(c, w, s);
    BeatsKept(c, w, s);
  }

  lemma {:induction false} RunsKeepInv(c: Config, w: World, steps: seq<Step>)
    requires Inv(c, w) && Runs(c, w, steps)
    ensures Inv(c, After(c, w, steps))
    decreases |steps|
  {
    if steps != [] {
      NextKeepsInv(c, w, steps[0]);
      RunsKeepInv(c, Next(c, w, steps[0]), steps[1..]);
    }
  }

  // ----- what users see

  ghost predicate Reachable(c: Config, w: World) {
    exists clock: nat, steps :: Runs(c, Start(clock), steps) && w == After(c, Start(clock), steps)
  }

  lemma ReachableInv(c: Config, w: World)
    requires Reachable(c, w)
    ensures Inv(c, w)
  {
    var clock: nat, steps :| Runs(c, Start(clock), steps) && w == After(c, Start(clock), steps);
    RunsKeepInv(c, Start(clock), steps);
  }

  /** No tab locks by timer earlier than the idle time less one heartbeat interval after the latest
      activity in any tab, provided no heartbeat to it is undelivered at that tick. */
  lemma GroupIdleBound(c: Config, w: World, k: nat)
    requires Reachable(c, w) && k < |w.locks| && !w.locks[k].pending
    ensures w.locks[k].at + c.heartbeatIntervalMs >= w.locks[k].latest + c.idleMs
    ensures c.heartbeatIntervalMs > 0 ==> w.locks[k].at + c.heartbeatIntervalMs > w.locks[k].latest + c.idleMs
  {
    ReachableInv(c, w);
    assert NotEarly(c, w.locks[k]);
  }

  /** Each tab calls `onLock` at most once and announces a lock at most once. */
  lemma LocksAtMostOnce(c: Config, w: World)
    requires Reachable(c, w)
    ensures forall k, l :: 0 <= k < l < |w.fired| ==> w.fired[k] != w.fired[l]
    ensures forall k, l :: 0 <= k < l < |w.locks| ==> w.locks[k].tab != w.locks[l].tab
    ensures forall id :: id in w.tabs ==> (w.tabs[id].locked <==> HasFired(w.fired, id))
  {
    ReachableInv(c, w);
  }

  /** A tab publishes at most one heartbeat per interval: two of them are at least that far apart, so
      no half-open interval of that length holds both. */
  lemma HeartbeatsSpaced(c: Config, w: World, k: nat, l: nat, start: nat)
    requires Reachable(c, w) && k < l < |w.beats| && w.beats[k].tab == w.beats[l].tab
    ensures w.beats[k].at + c.heartbeatIntervalMs <= w.beats[l].at
    ensures !(start <= w.beats[k].at && w.beats[l].at < start + c.heartbeatIntervalMs)
  {
    ReachableInv(c, w);
  }

  /** Activity in an unlocked tab publishes a heartbeat exactly when the last one is an interval old. */
  lemma ActivityBeats(c: Config, w: World, id: nat)
    requires Reachable(c, w) && id in w.tabs && !w.tabs[id].locked
    ensures var v := Next(c, w, Activity(id));
      && (w.clock >= w.tabs[id].lastHeartbeatSent + c.heartbeatIntervalMs ==> v.beats == w.beats + [Beat(id, w.clock)])
      && (w.clock < w.tabs[id].lastHeartbeatSent + c.heartbeatIntervalMs ==> v.beats == w.beats)
      && v.tabs[id].lastActivity == w.clock
      && (|v.beats| > |w.beats| ==> forall k :: k in w.tabs && k != id ==> Mail(k, VaultHeartbeat) in v.mail)
  {
  }

  /** Once lock announcements are delivered, every tab that was mounted at a timer lock is locked;
      and no tab locks unless its own timer fired or such an announcement reached it. */
  lemma LockPropagates(c: Config, w: World, k: nat, id: nat)
    requires Reachable(c, w) && id in w.tabs && Mail(id, VaultLocked) !in w.mail
    ensures k < |w.locks| && id in w.locks[k].audience ==> w.tabs[id].locked
    ensures w.tabs[id].locked ==> Announced(w.locks, id) || LockedByTimer(w.locks, id)
  {
    ReachableInv(c, w);
    assert k < |w.locks| && id in w.locks[k].audience ==> Told(w, id);
    if w.tabs[id].locked {
      var f :| 0 <= f < |w.fired| && w.fired[f] == id;
    }
  }

  /** No step records activity for this tab. */
  ghost predicate QuietFor(id: nat, steps: seq<Step>) {
    forall k :: 0 <= k < |steps| ==>
      steps[k] != Activity(id) && steps[k] != Deliver(id, VaultHeartbeat) && steps[k] != Unmount(id)
  }

  lemma QuietStep(c: Config, w: World, s: Step, id: nat)
    requires w.tabs.Keys <= w.known && Enabled(w, s) && id in w.tabs
    requires s != Activity(id) && s != Deliver(id, VaultHeartbeat) && s != Unmount(id)
    ensures id in Next(c, w, s).tabs && Next(c, w, s).tabs[id].lastActivity == w.tabs[id].lastActivity
  {
  }

  lemma {:induction false} QuietRun(c: Config, w: World, steps: seq<Step>, id: nat)
    requires Inv(c, w) && Runs(c, w, steps) && id in w.tabs && QuietFor(id, steps)
    ensures id in After(c, w, steps).tabs && After(c, w, steps).tabs[id].lastActivity == w.tabs[id].lastActivity
    decreases |steps|
  {
    if steps != [] {
      QuietStep(c, w, steps[0], id);
      NextKeepsInv(c, w, steps[0]);
      QuietRun(c, Next(c, w, steps[0]), steps[1..], id);
    }
  }

  /** After a run in which a tab records no activity, a tick leaves it locked exactly when it was or
      the idle time since its last recorded activity is over. */
  lemma IdleTabLocks(c: Config, w: World, steps: seq<Step>, id: nat)
    requires Reachable(c, w) && Runs(c, w, steps) && id in w.tabs && QuietFor(id, steps)
    ensures id in After(c, w, steps).tabs
    ensures Next(c, After(c, w, steps), Tick(id)).tabs[id].locked
       <==> After(c, w, steps).tabs[id].locked || After(c, w, steps).clock >= w.tabs[id].lastActivity + c.idleMs
  {
    ReachableInv(c, w);
    QuietRun(c, w, steps, id);
  }

  lemma StepFirst(c: Config, w: World, s: Step, rest: seq<Step>)
    requires Enabled(w, s) && Runs(c, Next(c, w, s), rest)
    ensures Runs(c, w, [s] + rest) && After(c, w, [s] + rest) == After(c, Next(c, w, s), rest)
  {
    assert ([s] + rest)[1..] == rest;
  }

  /** Two tabs that were mounted together and left alone for the idle time. */
  function LeftAlone(c: Config, clock: nat): World {
    World(clock + c.idleMs, map[0 := Mounted(clock), 1 := Mounted(clock)], {0, 1}, multiset{}, 0, [], [], [])
  }

  lemma LeaveAlone(c: Config, clock: nat, rest: seq<Step>)
    requires Runs(c, LeftAlone(c, clock), rest)
    ensures var steps := [Mount(0)] + ([Mount(1)] + ([Advance(clock + c.idleMs)] + rest));
      Runs(c, Start(clock), steps) && After(c, Start(clock), steps) == After(c, LeftAlone(c, clock), rest)
  {
    var w1 := World(clock, map[0 := Mounted(clock)], {0}, multiset{}, 0, [], [], []);
    var w2 := World(clock, map[0 := Mounted(clock), 1 := Mounted(clock)], {0, 1}, multiset{}, 0, [], [], []);
    assert Next(c, Start(clock), Mount(0)) == w1 && Next(c, w1, Mount(1)) == w2;
    StepFirst(c, w2, Advance(clock + c.idleMs), rest);
    StepFirst(c, w1, Mount(1), [Advance(clock + c.idleMs)] + rest);
    StepFirst(c, Start(clock), Mount(0), [Mount(1)] + ([Advance(clock + c.idleMs)] + rest));
  }

  lemma LockInFlight(c: Config, w: World)
    requires 0 in w.tabs && 1 in w.tabs && !w.tabs[0].locked && !w.tabs[1].locked && w.locks == []
    requires w.clock >= w.tabs[1].lastActivity + c.idleMs
    requires w.clock >= w.tabs[0].lastHeartbeatSent + c.heartbeatIntervalMs
    ensures Runs(c, w, [Activity(0), Tick(1)])
    ensures var locks := After(c, w, [Activity(0), Tick(1)]).locks;
      |locks| == 1 && locks[0].pending && locks[0].at == locks[0].latest == w.clock
  {
    var w4 := Acts(c, w, 0);
    assert Mail(1, VaultHeartbeat) in w4.mail && w4.tabs[1] == w.tabs[1];
    StepFirst(c, w4, Tick(1), []);
    StepFirst(c, w, Activity(0), [Tick(1)]);
    assert [Activity(0)] + [Tick(1)] == [Activity(0), Tick(1)] && [Tick(1)] + [] == [Tick(1)];
  }

  /** The proviso is needed: with a heartbeat undelivered, a tab locks in the very moment of
      activity in another. */
  lemma LockDespiteActivity(c: Config, clock: nat)
    requires 0 < c.idleMs && c.heartbeatIntervalMs <= c.idleMs
    ensures exists w :: Reachable(c, w) && |w.locks| == 1 && w.locks[0].pending
                     && w.locks[0].at == w.locks[0].latest && !NotEarly(c, w.locks[0])
  {
    var rest := [Activity(0), Tick(1)];
    LockInFlight(c, LeftAlone(c, clock));
    LeaveAlone(c, clock, rest);
    var w := After(c, LeftAlone(c, clock), rest);
    assert Reachable(c, w);
  }
}
