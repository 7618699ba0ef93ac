/**
 The cross-tab idle lock (apps/web/src/app/idle-lock-coordinator.ts): one coordinator per tab, and
 any number of them on a broadcast bus that delays and reorders messages.
 */
module IdleLock {
  import opened Common

  datatype Message = VaultHeartbeat | VaultLocked

  datatype Config = Config(idleMs: nat, heartbeatIntervalMs: nat)

  /** A coordinator's fields. */
  datatype Tab = Tab(lastActivity: nat, lastHeartbeatSent: nat, locked: bool)

  /** A method's outcome: the new fields, what it published and whether it called `onLock`. */
  datatype Outcome = Outcome(tab: Tab, published: Option<Message>, fired: bool)

  function Mounted(now: nat): Tab {
    Tab(now, 0, false)
  }

  function NoteActivity(c: Config, t: Tab, now: nat): Outcome {
    if t.locked then Outcome(t, None, false)
    else if now - t.lastHeartbeatSent >= c.heartbeatIntervalMs then
      Outcome(t.(lastActivity := now, lastHeartbeatSent := now), Some(VaultHeartbeat), false)
    else Outcome(t.(lastActivity := now), None, false)
  }

  function Receive(t: Tab, msg: Message, now: nat): Outcome {
    if t.locked then Outcome(t, None, false)
    else
      match msg
      case VaultHeartbeat => Outcome(t.(lastActivity := now), None, false)
      case VaultLocked => Outcome(t.(locked := true), None, true)
  }

  function TimerTick(c: Config, t: Tab, now: nat): Outcome {
    if t.locked || now - t.lastActivity < c.idleMs then Outcome(t, None, false)
    else Outcome(t.(locked := true), Some(VaultLocked), true)
  }

  /** The coordinator as the source has it. */
  class IdleLockCoordinator {
    const config: Config
    var lastActivity: nat
    var lastHeartbeatSent: nat
    var locked: bool

    function State(): Tab
      reads this
    {
      Tab(lastActivity, lastHeartbeatSent, locked)
    }

    constructor (config: Config, now: nat)
      ensures this.config == config && State() == Mounted(now)
    {
      this.config := config;
      lastHeartbeatSent, locked := 0, false;
      lastActivity := now;
    }

    method OnActivity(now: nat) returns (published: Option<Message>)
      modifies this
      ensures Outcome(State(), published, false) == NoteActivity(config, old(State()), now)
    {
      if locked { return None; }
      lastActivity := now;
      if now - lastHeartbeatSent >= config.heartbeatIntervalMs {
        lastHeartbeatSent := now;
        return Some(VaultHeartbeat);
      }
      return None;
    }

    method OnMessage(msg: Message, now: nat) returns (fired: bool)
      modifies this
      ensures Outcome(State(), None, fired) == Receive(old(State()), msg, now)
    {
      if locked { return false; }
      if msg == VaultHeartbeat {
        lastActivity := now;
        return false;
      }
      locked := true;
      return true;
    }

    method OnTick(now: nat) returns (published: Option<Message>, fired: bool)
      modifies this
      ensures Outcome(State(), published, fired) == TimerTick(config, old(State()), now)
    {
      if locked { return None, false; }
      if now - lastActivity < config.idleMs { return None, false; }
      locked := true;
      return Some(VaultLocked), true;
    }
  }

  // ----- many tabs on one bus

  datatype Mail = Mail(to: nat, msg: Message)

  /** One lock by timer: when, the latest activity anywhere by then, whether a heartbeat to the tab
      was still undelivered, and the other tabs mounted then. */
  datatype TimerLock = TimerLock(tab: nat, at: nat, latest: nat, pending: bool, audience: set<nat>)

  /** A heartbeat a tab published. */
  datatype Beat = Beat(tab: nat, at: nat)

  /** `latest` is the time of the latest activity in an unlocked tab; `fired` lists the `onLock`
      calls in order, `beats` the heartbeats. Tab ids are never reused. */
  datatype World = World(
    clock: nat,
    tabs: map<nat, Tab>,
    known: set<nat>,
    mail: multiset<Mail>,
    latest: nat,
    locks: seq<TimerLock>,
    fired: seq<nat>,
    beats: seq<Beat>
  )

  function Start(clock: nat): World {
    World(clock, map[], {}, multiset{}, 0, [], [], [])
  }

  datatype Step =
    | Advance(now: nat)
    | Mount(id: nat)
    | Unmount(id: nat)
    | Activity(id: nat)
    | Deliver(id: nat, msg: Message)
    | Tick(id: nat)

  ghost predicate Enabled(w: World, s: Step) {
    match s
    case Advance(now) => w.clock <= now
    case Mount(id) => id !in w.known
    case Unmount(id) => id in w.tabs
    case Activity(id) => id in w.tabs
    case Deliver(id, msg) => id in w.tabs && Mail(id, msg) in w.mail
    case Tick(id) => id in w.tabs
  }

  /** A message reaches every other tab mounted when it is published. */
  function Broadcast(to: set<nat>, msg: Message): (r: multiset<Mail>)
    ensures forall m :: m in r <==> m.to in to && m.msg == msg
  {
    multiset(set id | id in to :: Mail(id, msg))
  }

  function Others(w: World, id: nat): set<nat> {
    w.tabs.Keys - {id}
  }

  function Apply(w: World, id: nat, o: Outcome): World {
    w.(tabs := w.tabs[id := o.tab],
       mail := if o.published.Some? then w.mail + Broadcast(Others(w, id), o.published.value) else w.mail,
       fired := if o.fired then w.fired + [id] else w.fired,
       beats := if o.published == Some(VaultHeartbeat) then w.beats + [Beat(id, w.clock)] else w.beats)
  }

  function Acts(c: Config, w: World, id: nat): World
    requires id in w.tabs
  {
    Apply(w, id, NoteActivity(c, w.tabs[id], w.clock)).(latest := if w.tabs[id].locked then w.latest else w.clock)
  }

  function Delivers(w: World, id: nat, msg: Message): World
    requires id in w.tabs
  {
    Apply(w.(mail := w.mail - multiset{Mail(id, msg)}), id, Receive(w.tabs[id], msg, w.clock))
  }

  function Ticks(c: Config, w: World, id: nat): World
    requires id in w.tabs
  {
    var o := TimerTick(c, w.tabs[id], w.clock);
    var lock := TimerLock(id, w.clock, w.latest, Mail(id, VaultHeartbeat) in w.mail, Others(w, id));
    Apply(w, id, o).(locks := if o.fired then w.locks + [lock] else w.locks)
  }

  ghost function Next(c: Config, w: World, s: Step): World
    requires Enabled(w, s)
  {
    match s
    case Advance(now) => w.(clock := now)
    case Mount(id) => w.(tabs := w.tabs[id := Mounted(w.clock)], known := w.known + {id})
    case Unmount(id) => w.(tabs := w.tabs - {id})
    case Activity(id) => Acts(c, w, id)
    case Deliver(id, msg) => Delivers(w, id, msg)
    case Tick(id) => Ticks(c, w, id)
  }

  ghost predicate Runs(c: Config, w: World, steps: seq<Step>)
    decreases |steps|
  {
    steps == [] || (Enabled(w, steps[0]) && Runs(c, Next(c, w, steps[0]), steps[1..]))
  }

  ghost function After(c: Config, w: World, steps: seq<Step>): World
    requires Runs(c, w, steps)
    decreases |steps|
  {
    if steps == [] then w else After(c, Next(c, w, steps[0]), steps[1..])
  }
}
