/**
 The in-process event bus as atomic steps between lock boundaries. A publish is a
 small program with a program counter; write-lock sections are single steps that
 wait until no publish holds the read lock.
 */
module BusModel {
  import opened Wrappers
  import opened Subjects

  type Id = nat
  type Pid = nat

  type Size = n: nat | n > 0 witness 64

  datatype Envelope = Envelope(subject: Subject, payload: nat)

  datatype Policy = Block | DropOldest | DropNewest | Sample(rate: real)

  /** What a subscriber asked for. */
  datatype Spec = Spec(pattern: Segments, allows: Envelope -> bool, policy: Policy, size: Size)

  /** `spec(n)` are the options of subscription n; `cacheCap` 0 switches the route cache off. */
  datatype Config = Config(spec: Id -> Spec, cacheCap: nat)

  predicate MatchesSub(cfg: Config, id: Id, subject: Subject) {
    MatchSegs(cfg.spec(id).pattern, Split(subject))
  }

  // ---------------------------------------------------------------- state

  datatype Exit = Consumed(env: Envelope) | Evicted(env: Envelope)

  /**
   One subscription. `accepted` and `out` record what entered and left the channel;
   `swept` records that a subscription close got past its wait for senders.
   */
  datatype Sub = Sub(open: bool, done: bool, swept: bool, senders: set<Pid>,
                     buf: seq<Envelope>, accepted: seq<Envelope>, out: seq<Exit>)

  const CREATED: Sub := Sub(true, false, false, {}, [], [], [])

  datatype Reason = BufferFull | Sampled | Closed
  /** `own` tells the drop of the published envelope itself from the loss of an older one it displaced. */
  datatype Drop = Drop(sub: Id, reason: Reason, own: bool)

  /** Where a publish stands. Locked to Retrying hold the read lock. */
  datatype Pc = Registered | Locked | Missed | Scanning | Sending | Evicting | Retrying | Parked | Woken | Relocking | Reporting

  /** What a publish is going to return: success, the closed-bus error, or the context's error. */
  datatype Answer = Unanswered | Served | BusGone | GaveUp

  /** A running publish: its route, the position in it, and whether it let go of the lock since resolving the route. */
  datatype Pub = Pub(env: Envelope, pc: Pc, route: seq<Id>, i: nat, stale: bool, delivers: seq<Id>, drops: seq<Drop>, answer: Answer := Unanswered)

  datatype CloserPc = Removing | Signalling | Waiting | Closing | Finished

  /** One running call of a subscription's Close. */
  datatype Closer = Closer(sub: Id, pc: CloserPc)

  datatype Shutdown =
    | Idle
    | WakingUp(subs: set<Id>, left: set<Id>)
    | ClosingChannels(left: set<Id>, waited: set<Id>)

  datatype Bus = Bus(
    closed: bool,
    registered: set<Id>,
    cache: map<Subject, seq<Id>>,
    readers: set<Pid>,
    inflight: set<Pid>,
    pubs: map<Pid, Pub>,
    subs: map<Id, Sub>,
    closers: map<nat, Closer>,
    shutdown: Shutdown,
    dropped: nat,
    reports: seq<Drop>,
    panicked: bool)

  const INIT: Bus := Bus(false, {}, map[], {}, {}, map[], map[], map[], Idle, 0, [], false)

  function SubOf(s: Bus, id: Id): Sub {
    if id in s.subs then s.subs[id] else CREATED
  }

  function Target(q: Pub): Id {
    if q.i < |q.route| then q.route[q.i] else 0
  }

  predicate Holding(pc: Pc) {
    pc.Locked? || pc.Missed? || pc.Scanning? || pc.Sending? || pc.Evicting? || pc.Retrying?
  }

  // ---------------------------------------------------------- route cache

  /** The subscriptions a full scan selects. */
  function Matching(cfg: Config, registered: set<Id>, subject: Subject): set<Id> {
    set id | id in registered && MatchesSub(cfg, id, subject)
  }

  /** A route lists a set of subscriptions in some order, each once. */
  predicate Enumerates(route: seq<Id>, ids: set<Id>) {
    && (forall id :: id in route ==> id in ids)
    && (forall id :: id in ids ==> id in route)
    && (forall i, j :: 0 <= i < j < |route| ==> route[i] != route[j])
  }

  function Stored(cfg: Config, cache: map<Subject, seq<Id>>, subject: Subject, route: seq<Id>): map<Subject, seq<Id>> {
    if cfg.cacheCap == 0 then cache
    else (if |cache| >= cfg.cacheCap then map[] else cache)[subject := route]
  }

  // -------------------------------------------------------------- publish

  /** One step of a publish: its new local state, whether it holds the read lock, its target and what it added to the dropped counter. */
  datatype Move = Move(q: Pub, sub: Sub, lost: nat, cache: map<Subject, seq<Id>>) | Panic

  /** What the environment decides: scan order, sampling, and which ready case a select takes. */
  datatype Choice = Plain | Order(route: seq<Id>) | Keep(keep: bool) | Send | Wake | Cancel

  function Enqueued(t: Sub, env: Envelope): Sub {
    t.(buf := t.buf + [env], accepted := t.accepted + [env])
  }

  function NextSub(q: Pub): Pub {
    q.(pc := Scanning, i := q.i + 1)
  }

  function Dropping(q: Pub, reason: Reason): Pub {
    q.(drops := q.drops + [Drop(Target(q), reason, true)])
  }

  function Displacing(q: Pub): Pub {
    q.(drops := q.drops + [Drop(Target(q), BufferFull, false)], pc := Retrying)
  }

  function Answering(q: Pub, answer: Answer): Pub {
    q.(pc := Reporting, answer := answer)
  }

  function Delivering(q: Pub): Pub {
    q.(delivers := q.delivers + [Target(q)])
  }

  /** A non-blocking send: panics on a closed channel, drops on a full one. */
  function TrySend(cfg: Config, s: Bus, q: Pub): Move {
    var t := SubOf(s, Target(q));
    if !t.open then Panic
    else if |t.buf| < cfg.spec(Target(q)).size then Move(NextSub(Delivering(q)), Enqueued(t, q.env), 0, s.cache)
    else Move(NextSub(Dropping(q, BufferFull)), t, 1, s.cache)
  }

  function ScanMove(cfg: Config, s: Bus, q: Pub): Move {
    var t := SubOf(s, Target(q));
    if q.i >= |q.route| then Move(Answering(q, Served), t, 0, s.cache)
    else if !cfg.spec(Target(q)).allows(q.env) then Move(NextSub(q), t, 0, s.cache)
    else if t.done then Move(NextSub(Dropping(q, Closed)), t, 0, s.cache)
    else Move(q.(pc := Sending), t, 0, s.cache)
  }

  function SendMove(cfg: Config, s: Bus, p: Pid, q: Pub, keep: bool): Move {
    var t := SubOf(s, Target(q));
    match cfg.spec(Target(q)).policy
    case Block => Move(q.(pc := Parked), t.(senders := t.senders + {p}), 0, s.cache)
    case DropNewest => TrySend(cfg, s, q)
    case DropOldest =>
      if !t.open then Panic
      else if |t.buf| < cfg.spec(Target(q)).size then TrySend(cfg, s, q)
      else Move(q.(pc := Evicting), t, 0, s.cache)
    case Sample(rate) =>
      if rate >= 1.0 || (rate > 0.0 && keep) then TrySend(cfg, s, q)
      else Move(NextSub(Dropping(q, Sampled)), t, 1, s.cache)
  }

  /** Takes the oldest envelope; a closed empty channel still yields, and counts. */
  function EvictMove(s: Bus, q: Pub): Move {
    var t := SubOf(s, Target(q));
    if t.buf != [] then
      Move(Displacing(q), t.(buf := t.buf[1..], out := t.out + [Evicted(t.buf[0])]), 1, s.cache)
    else if !t.open then Move(Displacing(q), t, 1, s.cache)
    else Move(q.(pc := Retrying), t, 0, s.cache)
  }

  /** The parked select: deliver, wake on done, or give up with the context. */
  function ParkedMove(cfg: Config, s: Bus, p: Pid, q: Pub, how: Choice): Option<Move> {
    var t := SubOf(s, Target(q));
    match how
    case Send =>
      if !t.open then Some(Panic)
      else if |t.buf| < cfg.spec(Target(q)).size then Some(Move(Delivering(q).(pc := Woken), Enqueued(t, q.env), 0, s.cache))
      else None
    case Wake => if t.done then Some(Move(Dropping(q, Closed).(pc := Woken), t, 0, s.cache)) else None
    case Cancel => Some(Move(Answering(q, GaveUp), t.(senders := t.senders - {p}), 0, s.cache))
    case _ => None
  }

  /** Resolving the route: a cached one, or a scan of the registered subscriptions. */
  function LookupMove(cfg: Config, s: Bus, q: Pub, how: Choice): Option<Move> {
    var t := SubOf(s, Target(q));
    if cfg.cacheCap > 0 && q.env.subject in s.cache then
      Some(Move(q.(pc := Scanning, route := s.cache[q.env.subject]), t, 0, s.cache))
    else if how.Order? && Enumerates(how.route, Matching(cfg, s.registered, q.env.subject)) then
      Some(Move(q.(pc := Missed, route := how.route), t, 0, s.cache))
    else None
  }

  /** The next step of publish p, if it is not blocked. A publish that meets a closed bus leaves the scan. */
  function PubMove(cfg: Config, s: Bus, p: Pid, q: Pub, how: Choice): Option<Move> {
    var t := SubOf(s, Target(q));
    match q.pc
    case Registered => Some(Move(if s.closed then Answering(q, BusGone) else q.(pc := Locked), t, 0, s.cache))
    case Locked => LookupMove(cfg, s, q, how)
    case Missed => Some(Move(q.(pc := Scanning), t, 0, Stored(cfg, s.cache, q.env.subject, q.route)))
    case Scanning => Some(ScanMove(cfg, s, q))
    case Sending => Some(SendMove(cfg, s, p, q, how.Keep? && how.keep))
    case Evicting => Some(EvictMove(s, q))
    case Retrying => Some(TrySend(cfg, s, q))
    case Parked => ParkedMove(cfg, s, p, q, how)
    case Woken => Some(Move(q.(pc := Relocking), t.(senders := t.senders - {p}), 0, s.cache))
    case Relocking => Some(Move(if s.closed then Answering(q, BusGone) else NextSub(q).(stale := true), t, 0, s.cache))
    case Reporting => None
  }

  function Moved(s: Bus, p: Pid, q: Pub, m: Move): Bus {
    match m
    case Panic => s.(panicked := true)
    case Move(q', t, lost, cache) =>
      s.(pubs := s.pubs[p := q'],
         readers := if Holding(q'.pc) then s.readers + {p} else s.readers - {p},
         subs := if Target(q) in s.subs then s.subs[Target(q) := t] else s.subs,
         dropped := s.dropped + lost,
         cache := cache)
  }

  // -------------------------------------------------------------- actions

  datatype Action =
    | Subscribe(id: Id)
    | Publish(p: Pid, env: Envelope)
    | Go(p: Pid, how: Choice)
    | Return(p: Pid)
    | Receive(id: Id)
    | CloseSub(c: nat, id: Id)
    | CloserGo(c: nat)
    | CloseBus
    | WakeUp(id: Id)
    | InflightDrained
    | SendersDrained(id: Id)
    | CloseChannel(id: Id)

  function DoSubscribe(s: Bus, id: Id): Option<Bus> {
    if s.readers == {} && !s.closed && id !in s.subs
    then Some(s.(subs := s.subs[id := CREATED], registered := s.registered + {id}, cache := map[]))
    else None
  }

  function DoPublish(s: Bus, p: Pid, env: Envelope): Option<Bus> {
    if !s.closed && p !in s.pubs
    then Some(s.(pubs := s.pubs[p := Pub(env, Registered, [], 0, false, [], [])], inflight := s.inflight + {p}))
    else None
  }

  function DoGo(cfg: Config, s: Bus, p: Pid, how: Choice): Option<Bus> {
    if p !in s.pubs then None
    else
      var m := PubMove(cfg, s, p, s.pubs[p], how);
      if m.None? then None else Some(Moved(s, p, s.pubs[p], m.value))
  }

  /** Reports to the observer and returns to the caller. */
  function DoReturn(s: Bus, p: Pid): Option<Bus> {
    if p in s.pubs && s.pubs[p].pc.Reporting?
    then Some(s.(pubs := s.pubs - {p}, inflight := s.inflight - {p}, reports := s.reports + s.pubs[p].drops))
    else None
  }

  function DoReceive(s: Bus, id: Id): Option<Bus> {
    if id in s.subs && s.subs[id].buf != []
    then
      var t := s.subs[id];
      Some(s.(subs := s.subs[id := t.(buf := t.buf[1..], out := t.out + [Consumed(t.buf[0])])]))
    else None
  }

  function DoCloseSub(s: Bus, c: nat, id: Id): Option<Bus> {
    if c !in s.closers && id in s.subs then Some(s.(closers := s.closers[c := Closer(id, Removing)])) else None
  }

  function DoRemove(s: Bus, c: nat, id: Id): Option<Bus> {
    if s.readers == {}
    then Some(s.(registered := s.registered - {id}, cache := if id in s.registered then map[] else s.cache,
                 closers := s.closers[c := Closer(id, Signalling)]))
    else None
  }

  function CloserDid(s: Bus, c: nat, id: Id, t: Sub, pc: CloserPc): Bus {
    s.(subs := s.subs[id := t], closers := s.closers[c := Closer(id, pc)])
  }

  function DoCloser(s: Bus, c: nat): Option<Bus> {
    if c !in s.closers || s.closers[c].sub !in s.subs then None
    else
      var id := s.closers[c].sub;
      var t := s.subs[id];
      match s.closers[c].pc
      case Removing => DoRemove(s, c, id)
      case Signalling => Some(CloserDid(s, c, id, t.(done := true), Waiting))
      case Waiting => if t.senders == {} then Some(CloserDid(s, c, id, t.(swept := true), Closing)) else None
      case Closing => Some(CloserDid(s, c, id, t.(open := false), Finished))
      case Finished => None
  }

  function DoCloseBus(s: Bus): Option<Bus> {
    if s.readers == {} && !s.closed
    then Some(s.(closed := true, registered := {}, cache := map[], shutdown := WakingUp(s.registered, s.registered)))
    else None
  }

  function DoWakeUp(s: Bus, id: Id): Option<Bus> {
    if s.shutdown.WakingUp? && id in s.shutdown.left && id in s.subs
    then Some(s.(subs := s.subs[id := s.subs[id].(done := true)], shutdown := WakingUp(s.shutdown.subs, s.shutdown.left - {id})))
    else None
  }

  function DoInflightDrained(s: Bus): Option<Bus> {
    if s.shutdown.WakingUp? && s.shutdown.left == {} && s.inflight == {}
    then Some(s.(shutdown := ClosingChannels(s.shutdown.subs, {})))
    else None
  }

  function DoSendersDrained(s: Bus, id: Id): Option<Bus> {
    if s.shutdown.ClosingChannels? && id in s.shutdown.left && id !in s.shutdown.waited && SubOf(s, id).senders == {}
    then Some(s.(shutdown := ClosingChannels(s.shutdown.left, s.shutdown.waited + {id})))
    else None
  }

  function DoCloseChannel(s: Bus, id: Id): Option<Bus> {
    if s.shutdown.ClosingChannels? && id in s.shutdown.left && id in s.shutdown.waited && id in s.subs
    then Some(s.(subs := s.subs[id := s.subs[id].(open := false)], shutdown := ClosingChannels(s.shutdown.left - {id}, s.shutdown.waited)))
    else None
  }

  /** One atomic step; None when it is not possible now. After a panic nothing moves. */
  function Do(cfg: Config, s: Bus, a: Action): Option<Bus> {
    if s.panicked then None
    else match a
      case Subscribe(id) => DoSubscribe(s, id)
      case Publish(p, env) => DoPublish(s, p, env)
      case Go(p, how) => DoGo(cfg, s, p, how)
      case Return(p) => DoReturn(s, p)
      case Receive(id) => DoReceive(s, id)
      case CloseSub(c, id) => DoCloseSub(s, c, id)
      case CloserGo(c) => DoCloser(s, c)
      case CloseBus => DoCloseBus(s)
      case WakeUp(id) => DoWakeUp(s, id)
      case InflightDrained => DoInflightDrained(s)
      case SendersDrained(id) => DoSendersDrained(s, id)
      case CloseChannel(id) => DoCloseChannel(s, id)
  }

  /** The state after a sequence of steps, if every one of them was possible. */
  function Run(cfg: Config, s: Bus, actions: seq<Action>): Option<Bus> {
    if actions == [] then Some(s)
    else
      var before := Run(cfg, s, actions[..|actions| - 1]);
      if before.None? then None else Do(cfg, before.value, actions[|actions| - 1])
  }

  /** Some interleaving leads from a new bus to this state. */
  ghost predicate Reachable(cfg: Config, s: Bus) {
    exists actions :: Run(cfg, INIT, actions) == Some(s)
  }
}
