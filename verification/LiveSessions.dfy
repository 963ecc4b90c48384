/** Live sessions on shared runs: the handshake, baseline and diff cursor of `api/live_ws.py`. */
module LiveSessions {
  import opened Json

  type Id = string

  datatype Phase = Connected | Handshaking | InSubscription | Ended

  datatype Protocol = AwaitingHello | AwaitingSubscribe | Subscribed | Over

  datatype Policy = OnJoin | Never

  datatype Subscription = Subscription(channels: set<string>, policy: Policy)

  /** A tick, the state a session was last given there, and its hash. */
  datatype Cursor<V, H> = Cursor(tick: nat, hash: H, state: V)

  /** Where a connection's handler stands between two suspension points. */
  datatype Task<V, H> = Idle | SnapshotDue | BaselineDue(snapshot: Cursor<V, H>) | Raised

  datatype Session<V, H> = Session(
    run: Id, phase: Phase, protocol: Protocol, locale: string, subscription: Option<Subscription>,
    baseline: Option<nat>, last: Option<Cursor<V, H>>, task: Task<V, H>)

  /** The messages that carry state. */
  datatype Message<V, H, O> =
    | FullSnapshot(tick: nat, hash: H, state: V)
    | FrameDiff(fromTick: nat, toTick: nat, prevHash: H, hash: H, ops: O)

  datatype Run<W> = Run(tick: nat, world: W)

  /** The sessions and runs of a host, and the state messages each connection has been sent. */
  datatype Host<W, V, H, O> = Host(
    runs: map<Id, Run<W>>, sessions: map<Id, Session<V, H>>, closed: map<Id, Session<V, H>>,
    sent: map<Id, seq<Message<V, H, O>>>)

  /** What a session sees of a world, its hash, and the operations between two views. */
  datatype Optics<!W, !V, !H, !O> = Optics(view: (W, set<string>, string) -> V, hash: V -> H, diff: (V, V) -> O)

  /** Whether an input command reaches the runner; a rejected one may have moved it as an accepted one does. */
  datatype Reply = Unreadable | Dispatched

  /** The stretches of host code that run without suspending; worlds after a tick or command are given. */
  datatype Event<W> =
    | Attach(id: Id, run: Id)
    | Handshake(id: Id)
    | Hello(id: Id, wellFormed: bool, locale: string)
    | Subscribe(id: Id, wellFormed: bool, subscription: Subscription)
    | SendSnapshot(id: Id)
    | MarkBaseline(id: Id)
    | Command(id: Id, reply: Reply, world: W)
    | Advance(id: Id, world: W)
    | Violation(id: Id)
    | Close(id: Id)
    | Cleanup(id: Id)
    | Evict(run: Id)

  // ---- One session ----

  predicate CanDeliver<V, H>(s: Session<V, H>) { s.protocol == Subscribed && s.phase == InSubscription }

  predicate CanStream<V, H>(s: Session<V, H>) { CanDeliver(s) && s.baseline.Some? && s.last.Some? }

  function Raise<V, H>(s: Session<V, H>): Session<V, H> { s.(task := Raised) }

  function NewSession<V, H>(run: Id): Session<V, H> {
    Session(run, Connected, AwaitingHello, "fr", None, None, None, Idle)
  }

  function Greeted<V, H>(s: Session<V, H>, wellFormed: bool, locale: string): Session<V, H> {
    if s.protocol != AwaitingHello || !wellFormed then Raise(s) else s.(locale := locale, protocol := AwaitingSubscribe)
  }

  function Joined<V, H>(s: Session<V, H>, wellFormed: bool, sub: Subscription): Session<V, H> {
    if s.protocol != AwaitingSubscribe || !wellFormed then Raise(s)
    else s.(subscription := Some(sub), phase := InSubscription, protocol := Subscribed,
            task := if sub.policy == OnJoin then SnapshotDue else Idle)
  }

  function Baselined<V, H>(s: Session<V, H>, c: Cursor<V, H>): Session<V, H> {
    s.(baseline := Some(c.tick), last := Some(c), task := Idle)
  }

  function EndedSession<V, H>(s: Session<V, H>): Session<V, H> { s.(phase := Ended, protocol := Over) }

  // What the session sees of a run: the channels it asked for, in its locale.
  function View<W, V, H, O>(e: Optics<W, V, H, O>, r: Run<W>, s: Session<V, H>): Cursor<V, H> {
    var state := e.view(r.world, if s.subscription.Some? then s.subscription.value.channels else {}, s.locale);
    Cursor(r.tick, e.hash(state), state)
  }

  function DiffOf<W, V, H, O>(e: Optics<W, V, H, O>, a: Cursor<V, H>, b: Cursor<V, H>): Message<V, H, O> {
    FrameDiff(a.tick, b.tick, a.hash, b.hash, e.diff(a.state, b.state))
  }

  // ---- One step of the host ----

  function Put<W, V, H, O>(h: Host<W, V, H, O>, id: Id, s: Session<V, H>): Host<W, V, H, O> {
    h.(sessions := h.sessions[id := s])
  }

  function Send<W, V, H, O>(h: Host<W, V, H, O>, id: Id, m: Message<V, H, O>): Host<W, V, H, O> {
    if id in h.sent then h.(sent := h.sent[id := h.sent[id] + [m]]) else h
  }

  // A handler step is possible for an open session whose handler is idle.
  predicate Ready<W, V, H, O>(h: Host<W, V, H, O>, id: Id) { id in h.sessions && h.sessions[id].task == Idle }

  function Snapped<W, V, H, O>(e: Optics<W, V, H, O>, h: Host<W, V, H, O>, id: Id): Host<W, V, H, O>
    requires id in h.sessions
  {
    var s := h.sessions[id];
    if s.run !in h.runs then Put(h, id, Raise(s))
    else
      var c := View(e, h.runs[s.run], s);
      Send(Put(h, id, s.(task := BaselineDue(c))), id, FullSnapshot(c.tick, c.hash, c.state))
  }

  /** One iteration of the diff loop: the run is advanced before its tick is checked. */
  function Advanced<W, V, H, O>(e: Optics<W, V, H, O>, h: Host<W, V, H, O>, id: Id, w: W): Host<W, V, H, O>
    requires id in h.sessions
  {
    var s := h.sessions[id];
    if !CanStream(s) then h
    else if s.run !in h.runs then Put(h, id, Raise(s))
    else
      var r := Run(h.runs[s.run].tick + 1, w);
      var g := h.(runs := h.runs[s.run := r]);
      if r.tick != s.last.value.tick + 1 then Put(g, id, Raise(s))
      else Send(Put(g, id, s.(last := Some(View(e, r, s)))), id, DiffOf(e, s.last.value, View(e, r, s)))
  }

  function Commanded<W, V, H, O>(h: Host<W, V, H, O>, id: Id, reply: Reply, w: W): Host<W, V, H, O>
    requires id in h.sessions
  {
    var s := h.sessions[id];
    if !CanDeliver(s) then Put(h, id, Raise(s))
    else if reply == Unreadable then h
    else if s.run !in h.runs then Put(h, id, Raise(s))
    else h.(runs := h.runs[s.run := h.runs[s.run].(world := w)])
  }

  function Step<W, V, H, O>(e: Optics<W, V, H, O>, h: Host<W, V, H, O>, ev: Event<W>): Host<W, V, H, O> {
    match ev
    case Attach(id, run) =>
      if run in h.runs && id !in h.sent then h.(sessions := h.sessions[id := NewSession(run)], sent := h.sent[id := []]) else h
    case Handshake(id) => if Ready(h, id) then Put(h, id, h.sessions[id].(phase := Handshaking)) else h
    case Hello(id, ok, locale) => if Ready(h, id) then Put(h, id, Greeted(h.sessions[id], ok, locale)) else h
    case Subscribe(id, ok, sub) => if Ready(h, id) then Put(h, id, Joined(h.sessions[id], ok, sub)) else h
    case SendSnapshot(id) => if id in h.sessions && h.sessions[id].task == SnapshotDue then Snapped(e, h, id) else h
    case MarkBaseline(id) =>
      if id in h.sessions && h.sessions[id].task.BaselineDue?
      then Put(h, id, Baselined(h.sessions[id], h.sessions[id].task.snapshot)) else h
    case Command(id, reply, w) => if Ready(h, id) then Commanded(h, id, reply, w) else h
    case Advance(id, w) => if Ready(h, id) then Advanced(e, h, id, w) else h
    case Violation(id) => if Ready(h, id) then Put(h, id, Raise(h.sessions[id])) else h
    case Close(id) =>
      if id in h.sessions
      then h.(sessions := h.sessions - {id}, closed := h.closed[id := EndedSession(h.sessions[id])]) else h
    case Cleanup(id) => h.(closed := h.closed - {id})
    case Evict(run) => h.(runs := h.runs - {run})
  }

  function Steps<W, V, H, O>(e: Optics<W, V, H, O>, h: Host<W, V, H, O>, evs: seq<Event<W>>): Host<W, V, H, O>
    decreases |evs|
  {
    if evs == [] then h else Steps(e, Step(e, h, evs[0]), evs[1..])
  }

  function NewHost<W, V, H, O>(runs: map<Id, Run<W>>): Host<W, V, H, O> { Host(runs, map[], map[], map[]) }

  // ---- What a connection is sent ----

  function TickOf<V, H, O>(m: Message<V, H, O>): nat { if m.FullSnapshot? then m.tick else m.toTick }

  predicate Follows<V, H(==), O>(p: Message<V, H, O>, d: Message<V, H, O>) {
    d.FrameDiff? && d.fromTick == TickOf(p) && d.toTick == d.fromTick + 1 && d.prevHash == p.hash
  }

  /** A snapshot, then diffs that each continue the message before. */
  predicate Stream<V, H(==), O>(log: seq<Message<V, H, O>>) {
    (log != [] ==> log[0].FullSnapshot?) && forall i :: 0 < i < |log| ==> Follows(log[i - 1], log[i])
  }

  /** The state a client holds after a log, given how it applies operations. */
  function Held<V, H, O>(apply: (V, O) -> V, log: seq<Message<V, H, O>>): Option<V> {
    if log == [] then None
    else
      var last := log[|log| - 1];
      if last.FullSnapshot? then Some(last.state)
      else
        var before := Held(apply, log[..|log| - 1]);
        if before.None? then None else Some(apply(before.value, last.ops))
  }

  /** The client's reading of operations undoes the host's computing of them. */
  ghost predicate Lawful<W, V(!new), H, O>(e: Optics<W, V, H, O>, apply: (V, O) -> V) {
    forall x, y :: apply(x, e.diff(x, y)) == y
  }

  // The log ends where the cursor stands, and a lawful client that has read it holds the cursor's state.
  ghost predicate EndsAt<W, V(!new), H, O>(e: Optics<W, V, H, O>, apply: (V, O) -> V, log: seq<Message<V, H, O>>, c: Cursor<V, H>) {
    && log != [] && TickOf(log[|log| - 1]) == c.tick && log[|log| - 1].hash == c.hash
    && c.hash == e.hash(c.state) && (Lawful(e, apply) ==> Held(apply, log) == Some(c.state))
  }

  predicate Unsent<V, H, O>(s: Session<V, H>, log: seq<Message<V, H, O>>) {
    log == [] && s.baseline.None? && s.last.None?
  }

  // How a session's fields and its log belong together.
  ghost predicate Consistent<W, V(!new), H, O>(
    e: Optics<W, V, H, O>, apply: (V, O) -> V, s: Session<V, H>, log: seq<Message<V, H, O>>)
  {
    && (s.protocol in {AwaitingHello, AwaitingSubscribe} ==> Unsent(s, log) && s.subscription.None? && s.task in {Idle, Raised})
    && (s.protocol == Subscribed ==> s.subscription.Some?)
    && (s.task == SnapshotDue ==> Unsent(s, log) && s.subscription.Some? && s.subscription.value.policy == OnJoin)
    && (s.task.BaselineDue? ==>
          s.last.None? && s.baseline.None? && EndsAt(e, apply, log, s.task.snapshot) && TickOf(log[0]) == s.task.snapshot.tick)
    && (s.last.Some? ==> EndsAt(e, apply, log, s.last.value) && s.baseline == Some(TickOf(log[0])))
    && (s.subscription.Some? && s.subscription.value.policy == Never ==> Unsent(s, log) && s.task in {Idle, Raised})
  }

  // The tick a session's cursor stands at, or will once its baseline is marked.
  function CursorTick<V, H>(s: Session<V, H>): Option<nat> {
    if s.task.BaselineDue? then Some(s.task.snapshot.tick)
    else if s.last.Some? then Some(s.last.value.tick) else None
  }

  predicate NotAhead<W, V, H>(runs: map<Id, Run<W>>, s: Session<V, H>) {
    s.run in runs && CursorTick(s).Some? ==> CursorTick(s).value <= runs[s.run].tick
  }

  ghost predicate SessionOk<W, V(!new), H, O>(e: Optics<W, V, H, O>, apply: (V, O) -> V, h: Host<W, V, H, O>, id: Id) {
    id in h.sessions ==>
      id in h.sent && Consistent(e, apply, h.sessions[id], h.sent[id]) && NotAhead(h.runs, h.sessions[id])
  }

  predicate StreamOk<W, V, H(==), O>(h: Host<W, V, H, O>, id: Id) { id in h.sent ==> Stream(h.sent[id]) }

  /** What holds of a connection in every interleaving. */
  ghost predicate Sound<W, V(!new), H, O>(e: Optics<W, V, H, O>, apply: (V, O) -> V, h: Host<W, V, H, O>, id: Id) {
    SessionOk(e, apply, h, id) && StreamOk(h, id)
  }

  // ---- Every step keeps every connection sound ----

  // Runs may be evicted but never go back.
  ghost predicate RunsAdvance<W>(a: map<Id, Run<W>>, b: map<Id, Run<W>>) {
    forall r :: r in b ==> r in a && a[r].tick <= b[r].tick
  }

  lemma RunsOnlyAdvance<W, V, H, O>(e: Optics<W, V, H, O>, h: Host<W, V, H, O>, ev: Event<W>)
    ensures RunsAdvance(h.runs, Step(e, h, ev).runs)
  {
    hide View, DiffOf, Greeted, Joined, Baselined, EndedSession;
  }

  function Actor<W>(ev: Event<W>): Option<Id> {
    match ev
    case Cleanup(_) => None
    case Evict(_) => None
    case _ => Some(ev.id)
  }

  /** A connection's session, if open, and its log. */
  function At<W, V, H, O>(h: Host<W, V, H, O>, id: Id): (Option<Session<V, H>>, Option<seq<Message<V, H, O>>>) {
    (if id in h.sessions then Some(h.sessions[id]) else None, if id in h.sent then Some(h.sent[id]) else None)
  }

  // A step leaves every other connection's session and log as they were.
  lemma OthersKept<W, V, H, O>(e: Optics<W, V, H, O>, h: Host<W, V, H, O>, ev: Event<W>, id: Id)
    requires Actor(ev) != Some(id)
    ensures At(Step(e, h, ev), id) == At(h, id)
  {
    hide View, DiffOf, CanStream, CanDeliver, Greeted, Joined, EndedSession;
  }

  // Sending a state takes the client to it.
  lemma SnapshotArrives<W, V(!new), H, O>(e: Optics<W, V, H, O>, apply: (V, O) -> V, c: Cursor<V, H>)
    requires c.hash == e.hash(c.state)
    ensures EndsAt(e, apply, [FullSnapshot(c.tick, c.hash, c.state)], c)
  {
  }

  lemma DiffArrives<W, V(!new), H, O>(
    e: Optics<W, V, H, O>, apply: (V, O) -> V, log: seq<Message<V, H, O>>, a: Cursor<V, H>, b: Cursor<V, H>)
    requires EndsAt(e, apply, log, a) && b.hash == e.hash(b.state)
    ensures EndsAt(e, apply, log + [DiffOf(e, a, b)], b)
  {
    var longer := log + [DiffOf(e, a, b)];
    assert longer[..|longer| - 1] == log;
    if Lawful(e, apply) {
      assert apply(a.state, e.diff(a.state, b.state)) == b.state;
    }
  }

  lemma StreamGrows<V, H, O>(log: seq<Message<V, H, O>>, d: Message<V, H, O>)
    requires Stream(log) && log != [] && Follows(log[|log| - 1], d)
    ensures Stream(log + [d])
  {
  }

  lemma SnapshotKeeps<W, V(!new), H, O>(e: Optics<W, V, H, O>, apply: (V, O) -> V, h: Host<W, V, H, O>, id: Id)
    requires Sound(e, apply, h, id) && id in h.sessions && h.sessions[id].task == SnapshotDue
    ensures Sound(e, apply, Snapped(e, h, id), id)
  {
    var s := h.sessions[id];
    if s.run in h.runs {
      SnapshotArrives(e, apply, View(e, h.runs[s.run], s));
    }
  }

  lemma AdvanceKeeps<W, V(!new), H, O>(e: Optics<W, V, H, O>, apply: (V, O) -> V, h: Host<W, V, H, O>, id: Id, w: W)
    requires Sound(e, apply, h, id) && Ready(h, id)
    ensures Sound(e, apply, Advanced(e, h, id, w), id)
  {
    var s := h.sessions[id];
    if CanStream(s) && s.run in h.runs && h.runs[s.run].tick == s.last.value.tick {
      var r := Run(h.runs[s.run].tick + 1, w);
      DiffArrives(e, apply, h.sent[id], s.last.value, View(e, r, s));
      StreamGrows(h.sent[id], DiffOf(e, s.last.value, View(e, r, s)));
    }
  }

  lemma HandlerKeeps<W, V(!new), H, O>(e: Optics<W, V, H, O>, apply: (V, O) -> V, h: Host<W, V, H, O>, ev: Event<W>, id: Id)
    requires Sound(e, apply, h, id) && Actor(ev) == Some(id)
    ensures Sound(e, apply, Step(e, h, ev), id)
  {
    hide Snapped, Advanced, View, DiffOf, Held, Lawful, EndsAt;
    match ev {
      case SendSnapshot(_) => if id in h.sessions && h.sessions[id].task == SnapshotDue { SnapshotKeeps(e, apply, h, id); }
      case Advance(_, w) => if Ready(h, id) { AdvanceKeeps(e, apply, h, id, w); }
      case _ =>
    }
  }

  /** No step of any handler breaks any connection. */
  lemma StepSound<W, V(!new), H, O>(e: Optics<W, V, H, O>, apply: (V, O) -> V, h: Host<W, V, H, O>, ev: Event<W>, id: Id)
    requires Sound(e, apply, h, id)
    ensures Sound(e, apply, Step(e, h, ev), id)
  {
    if Actor(ev) == Some(id) {
      HandlerKeeps(e, apply, h, ev, id);
    } else {
      OthersKept(e, h, ev, id);
      RunsOnlyAdvance(e, h, ev);
    }
  }

  lemma {:induction false} StepsSound<W, V(!new), H, O>(
    e: Optics<W, V, H, O>, apply: (V, O) -> V, h: Host<W, V, H, O>, evs: seq<Event<W>>, id: Id)
    requires Sound(e, apply, h, id)
    ensures Sound(e, apply, Steps(e, h, evs), id)
    decreases |evs|
  {
    if evs != [] {
      StepSound(e, apply, h, evs[0], id);
      StepsSound(e, apply, Step(e, h, evs[0]), evs[1..], id);
    }
  }

  lemma {:induction false} TicksCount<V, H, O>(log: seq<Message<V, H, O>>, k: nat)
    requires Stream(log) && k < |log|
    ensures TickOf(log[k]) == TickOf(log[0]) + k
  {
    if k > 0 {
      TicksCount(log, k - 1);
      assert Follows(log[k - 1], log[k]);
    }
  }

  /**
   In every interleaving, each connection is sent a snapshot and then diffs whose ticks count
   up from the baseline by one and whose previous hash is the hash last sent; and while the
   session is open, a lawful client that applied them holds the state whose hash was sent last.
   */
  lemma Delivered<W, V(!new), H, O>(
    e: Optics<W, V, H, O>, apply: (V, O) -> V, runs: map<Id, Run<W>>, evs: seq<Event<W>>, id: Id)
    ensures var h := Steps(e, NewHost<W, V, H, O>(runs), evs);
      && (id in h.sent ==>
            Stream(h.sent[id]) && forall k :: 0 <= k < |h.sent[id]| ==> TickOf(h.sent[id][k]) == TickOf(h.sent[id][0]) + k)
      && (id in h.sessions && h.sessions[id].last.Some? ==>
            id in h.sent && EndsAt(e, apply, h.sent[id], h.sessions[id].last.value)
            && h.sessions[id].baseline == Some(TickOf(h.sent[id][0])))
  {
    StepsSound(e, apply, NewHost<W, V, H, O>(runs), evs, id);
    var h := Steps(e, NewHost<W, V, H, O>(runs), evs);
    if id in h.sent {
      forall k | 0 <= k < |h.sent[id]| ensures TickOf(h.sent[id][k]) == TickOf(h.sent[id][0]) + k {
        TicksCount(h.sent[id], k);
      }
    }
  }

  // ---- Falling behind ----

  // The run has moved past the cursor, or is gone.
  predicate Behind<W, V, H>(runs: map<Id, Run<W>>, s: Session<V, H>) {
    CursorTick(s).Some? && (s.run in runs ==> CursorTick(s).value < runs[s.run].tick)
  }

  // Nothing more will be sent on this connection.
  predicate Stopped<W, V, H, O>(h: Host<W, V, H, O>, id: Id) {
    id in h.sent && (id in h.sessions ==>
      var s := h.sessions[id];
      || s.task == Raised
      || (&& s.protocol !in {AwaitingHello, AwaitingSubscribe} && s.task != SnapshotDue
          && (Behind(h.runs, s) || (s.task == Idle && s.last.None?))))
  }

  /**
   A turn of the loop sends a diff exactly when the session is subscribed, has its baseline,
   and its cursor stands where its run does; a session out of step is sent nothing and fails,
   yet the run has moved.
   */
  lemma InStep<W, V, H, O>(e: Optics<W, V, H, O>, h: Host<W, V, H, O>, id: Id, w: W)
    requires Ready(h, id) && id in h.sent
    ensures var s := h.sessions[id]; var g := Step(e, h, Advance(id, w));
      var streams := s.protocol == Subscribed && s.phase == InSubscription && s.baseline.Some? && s.last.Some?;
      && (|g.sent[id]| == |h.sent[id]| + 1 <==> streams && s.run in h.runs && h.runs[s.run].tick == s.last.value.tick)
      && (streams && s.run in h.runs && h.runs[s.run].tick != s.last.value.tick ==>
            g.sent == h.sent && g.sessions[id].task == Raised && g.runs[s.run] == Run(h.runs[s.run].tick + 1, w))
      && (!streams ==> g == h)
  {
  }

  /**
   What such a diff says: it leads from the state and hash last held to what the session's
   channels and locale show of the world after the tick, which is what a lawful client then
   holds and where the cursor then stands.
   */
  lemma DiffShowsTheTick<W, V(!new), H, O>(
    e: Optics<W, V, H, O>, apply: (V, O) -> V, h: Host<W, V, H, O>, id: Id, w: W)
    requires Sound(e, apply, h, id) && Current(h, id)
    ensures var s := h.sessions[id]; var g := Step(e, h, Advance(id, w)); var tick := h.runs[s.run].tick + 1;
      s.subscription.Some? &&
      var seen := e.view(w, s.subscription.value.channels, s.locale);
      && g.runs == h.runs[s.run := Run(tick, w)]
      && id in g.sent && id in g.sessions
      && g.sent[id] == h.sent[id]
           + [FrameDiff(tick - 1, tick, h.sent[id][|h.sent[id]| - 1].hash, e.hash(seen), e.diff(s.last.value.state, seen))]
      && g.sessions[id] == s.(last := Some(Cursor(tick, e.hash(seen), seen)))
      && (Lawful(e, apply) ==> Held(apply, h.sent[id]) == Some(s.last.value.state) && Held(apply, g.sent[id]) == Some(seen))
  {
    AdvanceKeeps(e, apply, h, id, w);
  }

  /** What a snapshot says: the run's tick and what the session's channels and locale show of its world. */
  lemma SnapshotShowsTheRun<W, V(!new), H, O>(e: Optics<W, V, H, O>, apply: (V, O) -> V, h: Host<W, V, H, O>, id: Id)
    requires Sound(e, apply, h, id) && id in h.sessions && h.sessions[id].task == SnapshotDue && h.sessions[id].run in h.runs
    ensures var s := h.sessions[id]; var r := h.runs[s.run]; var g := Step(e, h, SendSnapshot(id));
      var seen := e.view(r.world, s.subscription.value.channels, s.locale);
      var marked := Step(e, g, MarkBaseline(id));
      && g.runs == h.runs && id in g.sent && g.sent[id] == [FullSnapshot(r.tick, e.hash(seen), seen)]
      && id in marked.sessions && marked.sent == g.sent && marked.runs == h.runs
      && marked.sessions[id] == s.(baseline := Some(r.tick), last := Some(Cursor(r.tick, e.hash(seen), seen)), task := Idle)
  {
  }

  /** A command that reaches the runner changes its world and nothing else; one that cannot be read changes nothing. */
  lemma CommandChangesTheWorld<W, V, H, O>(e: Optics<W, V, H, O>, h: Host<W, V, H, O>, id: Id, reply: Reply, w: W)
    requires Ready(h, id)
    ensures var s := h.sessions[id]; var g := Step(e, h, Command(id, reply, w));
      if s.protocol != Subscribed || s.phase != InSubscription then g == h.(sessions := h.sessions[id := s.(task := Raised)])
      else if reply == Unreadable then g == h
      else if s.run !in h.runs then g == h.(sessions := h.sessions[id := s.(task := Raised)])
      else g == h.(runs := h.runs[s.run := Run(h.runs[s.run].tick, w)])
  {
  }

  // ---- Opening and closing ----

  /**
   Attaching opens a session in its first state, closing moves it away ended, and cleaning
   up and evicting forget one closed session or one run; each leaves all else alone.
   */
  lemma OpenedAndClosed<W, V, H, O>(e: Optics<W, V, H, O>, h: Host<W, V, H, O>, id: Id, run: Id)
    ensures Step(e, h, Attach(id, run)) ==
      if run in h.runs && id !in h.sent
      then h.(sessions := h.sessions[id := Session(run, Connected, AwaitingHello, "fr", None, None, None, Idle)],
              sent := h.sent[id := []])
      else h
    ensures id in h.sessions ==>
      var g := Step(e, h, Close(id));
      && id !in g.sessions && id in g.closed && g.closed[id] == h.sessions[id].(phase := Ended, protocol := Over)
      && (forall k :: k != id ==> At(g, k) == At(h, k) && (k in g.closed <==> k in h.closed))
      && g.runs == h.runs && g.sent == h.sent
    ensures var g := Step(e, h, Cleanup(id));
      && g.sessions == h.sessions && g.runs == h.runs && g.sent == h.sent
      && id !in g.closed && forall k :: k != id ==> (k in g.closed <==> k in h.closed) && (k in h.closed ==> g.closed[k] == h.closed[k])
    ensures var g := Step(e, h, Evict(run));
      && g.sessions == h.sessions && g.closed == h.closed && g.sent == h.sent
      && run !in g.runs && forall r :: r != run ==> (r in g.runs <==> r in h.runs) && (r in h.runs ==> g.runs[r] == h.runs[r])
  {
  }

  /** A handshake mark puts an idle session back before its subscription, and a violation fails it. */
  lemma MarkedAndFailed<W, V, H, O>(e: Optics<W, V, H, O>, h: Host<W, V, H, O>, id: Id)
    requires Ready(h, id)
    ensures Step(e, h, Handshake(id)) == h.(sessions := h.sessions[id := h.sessions[id].(phase := Handshaking)])
    ensures Step(e, h, Violation(id)) == h.(sessions := h.sessions[id := h.sessions[id].(task := Raised)])
    ensures !CanDeliver(Step(e, h, Handshake(id)).sessions[id])
  {
  }

  lemma {:induction false} StepsInTwo<W, V, H, O>(e: Optics<W, V, H, O>, h: Host<W, V, H, O>, a: seq<Event<W>>, b: seq<Event<W>>)
    ensures Steps(e, h, a + b) == Steps(e, Steps(e, h, a), b)
    decreases |a|
  {
    hide Step;
    if a == [] {
      assert a + b == b;
    } else {
      assert (a + b)[1..] == a[1..] + b;
      StepsInTwo(e, Step(e, h, a[0]), a[1..], b);
    }
  }

  predicate SaidHello<W>(evs: seq<Event<W>>, id: Id, locale: string, i: int) {
    0 <= i < |evs| && evs[i].Hello? && evs[i].id == id && evs[i].wellFormed && evs[i].locale == locale
  }

  predicate SubscribedTo<W>(evs: seq<Event<W>>, id: Id, sub: Subscription, i: int) {
    0 <= i < |evs| && evs[i].Subscribe? && evs[i].id == id && evs[i].wellFormed && evs[i].subscription == sub
  }

  // What a session has agreed to, its client has asked for in order.
  ghost predicate Agreed<W, V, H>(evs: seq<Event<W>>, id: Id, s: Session<V, H>) {
    match s.protocol
    case AwaitingHello => s.subscription.None? && s.locale == "fr"
    case AwaitingSubscribe => s.subscription.None? && exists i :: SaidHello(evs, id, s.locale, i)
    case Subscribed =>
      s.subscription.Some? && exists i, j :: SaidHello(evs, id, s.locale, i) && SubscribedTo(evs, id, s.subscription.value, j) && i < j
    case Over => false
  }

  lemma AgreedLonger<W, V, H>(evs: seq<Event<W>>, ev: Event<W>, id: Id, s: Session<V, H>)
    requires Agreed(evs, id, s)
    ensures Agreed(evs + [ev], id, s)
  {
    var longer := evs + [ev];
    if s.protocol == AwaitingSubscribe {
      var i :| SaidHello(evs, id, s.locale, i);
      assert SaidHello(longer, id, s.locale, i);
    } else if s.protocol == Subscribed {
      var i, j :| SaidHello(evs, id, s.locale, i) && SubscribedTo(evs, id, s.subscription.value, j) && i < j;
      assert SaidHello(longer, id, s.locale, i) && SubscribedTo(longer, id, s.subscription.value, j);
    }
  }

  // What one event can do to what a session has agreed to.
  ghost predicate AgreesFrom<W, V, H>(r: Session<V, H>, ev: Event<W>, id: Id, s: Session<V, H>) {
    || (s.protocol == r.protocol && s.subscription == r.subscription && s.locale == r.locale)
    || (r.protocol == AwaitingHello && ev == Hello(id, true, s.locale)
        && s.protocol == AwaitingSubscribe && s.subscription == r.subscription)
    || (r.protocol == AwaitingSubscribe && s.protocol == Subscribed && s.locale == r.locale
        && s.subscription.Some? && ev == Subscribe(id, true, s.subscription.value))
  }

  lemma AgreesByEvent<W, V, H, O>(e: Optics<W, V, H, O>, h: Host<W, V, H, O>, ev: Event<W>, id: Id)
    requires id in Step(e, h, ev).sessions && id in h.sessions && !ev.Attach?
    ensures AgreesFrom(h.sessions[id], ev, id, Step(e, h, ev).sessions[id])
  {
    if Actor(ev) != Some(id) { OthersKept(e, h, ev, id); } else { AgreesByActor(e, h, ev, id); }
    hide Step;
  }

  lemma AgreesByActor<W, V, H, O>(e: Optics<W, V, H, O>, h: Host<W, V, H, O>, ev: Event<W>, id: Id)
    requires id in Step(e, h, ev).sessions && id in h.sessions && !ev.Attach? && Actor(ev) == Some(id)
    ensures AgreesFrom(h.sessions[id], ev, id, Step(e, h, ev).sessions[id])
  {
    hide View, DiffOf, EndedSession, CanStream, CanDeliver;
  }

  lemma AgreesAtFirst<W, V, H, O>(e: Optics<W, V, H, O>, h: Host<W, V, H, O>, ev: Event<W>, id: Id)
    requires id in Step(e, h, ev).sessions && (id !in h.sessions || ev.Attach?)
    ensures var s := Step(e, h, ev).sessions[id];
      || (s.protocol == AwaitingHello && s.subscription.None? && s.locale == "fr")
      || (id in h.sessions && s == h.sessions[id])
  {
    if Actor(ev) != Some(id) { OthersKept(e, h, ev, id); }
    hide View, DiffOf, EndedSession, CanStream, CanDeliver, Greeted, Joined, Snapped, Advanced, Commanded;
  }

  lemma {:induction false} AgreedAlong<W, V, H, O>(e: Optics<W, V, H, O>, runs: map<Id, Run<W>>, evs: seq<Event<W>>, id: Id)
    ensures var h := Steps(e, NewHost<W, V, H, O>(runs), evs); id in h.sessions ==> Agreed(evs, id, h.sessions[id])
    decreases |evs|
  {
    hide Step, Agreed;
    if evs != [] {
      var n := |evs| - 1;
      var most, ev := evs[..n], evs[n];
      assert evs == most + [ev] && [ev][1..] == [];
      AgreedAlong<W, V, H, O>(e, runs, most, id);
      StepsInTwo(e, NewHost<W, V, H, O>(runs), most, [ev]);
      var h := Steps(e, NewHost<W, V, H, O>(runs), most);
      assert Steps(e, h, [ev]) == Step(e, h, ev);
      if id in Step(e, h, ev).sessions { AgreedNext(e, h, most, ev, id); }
    }
  }

  lemma AgreedNext<W, V, H, O>(e: Optics<W, V, H, O>, h: Host<W, V, H, O>, most: seq<Event<W>>, ev: Event<W>, id: Id)
    requires id in Step(e, h, ev).sessions && (id in h.sessions ==> Agreed(most, id, h.sessions[id]))
    ensures Agreed(most + [ev], id, Step(e, h, ev).sessions[id])
  {
    hide Step;
    if id in h.sessions && !ev.Attach? { AgreesByEvent(e, h, ev, id); } else { AgreesAtFirst(e, h, ev, id); }
    var s := Step(e, h, ev).sessions[id];
    var evs := most + [ev];
    if id in h.sessions {
      AgreedLonger(most, ev, id, h.sessions[id]);
      if ev == Hello(id, true, s.locale) { assert SaidHello(evs, id, s.locale, |most|); }
      if s.subscription.Some? && ev == Subscribe(id, true, s.subscription.value) {
        assert SubscribedTo(evs, id, s.subscription.value, |most|);
        if h.sessions[id].protocol == AwaitingSubscribe {
          var i :| SaidHello(most, id, h.sessions[id].locale, i);
          assert SaidHello(evs, id, h.sessions[id].locale, i) && i < |most|;
        }
      }
    }
  }

  /**
   In every interleaving a session that can be sent state was greeted in its locale and
   then subscribed to its channels and policy, by well-formed requests, in that order.
   */
  lemma SubscribedInOrder<W, V, H, O>(e: Optics<W, V, H, O>, runs: map<Id, Run<W>>, evs: seq<Event<W>>, id: Id)
    ensures var h := Steps(e, NewHost<W, V, H, O>(runs), evs);
      id in h.sessions && CanDeliver(h.sessions[id]) ==>
        h.sessions[id].subscription.Some? && exists i, j ::
          SaidHello(evs, id, h.sessions[id].locale, i) && SubscribedTo(evs, id, h.sessions[id].subscription.value, j) && i < j
  {
    AgreedAlong<W, V, H, O>(e, runs, evs, id);
  }

  // ---- Staying in step ----

  /** An open, idle, streaming session whose cursor stands where its run does. */
  predicate Current<W, V, H, O>(h: Host<W, V, H, O>, id: Id) {
    && Ready(h, id) && CanStream(h.sessions[id]) && id in h.sent
    && h.sessions[id].run in h.runs && h.runs[h.sessions[id].run].tick == h.sessions[id].last.value.tick
  }

  // Events that move no run but by `id`, evict none, and do not renegotiate or close `id`.
  predicate Undisturbed<W>(ev: Event<W>, id: Id) {
    match ev
    case Advance(i, _) => i == id
    case Evict(_) => false
    case Handshake(i) => i != id
    case Hello(i, _, _) => i != id
    case Subscribe(i, _, _) => i != id
    case Violation(i) => i != id
    case Close(i) => i != id
    case _ => true
  }

  function Turns<W>(evs: seq<Event<W>>, id: Id): nat {
    if evs == [] then 0 else (if evs[0].Advance? && evs[0].id == id then 1 else 0) + Turns(evs[1..], id)
  }

  // An event that is not the session's own, and moves no run, keeps all ticks.
  lemma TicksKept<W, V, H, O>(e: Optics<W, V, H, O>, h: Host<W, V, H, O>, ev: Event<W>, run: Id)
    requires !ev.Advance? && !ev.Evict? && run in h.runs
    ensures run in Step(e, h, ev).runs && Step(e, h, ev).runs[run].tick == h.runs[run].tick
  {
    hide View, DiffOf, Greeted, Joined, Baselined, EndedSession, CanStream;
  }

  lemma CurrentActor<W, V, H, O>(e: Optics<W, V, H, O>, h: Host<W, V, H, O>, ev: Event<W>, id: Id)
    requires Current(h, id) && Undisturbed(ev, id) && Actor(ev) == Some(id)
    ensures Current(Step(e, h, ev), id) && |Step(e, h, ev).sent[id]| == |h.sent[id]| + (if ev.Advance? then 1 else 0)
  {
    hide DiffOf, Greeted, Joined, EndedSession;
  }

  lemma CurrentStep<W, V, H, O>(e: Optics<W, V, H, O>, h: Host<W, V, H, O>, ev: Event<W>, id: Id)
    requires Current(h, id) && Undisturbed(ev, id)
    ensures Current(Step(e, h, ev), id) && |Step(e, h, ev).sent[id]| == |h.sent[id]| + Turns([ev], id)
  {
    hide Step, CanStream;
    if Actor(ev) == Some(id) {
      CurrentActor(e, h, ev, id);
    } else {
      OthersKept(e, h, ev, id);
      TicksKept(e, h, ev, h.sessions[id].run);
    }
  }

  /** While nobody else moves the run, whatever else other sessions do, every turn sends a diff. */
  lemma {:induction false} LoneSessionStreams<W, V, H, O>(e: Optics<W, V, H, O>, h: Host<W, V, H, O>, evs: seq<Event<W>>, id: Id)
    requires Current(h, id) && forall ev :: ev in evs ==> Undisturbed(ev, id)
    ensures Current(Steps(e, h, evs), id) && |Steps(e, h, evs).sent[id]| == |h.sent[id]| + Turns(evs, id)
    decreases |evs|
  {
    if evs != [] {
      CurrentStep(e, h, evs[0], id);
      LoneSessionStreams(e, Step(e, h, evs[0]), evs[1..], id);
    }
  }

  // The steps of a well-behaved client that asks for a snapshot on joining.
  function Joining<W>(id: Id, run: Id, locale: string, channels: set<string>): seq<Event<W>> {
    [Attach(id, run), Hello(id, true, locale), Subscribe(id, true, Subscription(channels, OnJoin)), SendSnapshot(id), MarkBaseline(id)]
  }

  lemma HandshakeDone<W, V, H, O>(
    e: Optics<W, V, H, O>, h: Host<W, V, H, O>, id: Id, run: Id, locale: string, sub: Subscription)
    requires run in h.runs && id !in h.sent
    ensures var g := Step(e, Step(e, Step(e, h, Attach(id, run)), Hello(id, true, locale)), Subscribe(id, true, sub));
      && g.runs == h.runs && At(g, id) == (Some(Joined(Greeted(NewSession(run), true, locale), true, sub)), Some([]))
  {
    hide Snapped, Advanced, Commanded, Greeted, Joined;
    var g := Step(e, Step(e, h, Attach(id, run)), Hello(id, true, locale));
    assert g.sessions[id] == Greeted(NewSession(run), true, locale) by { GreetedIdle<V, H>(run, locale); }
    GreetedIdle<V, H>(run, locale);
  }

  lemma GreetedIdle<V, H>(run: Id, locale: string)
    ensures Greeted(NewSession<V, H>(run), true, locale).task == Idle
  {
  }

  lemma SnapshotThenMark<W, V, H, O>(e: Optics<W, V, H, O>, h: Host<W, V, H, O>, id: Id)
    requires id in h.sessions && id in h.sent && h.sessions[id].run in h.runs
    requires h.sessions[id].task == SnapshotDue && CanDeliver(h.sessions[id]) && h.sent[id] == []
    ensures var g := Step(e, Step(e, h, SendSnapshot(id)), MarkBaseline(id));
      var c := View(e, h.runs[h.sessions[id].run], h.sessions[id]);
      Current(g, id) && g.runs == h.runs && g.sent[id] == [FullSnapshot(c.tick, c.hash, c.state)]
  {
    hide Advanced, Commanded, Greeted, Joined;
  }

  /** A client that follows the handshake to the end is sent the run's state and is then in step with it. */
  lemma JoiningLeadsToStreaming<W, V, H, O>(
    e: Optics<W, V, H, O>, h: Host<W, V, H, O>, id: Id, run: Id, locale: string, channels: set<string>)
    requires run in h.runs && id !in h.sent
    ensures var g := Steps(e, h, Joining<W>(id, run, locale, channels)); var state := e.view(h.runs[run].world, channels, locale);
      Current(g, id) && g.runs == h.runs && g.sent[id] == [FullSnapshot(h.runs[run].tick, e.hash(state), state)]
  {
    hide Step, Steps;
    FiveSteps(e, h, Joining<W>(id, run, locale, channels));
    var sub := Subscription(channels, OnJoin);
    HandshakeDone(e, h, id, run, locale, sub);
    SnapshotThenMark(e, Step(e, Step(e, Step(e, h, Attach(id, run)), Hello(id, true, locale)), Subscribe(id, true, sub)), id);
  }

  lemma FiveSteps<W, V, H, O>(e: Optics<W, V, H, O>, h: Host<W, V, H, O>, evs: seq<Event<W>>)
    requires |evs| == 5
    ensures Steps(e, h, evs) == Step(e, Step(e, Step(e, Step(e, Step(e, h, evs[0]), evs[1]), evs[2]), evs[3]), evs[4])
  {
    hide Step;
    var h1 := Step(e, h, evs[0]);
    var h2 := Step(e, h1, evs[1]);
    var h3 := Step(e, h2, evs[2]);
    var h4 := Step(e, h3, evs[3]);
    assert Steps(e, h, evs) == Steps(e, h1, evs[1..]);
    assert Steps(e, h1, evs[1..]) == Steps(e, h2, evs[2..]) by { assert evs[1..][1..] == evs[2..]; }
    assert Steps(e, h2, evs[2..]) == Steps(e, h3, evs[3..]) by { assert evs[2..][1..] == evs[3..]; }
    assert Steps(e, h3, evs[3..]) == Steps(e, h4, evs[4..]) by { assert evs[3..][1..] == evs[4..]; }
    assert Steps(e, h4, evs[4..]) == Step(e, h4, evs[4]) by { assert evs[4..][1..] == []; }
  }

  /** A handler that failed can only close its connection, which changes nothing else of it. */
  lemma RaisedOnlyCloses<W, V, H, O>(e: Optics<W, V, H, O>, h: Host<W, V, H, O>, ev: Event<W>, id: Id)
    requires id in h.sessions && h.sessions[id].task == Raised && id in h.sent
    ensures var g := Step(e, h, ev);
      if ev == Close(id) then id !in g.sessions && id in g.closed && g.closed[id] == EndedSession(h.sessions[id]) && g.sent == h.sent
      else At(g, id) == At(h, id)
  {
    if Actor(ev) != Some(id) {
      OthersKept(e, h, ev, id);
    }
  }

  lemma StoppedActor<W, V, H, O>(e: Optics<W, V, H, O>, h: Host<W, V, H, O>, ev: Event<W>, id: Id)
    requires Stopped(h, id) && Actor(ev) == Some(id)
    ensures Stopped(Step(e, h, ev), id) && Step(e, h, ev).sent[id] == h.sent[id]
  {
  }

  lemma StoppedStep<W, V, H, O>(e: Optics<W, V, H, O>, h: Host<W, V, H, O>, ev: Event<W>, id: Id)
    requires Stopped(h, id)
    ensures Stopped(Step(e, h, ev), id) && Step(e, h, ev).sent[id] == h.sent[id]
  {
    if Actor(ev) == Some(id) {
      StoppedActor(e, h, ev, id);
    } else {
      OthersKept(e, h, ev, id);
      RunsOnlyAdvance(e, h, ev);
    }
  }

  /** A stopped connection is never sent anything again. */
  lemma {:induction false} StoppedForGood<W, V, H, O>(e: Optics<W, V, H, O>, h: Host<W, V, H, O>, evs: seq<Event<W>>, id: Id)
    requires Stopped(h, id)
    ensures Stopped(Steps(e, h, evs), id) && Steps(e, h, evs).sent[id] == h.sent[id]
    decreases |evs|
  {
    if evs != [] {
      StoppedStep(e, h, evs[0], id);
      StoppedForGood(e, Step(e, h, evs[0]), evs[1..], id);
    }
  }

  /** A closed connection is never sent anything again, whether or not it has been cleaned up. */
  lemma ClosedForGood<W, V, H, O>(e: Optics<W, V, H, O>, h: Host<W, V, H, O>, evs: seq<Event<W>>, id: Id)
    requires id in h.sent
    ensures var g := Steps(e, Step(e, h, Close(id)), evs); id in g.sent && g.sent[id] == h.sent[id] && id !in g.sessions
  {
    StoppedForGood(e, Step(e, h, Close(id)), evs, id);
    NeverBack(e, Step(e, h, Close(id)), evs, id);
  }

  lemma {:induction false} NeverBack<W, V, H, O>(e: Optics<W, V, H, O>, h: Host<W, V, H, O>, evs: seq<Event<W>>, id: Id)
    requires id in h.sent && id !in h.sessions
    ensures id !in Steps(e, h, evs).sessions
    decreases |evs|
  {
    hide View, DiffOf, Greeted, Joined, Baselined, EndedSession, CanStream;
    if evs != [] {
      NeverBack(e, Step(e, h, evs[0]), evs[1..], id);
    }
  }

  /** A session that subscribes with snapshot policy NEVER is sent nothing, whatever follows. */
  lemma NeverMeansNothing<W, V(!new), H, O>(
    e: Optics<W, V, H, O>, apply: (V, O) -> V, h: Host<W, V, H, O>, id: Id, sub: Subscription, evs: seq<Event<W>>)
    requires Sound(e, apply, h, id) && Ready(h, id) && h.sessions[id].protocol == AwaitingSubscribe && sub.policy == Never
    ensures var g := Steps(e, Step(e, h, Subscribe(id, true, sub)), evs); id in g.sent && g.sent[id] == []
  {
    StoppedForGood(e, Step(e, h, Subscribe(id, true, sub)), evs, id);
  }

  /**
   At most one session of a run keeps streaming: once one of them has moved the run, whether
   or not it was sent a diff for it, no other session of that run that already has its
   snapshot is ever sent another diff, in any continuation.
   */
  lemma OthersStop<W, V(!new), H, O>(
    e: Optics<W, V, H, O>, apply: (V, O) -> V, h: Host<W, V, H, O>, id: Id, w: W, other: Id, evs: seq<Event<W>>)
    requires Sound(e, apply, h, other) && Ready(h, id) && CanStream(h.sessions[id]) && h.sessions[id].run in h.runs
    requires other in h.sessions && other != id && h.sessions[other].run == h.sessions[id].run
    requires CursorTick(h.sessions[other]).Some?
    ensures var g := Steps(e, Step(e, h, Advance(id, w)), evs); other in g.sent && g.sent[other] == h.sent[other]
  {
    var g := Step(e, h, Advance(id, w));
    assert g.runs[h.sessions[id].run].tick == h.runs[h.sessions[id].run].tick + 1;
    OthersKept(e, h, Advance(id, w), other);
    StoppedForGood(e, g, evs, other);
  }

  /** So a session out of step stops them all: after its failed turn no session with a snapshot streams again. */
  lemma FailureStopsAll<W, V(!new), H, O>(
    e: Optics<W, V, H, O>, apply: (V, O) -> V, h: Host<W, V, H, O>, id: Id, w: W, any: Id, evs: seq<Event<W>>)
    requires Sound(e, apply, h, any) && Ready(h, id) && id in h.sent && CanStream(h.sessions[id])
    requires h.sessions[id].run in h.runs && h.runs[h.sessions[id].run].tick != h.sessions[id].last.value.tick
    requires any in h.sessions && h.sessions[any].run == h.sessions[id].run && CursorTick(h.sessions[any]).Some?
    ensures var g := Steps(e, Step(e, h, Advance(id, w)), evs); any in g.sent && g.sent[any] == h.sent[any]
  {
    if any == id {
      StoppedForGood(e, Step(e, h, Advance(id, w)), evs, id);
    } else {
      OthersStop(e, apply, h, id, w, any, evs);
    }
  }
}
