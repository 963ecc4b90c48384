/** `EnqueteurLiveSessionHost` with its session objects, refining the steps of LiveSessions. */
module LiveHost {
  import opened Json
  import opened LiveSessions

  class LiveSession<V, H> {
    const connectionId: Id
    const run: Id
    var phase: Phase
    var protocol: Protocol
    var locale: string
    var subscription: Option<Subscription>
    var baseline: Option<nat>
    var last: Option<Cursor<V, H>>
    /** Where the connection's handler stands; the host itself does not look at it. */
    ghost var task: Task<V, H>

    ghost function Value(): Session<V, H>
      reads this
    {
      Session(run, phase, protocol, locale, subscription, baseline, last, task)
    }

    constructor (id: Id, r: Id)
      ensures connectionId == id && Value() == NewSession(r)
    {
      connectionId, run, phase, protocol, locale := id, r, Connected, AwaitingHello, "fr";
      subscription, baseline, last, task := None, None, None, Idle;
    }

    method Greet(wellFormed: bool, to: string) returns (accepted: bool)
      modifies this
      ensures Value() == Greeted(old(Value()), wellFormed, to)
      ensures accepted <==> old(protocol) == AwaitingHello && wellFormed
    {
      accepted := protocol == AwaitingHello && wellFormed;
      if accepted {
        locale := to;
        protocol := AwaitingSubscribe;
      } else {
        task := Raised;
      }
    }

    method Join(wellFormed: bool, sub: Subscription) returns (accepted: bool)
      modifies this
      ensures Value() == Joined(old(Value()), wellFormed, sub)
      ensures accepted <==> old(protocol) == AwaitingSubscribe && wellFormed
    {
      accepted := protocol == AwaitingSubscribe && wellFormed;
      if accepted {
        subscription := Some(sub);
        phase := InSubscription;
        protocol := Subscribed;
        task := if sub.policy == OnJoin then SnapshotDue else Idle;
      } else {
        task := Raised;
      }
    }

    method MarkBaselined(c: Cursor<V, H>)
      modifies this
      ensures Value() == Baselined(old(Value()), c)
    {
      baseline, last, task := Some(c.tick), Some(c), Idle;
    }

    method Shift(c: Cursor<V, H>)
      modifies this
      ensures Value() == old(Value()).(last := Some(c))
    {
      last := Some(c);
    }

    ghost method Fail()
      modifies this`task
      ensures Value() == Raise(old(Value()))
    {
      task := Raised;
    }

    ghost method Await(c: Cursor<V, H>)
      modifies this`task
      ensures Value() == old(Value()).(task := BaselineDue(c))
    {
      task := BaselineDue(c);
    }

    method Shake()
      modifies this
      ensures Value() == old(Value()).(phase := Handshaking)
    {
      phase := Handshaking;
    }

    method End()
      modifies this
      ensures Value() == EndedSession(old(Value()))
    {
      phase, protocol := Ended, Over;
    }

    method CanStreamFrameDiff() returns (can: bool)
      ensures can == CanStream(Value())
    {
      can := protocol == Subscribed && phase == InSubscription && baseline.Some? && last.Some?;
    }
  }

  ghost predicate Holds<V, H>(s: LiveSession<V, H>, id: Id, v: Session<V, H>)
    reads s
  {
    s.connectionId == id && s.Value() == v
  }

  class LiveSessionHost<W, V, H, O> {
    const optics: Optics<W, V, H, O>
    var runs: map<Id, Run<W>>
    var sessions: map<Id, LiveSession<V, H>>
    var closedSessions: map<Id, LiveSession<V, H>>
    /** The host as a value, with all that was ever sent. */
    ghost var now: Host<W, V, H, O>

    ghost predicate KeysOk()
      reads this
    {
      && runs == now.runs
      && sessions.Keys == now.sessions.Keys && closedSessions.Keys == now.closed.Keys
      && sessions.Keys !! closedSessions.Keys && sessions.Keys + closedSessions.Keys <= now.sent.Keys
    }

    ghost predicate Valid()
      reads this, sessions.Values, closedSessions.Values
    {
      && KeysOk()
      && (forall id :: id in sessions ==> Holds(sessions[id], id, now.sessions[id]))
      && (forall id :: id in closedSessions ==> Holds(closedSessions[id], id, now.closed[id]))
    }

    constructor (e: Optics<W, V, H, O>, initial: map<Id, Run<W>>)
      ensures Valid() && optics == e && now == NewHost(initial)
    {
      optics, runs, sessions, closedSessions, now := e, initial, map[], map[], NewHost(initial);
    }

    // Only one session's fields changed, and the value says how.
    twostate lemma Updated(id: Id)
      requires old(Valid()) && id in sessions
      requires sessions == old(sessions) && closedSessions == old(closedSessions)
      requires unchanged(sessions.Values + closedSessions.Values - {sessions[id]})
      requires now.sessions == old(now).sessions[id := sessions[id].Value()]
      requires runs == now.runs && now.closed == old(now).closed && old(now).sent.Keys <= now.sent.Keys
      ensures Valid()
    {
      forall k | k in sessions ensures Holds(sessions[k], k, now.sessions[k]) {
        assert old(Holds(sessions[k], k, now.sessions[k]));
        if k != id {
          assert old(Holds(sessions[id], id, now.sessions[id]));
          assert sessions[k] in sessions.Values;
        }
      }
      forall k | k in closedSessions ensures Holds(closedSessions[k], k, now.closed[k]) {
        assert old(Holds(closedSessions[k], k, now.closed[k]));
        assert old(Holds(sessions[id], id, now.sessions[id]));
        assert closedSessions[k] in closedSessions.Values;
      }
    }

    method AttachConnection(id: Id, run: Id) returns (found: bool)
      requires Valid() && id !in now.sent
      modifies this
      ensures Valid() && now == Step(optics, old(now), Attach(id, run)) && found == (run in runs)
    {
      hide Advanced, Snapped, Commanded, Greeted, Joined, EndedSession;
      found := run in runs;
      if found {
        var s := new LiveSession(id, run);
        sessions := sessions[id := s];
        now := Step(optics, now, Attach(id, run));
        Added(id, s);
      }
    }

    // One new session was added.
    twostate lemma Added(id: Id, new s: LiveSession<V, H>)
      requires old(Valid()) && id !in old(now).sent && s.connectionId == id
      requires sessions == old(sessions)[id := s] && closedSessions == old(closedSessions)
      requires unchanged(old(sessions.Values) + closedSessions.Values)
      requires now.sessions == old(now).sessions[id := s.Value()] && now.closed == old(now).closed
      requires runs == now.runs && now.sent == old(now).sent[id := []]
      ensures Valid()
    {
      forall k | k in sessions ensures Holds(sessions[k], k, now.sessions[k]) {
        if k != id {
          assert old(Holds(sessions[k], k, now.sessions[k]));
          assert sessions[k] in old(sessions.Values);
        }
      }
      forall k | k in closedSessions ensures Holds(closedSessions[k], k, now.closed[k]) {
        assert old(Holds(closedSessions[k], k, now.closed[k]));
        assert closedSessions[k] in closedSessions.Values;
      }
    }

    method MarkHandshaking(id: Id) returns (tracked: bool)
      requires Valid() && (id in sessions ==> sessions[id].task == Idle)
      modifies this`now, sessions.Values
      ensures Valid() && now == Step(optics, old(now), Handshake(id)) && tracked == (id in sessions)
    {
      hide Advanced, Snapped, Commanded, Greeted, Joined, EndedSession;
      tracked := id in sessions;
      if tracked {
        sessions[id].Shake();
        now := Put(now, id, sessions[id].Value());
        Updated(id);
      }
    }

    method RecordViewerHello(id: Id, wellFormed: bool, locale: string) returns (accepted: bool)
      requires Valid() && (id in sessions ==> sessions[id].task == Idle)
      modifies this`now, sessions.Values
      ensures Valid() && now == Step(optics, old(now), Hello(id, wellFormed, locale))
    {
      hide Advanced, Snapped, Commanded, Greeted, Joined, EndedSession;
      accepted := id in sessions;
      if accepted {
        accepted := sessions[id].Greet(wellFormed, locale);
        now := Put(now, id, sessions[id].Value());
        Updated(id);
      }
    }

    method RecordSubscribe(id: Id, wellFormed: bool, sub: Subscription) returns (accepted: bool)
      requires Valid() && (id in sessions ==> sessions[id].task == Idle)
      modifies this`now, sessions.Values
      ensures Valid() && now == Step(optics, old(now), Subscribe(id, wellFormed, sub))
    {
      hide Advanced, Snapped, Commanded, Greeted, Joined, EndedSession;
      accepted := id in sessions;
      if accepted {
        accepted := sessions[id].Join(wellFormed, sub);
        now := Put(now, id, sessions[id].Value());
        Updated(id);
      }
    }

    method Look(s: LiveSession<V, H>, r: Run<W>) returns (c: Cursor<V, H>)
      ensures c == View(optics, r, s.Value())
    {
      var channels := if s.subscription.Some? then s.subscription.value.channels else {};
      var state := optics.view(r.world, channels, s.locale);
      c := Cursor(r.tick, optics.hash(state), state);
    }

    /** Builds the snapshot and sends it; the baseline is marked by a later step. */
    method BuildFullSnapshot(id: Id) returns (payload: Option<Message<V, H, O>>)
      requires Valid() && id in sessions && sessions[id].task == SnapshotDue
      modifies this`now, sessions.Values
      ensures Valid() && now == Step(optics, old(now), SendSnapshot(id))
      ensures payload.Some? ==> now.sent[id] == old(now).sent[id] + [payload.value]
      ensures payload.None? ==> now.sent == old(now).sent
    {
      hide Advanced, Commanded, Greeted, Joined, EndedSession, View;
      var s := sessions[id];
      if s.run in runs {
        var c := Look(s, runs[s.run]);
        payload := Some(FullSnapshot(c.tick, c.hash, c.state));
        s.Await(c);
      } else {
        payload := None;
        s.Fail();
      }
      now := Step(optics, now, SendSnapshot(id));
      Updated(id);
    }

    method MarkBaselineSent(id: Id, c: Cursor<V, H>)
      requires Valid() && id in sessions && sessions[id].task == BaselineDue(c)
      modifies this`now, sessions.Values
      ensures Valid() && now == Step(optics, old(now), MarkBaseline(id))
    {
      hide Advanced, Snapped, Commanded, Greeted, Joined, EndedSession, Baselined;
      sessions[id].MarkBaselined(c);
      now := Put(now, id, sessions[id].Value());
      Updated(id);
    }

    /** One pass of the loop: guards, the run's tick, then the check of its number. */
    method AdvanceRunnerAndBuildFrameDiff(id: Id, world: W) returns (payload: Option<Message<V, H, O>>)
      requires Valid() && id in sessions && sessions[id].task == Idle
      modifies this`now, this`runs, sessions.Values
      ensures Valid() && now == Step(optics, old(now), Advance(id, world))
      ensures payload.Some? ==> now.sent[id] == old(now).sent[id] + [payload.value]
      ensures payload.None? ==> now.sent == old(now).sent
    {
      hide Snapped, Commanded, Greeted, Joined, EndedSession, View, DiffOf, CanStream;
      payload := None;
      var s := sessions[id];
      var can := s.CanStreamFrameDiff();
      if can {
        payload := Tick(id, s, world);
        now := Step(optics, now, Advance(id, world));
        Updated(id);
      }
    }

    method Tick(id: Id, s: LiveSession<V, H>, world: W) returns (payload: Option<Message<V, H, O>>)
      requires Valid() && id in sessions && sessions[id] == s && CanStream(s.Value())
      modifies this`runs, s
      ensures var g := Advanced(optics, now, id, world);
        && g.runs == runs && g.sessions == now.sessions[id := s.Value()]
        && g.closed == now.closed && now.sent.Keys == g.sent.Keys
        && (payload.Some? ==> g.sent[id] == now.sent[id] + [payload.value]) && (payload.None? ==> g.sent == now.sent)
    {
      hide View, DiffOf;
      payload := None;
      if s.run in runs {
        var r := Run(runs[s.run].tick + 1, world);
        runs := runs[s.run := r];
        if r.tick == s.last.value.tick + 1 {
          var c := Look(s, r);
          payload := Some(DiffOf(optics, s.last.value, c));
          s.Shift(c);
        } else {
          s.Fail();
        }
      } else {
        s.Fail();
      }
    }

    method CloseConnection(id: Id)
      requires Valid()
      modifies this`now, this`sessions, this`closedSessions, sessions.Values
      ensures Valid() && now == Step(optics, old(now), Close(id))
    {
      hide Advanced, Snapped, Commanded, Greeted, Joined, EndedSession;
      if id in sessions {
        var s := sessions[id];
        s.End();
        sessions := sessions - {id};
        closedSessions := closedSessions[id := s];
        now := Step(optics, now, Close(id));
        Moved(id);
      }
    }

    // One session was moved to the closed ones.
    twostate lemma Moved(id: Id)
      requires old(Valid()) && id in old(sessions)
      requires sessions == old(sessions) - {id} && closedSessions == old(closedSessions)[id := old(sessions)[id]]
      requires unchanged(sessions.Values + old(closedSessions.Values) - {old(sessions)[id]})
      requires now.sessions == old(now).sessions - {id}
      requires now.closed == old(now).closed[id := old(sessions)[id].Value()]
      requires runs == now.runs && now.sent == old(now).sent
      ensures Valid()
    {
      assert old(Holds(sessions[id], id, now.sessions[id]));
      forall k | k in sessions ensures Holds(sessions[k], k, now.sessions[k]) {
        assert old(Holds(sessions[k], k, now.sessions[k]));
        assert sessions[k] in sessions.Values;
      }
      forall k | k in closedSessions ensures Holds(closedSessions[k], k, now.closed[k]) {
        if k != id {
          assert old(Holds(closedSessions[k], k, now.closed[k]));
          assert closedSessions[k] in old(closedSessions.Values);
        }
      }
    }

    method CleanupClosedSession(id: Id)
      requires Valid()
      modifies this`now, this`closedSessions
      ensures Valid() && now == Step(optics, old(now), Cleanup(id))
    {
      closedSessions := closedSessions - {id};
      now := Step(optics, now, Cleanup(id));
    }
  }
}
