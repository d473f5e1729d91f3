/** One advisory lock, many sessions: at most one live session leads, and a leader
    whose session is gone records at most one more observation. */
module Leadership {
  import opened Domain
  import opened Replication

  predicate IsLeader(n: Node) {
    !n.poller.Follower?
  }

  ghost predicate SessionsOk(s: State) {
    && s.holders <= s.live <= s.used
    && (forall a, b | a in s.holders && b in s.holders :: a == b)
    && (forall x | x in s.live :: x in s.holders)
    && (forall x | x in s.stale :: x in s.used && x !in s.live)
  }

  ghost predicate LeaderOk(s: State, i: Instance) {
    i in s.nodes && IsLeader(s.nodes[i]) ==>
      var session := s.nodes[i].poller.session;
      && session in s.used
      && (forall j | j in s.nodes && j != i && IsLeader(s.nodes[j]) :: s.nodes[j].poller.session != session)
      && (!s.nodes[i].poller.Checking? ==> Stale(s, session) == 0)
  }

  ghost predicate LeadershipOk(s: State) {
    && SessionsOk(s)
    && (forall i | i in s.nodes :: LeaderOk(s, i))
    && (forall x | x in s.stale :: s.stale[x] <= 1)
  }

  /** The lock, the sessions and each leader's place in its loop stay consistent,
      however sessions end and however polls interleave. */
  lemma StepKeepsLeadership(s: State, l: Label, now: Time)
    requires Enabled(s, l) && LeadershipOk(s)
    ensures LeadershipOk(Do(s, l, now))
  {
    var s' := Do(s, l, now);
    match l {
      case TryLead(i, session, replied) => TryingKeeps(s, i, session, replied, now);
      case CheckAlive(i) => PollingKeeps(s, l, now);
      case Resign(i) => EndingKeeps(s, l, now);
      case EndSession(session) => EndingKeeps(s, l, now);
      case StartPoll(i) => PollingKeeps(s, l, now);
      case Answer(i, available) => PollingKeeps(s, l, now);
      case Abandon(i) => PollingKeeps(s, l, now);
      case Record(i, replied) => RecordingKeeps(s, i, replied, now);
      case _ => UnrelatedKeeps(s, l, now);
    }
  }

  predicate SamePollers(s: State, s': State) {
    && s'.live == s.live && s'.holders == s.holders && s'.used == s.used && s'.stale == s.stale
    && (forall i | i in s'.nodes :: if i in s.nodes then s'.nodes[i].poller == s.nodes[i].poller
                                    else s'.nodes[i].poller.Follower?)
  }

  lemma SamePollersKeep(s: State, s': State)
    requires LeadershipOk(s) && SamePollers(s, s')
    ensures LeadershipOk(s')
  {
  }

  lemma UnrelatedKeeps(s: State, l: Label, now: Time)
    requires Enabled(s, l) && LeadershipOk(s)
    requires !(l.TryLead? || l.CheckAlive? || l.Resign? || l.EndSession? || l.StartPoll? || l.Answer? || l.Abandon?
               || l.Record?)
    ensures LeadershipOk(Do(s, l, now))
  {
    assert SamePollers(s, Do(s, l, now));
    SamePollersKeep(s, Do(s, l, now));
  }

  /** One node's poller moves on within the same session, or gives up. */
  lemma MoveKeeps(s: State, i: Instance, c: Poller)
    requires LeadershipOk(s) && i in s.nodes && IsLeader(s.nodes[i])
    requires c.Follower? || (c.session == s.nodes[i].poller.session
                             && (!c.Checking? ==> Stale(s, c.session) == 0))
    ensures LeadershipOk(WithPoller(s, i, c))
  {
  }

  lemma PollingKeeps(s: State, l: Label, now: Time)
    requires Enabled(s, l) && LeadershipOk(s)
    requires l.CheckAlive? || l.StartPoll? || l.Answer? || l.Abandon?
    ensures LeadershipOk(Do(s, l, now))
  {
    assert LeaderOk(s, l.i);
    var c := Do(s, l, now).nodes[l.i].poller;
    assert Do(s, l, now) == WithPoller(s, l.i, c);
    MoveKeeps(s, l.i, c);
  }

  lemma EndingKeeps(s: State, l: Label, now: Time)
    requires Enabled(s, l) && LeadershipOk(s)
    requires l.Resign? || l.EndSession?
    ensures LeadershipOk(Do(s, l, now))
  {
    var s1 := s;
    if l.Resign? {
      assert LeaderOk(s, l.i);
      MoveKeeps(s, l.i, Follower);
      s1 := WithPoller(s, l.i, Follower);
    }
    var session := if l.Resign? then s.nodes[l.i].poller.session else l.session;
    var s' := End(s1, session);
    forall j | j in s'.nodes
      ensures LeaderOk(s', j)
    {
      assert LeaderOk(s1, j);
    }
  }

  lemma TryingKeeps(s: State, i: Instance, session: Session, replied: bool, now: Time)
    requires Enabled(s, TryLead(i, session, replied)) && LeadershipOk(s)
    ensures LeadershipOk(Do(s, TryLead(i, session, replied), now))
  {
    var s' := Do(s, TryLead(i, session, replied), now);
    if s.holders == {} {
      assert s'.holders == {session};
      forall j | j in s'.nodes
        ensures LeaderOk(s', j)
      {
        assert LeaderOk(s, j);
      }
    }
  }

  lemma RecordingKeeps(s: State, i: Instance, replied: bool, now: Time)
    requires Enabled(s, Record(i, replied)) && LeadershipOk(s)
    ensures LeadershipOk(Do(s, Record(i, replied), now))
  {
    var s1 := NextPoll(s, i);
    assert LeaderOk(s, i);
    forall j | j in s1.nodes
      ensures LeaderOk(s1, j)
    {
      assert LeaderOk(s, j);
    }
    assert LeadershipOk(s1);
    assert SamePollers(s1, Do(s, Record(i, replied), now));
    SamePollersKeep(s1, Do(s, Record(i, replied), now));
  }

  /** At most one instance leads under a live session; an ended session has had at
      most one observation recorded under it since, and once it has, the instance's
      next action is the liveness check that makes it give up. */
  lemma LeadershipMeans(s: State)
    requires LeadershipOk(s)
    ensures forall i, j | i in s.nodes && j in s.nodes && IsLeader(s.nodes[i]) && IsLeader(s.nodes[j])
                          && s.nodes[i].poller.session in s.live && s.nodes[j].poller.session in s.live :: i == j
    ensures forall session :: Stale(s, session) <= 1
    ensures forall i | i in s.nodes && IsLeader(s.nodes[i]) && Stale(s, s.nodes[i].poller.session) == 1 ::
              && s.nodes[i].poller.Checking?
              && forall now :: Do(s, CheckAlive(i), now).nodes[i].poller.Follower?
  {
  }
}
