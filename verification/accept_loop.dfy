/** The SOCKS accept task (serve_socks_with in src/lib.rs): a biased select loop over shutdown,
    new peers and finished connections, and the drain that follows it. What each wake-up finds
    ready, and how each remaining task ends, comes from the environment. */
module AcceptLoop {
  import opened Optional

  /** How a connection task ended when it was joined. */
  datatype Ending = Done | Failed(cancelled: bool, error: nat)

  datatype Accept = Peer | AcceptError(error: nat)

  /** A connection of the join set, by its position, and its ending. */
  datatype Join = Join(pick: nat, ending: Ending)

  /** What is ready when the select polls its branches, in their order. */
  datatype Poll = Poll(shutdown: bool, accept: Option<Accept>, join: Option<Join>)

  datatype Entry =
    | Spawned(id: nat)
    | AcceptFailed(error: nat)
    | Joined(id: nat, ending: Ending)
    | ListenerClosed
    | AbortedAll
    | TerminalSent

  datatype Outcome = Serving | Success | Failure(error: nat)

  datatype State = State(connections: seq<nat>, next: nat, log: seq<Entry>, outcome: Outcome)

  const Start := State([], 0, [], Serving)

  function Without(s: seq<nat>, i: nat): seq<nat>
    requires i < |s|
  {
    s[..i] + s[i + 1..]
  }

  /** join_next takes the connection the environment picks. */
  function JoinOne(s: State, j: Join): State
    requires s.connections != []
  {
    var i := j.pick % |s.connections|;
    s.(connections := Without(s.connections, i), log := s.log + [Joined(s.connections[i], j.ending)])
  }

  /** One turn of the select loop. */
  function OnPoll(s: State, p: Poll): State {
    if p.shutdown then s.(outcome := Success)
    else if p.accept == Some(Peer) then
      s.(connections := s.connections + [s.next], next := s.next + 1, log := s.log + [Spawned(s.next)])
    else if p.accept.Some? then
      s.(log := s.log + [AcceptFailed(p.accept.value.error)], outcome := Failure(p.accept.value.error))
    else if p.join.Some? && s.connections != [] then
      var t := JoinOne(s, p.join.value);
      if p.join.value.ending.Failed? then t.(outcome := Failure(p.join.value.ending.error)) else t
    else s
  }

  function Serve(s: State, polls: seq<Poll>): State
    decreases |polls|
  {
    if polls == [] || !s.outcome.Serving? then s else Serve(OnPoll(s, polls[0]), polls[1..])
  }

  function Close(s: State): State {
    s.(log := s.log + [ListenerClosed, AbortedAll])
  }

  /** One turn of the drain: a failure that is no cancellation is kept if it is the first. */
  function DrainOne(s: State, j: Join): State
    requires s.connections != []
  {
    var t := JoinOne(s, j);
    if j.ending.Failed? && !j.ending.cancelled && t.outcome.Success? then t.(outcome := Failure(j.ending.error)) else t
  }

  function Drain(s: State, joins: nat -> Join): State
    decreases |s.connections|
  {
    if s.connections == [] then s else Drain(DrainOne(s, joins(|s.connections|)), joins)
  }

  /** The whole accept task; while no poll has ended the loop it is still serving. */
  function Task(polls: seq<Poll>, joins: nat -> Join): State {
    var s := Serve(Start, polls);
    if s.outcome.Serving? then s
    else
      var t := Drain(Close(s), joins);
      t.(log := t.log + [TerminalSent])
  }

  // ---------------------------------------------------------------- every connection is joined

  function SpawnedIds(log: seq<Entry>): multiset<nat> {
    if log == [] then multiset{}
    else SpawnedIds(log[..|log| - 1]) + (if log[|log| - 1].Spawned? then multiset{log[|log| - 1].id} else multiset{})
  }

  function JoinedIds(log: seq<Entry>): multiset<nat> {
    if log == [] then multiset{}
    else JoinedIds(log[..|log| - 1]) + (if log[|log| - 1].Joined? then multiset{log[|log| - 1].id} else multiset{})
  }

  lemma IdsAppend(log: seq<Entry>, e: Entry)
    ensures SpawnedIds(log + [e]) == SpawnedIds(log) + (if e.Spawned? then multiset{e.id} else multiset{})
    ensures JoinedIds(log + [e]) == JoinedIds(log) + (if e.Joined? then multiset{e.id} else multiset{})
  {
    assert (log + [e])[..|log|] == log;
  }

  lemma WithoutOne(s: seq<nat>, i: nat)
    requires i < |s|
    ensures multiset(Without(s, i)) + multiset{s[i]} == multiset(s)
  {
    assert s == s[..i] + [s[i]] + s[i + 1..];
  }

  /** Spawned connections are joined or still in the set, and no name is spawned twice. */
  predicate Balanced(s: State) {
    && SpawnedIds(s.log) == JoinedIds(s.log) + multiset(s.connections)
    && forall id :: id in SpawnedIds(s.log) ==> id < s.next && SpawnedIds(s.log)[id] == 1
  }

  lemma JoinBalances(s: State, j: Join)
    requires Balanced(s) && s.connections != []
    ensures Balanced(JoinOne(s, j))
  {
    var i := j.pick % |s.connections|;
    IdsAppend(s.log, Joined(s.connections[i], j.ending));
    WithoutOne(s.connections, i);
  }

  /** One new name on both sides of the balance. */
  lemma NameAdded(spawned: multiset<nat>, joined: multiset<nat>, connections: seq<nat>, next: nat)
    requires spawned == joined + multiset(connections) && next !in spawned
    ensures spawned + multiset{next} == joined + multiset(connections + [next])
    ensures forall id :: id in spawned + multiset{next} ==>
              (id == next || id in spawned) && (spawned + multiset{next})[id] == (if id == next then 1 else spawned[id])
  {
  }

  lemma SpawnBalances(s: State)
    requires Balanced(s)
    ensures Balanced(s.(connections := s.connections + [s.next], next := s.next + 1, log := s.log + [Spawned(s.next)]))
  {
    hide SpawnedIds, JoinedIds;
    IdsAppend(s.log, Spawned(s.next));
    NameAdded(SpawnedIds(s.log), JoinedIds(s.log), s.connections, s.next);
  }

  lemma PollBalances(s: State, p: Poll)
    requires Balanced(s)
    ensures Balanced(OnPoll(s, p))
  {
    hide SpawnedIds, JoinedIds;
    if !p.shutdown {
      if p.accept == Some(Peer) {
        SpawnBalances(s);
      } else if p.accept.Some? {
        IdsAppend(s.log, AcceptFailed(p.accept.value.error));
      } else if p.join.Some? && s.connections != [] {
        JoinBalances(s, p.join.value);
      }
    }
  }

  lemma {:induction false} ServeBalances(s: State, polls: seq<Poll>)
    requires Balanced(s)
    ensures Balanced(Serve(s, polls))
    decreases |polls|
  {
    if polls != [] && s.outcome.Serving? {
      PollBalances(s, polls[0]);
      ServeBalances(OnPoll(s, polls[0]), polls[1..]);
    }
  }

  lemma {:induction false} DrainBalances(s: State, joins: nat -> Join)
    requires Balanced(s)
    ensures Balanced(Drain(s, joins)) && Drain(s, joins).connections == []
    decreases |s.connections|
  {
    if s.connections != [] {
      JoinBalances(s, joins(|s.connections|));
      DrainBalances(DrainOne(s, joins(|s.connections|)), joins);
    }
  }

  lemma CloseBalances(s: State)
    requires Balanced(s)
    ensures Balanced(Close(s))
  {
    IdsAppend(s.log, ListenerClosed);
    IdsAppend(s.log + [ListenerClosed], AbortedAll);
    assert s.log + [ListenerClosed, AbortedAll] == s.log + [ListenerClosed] + [AbortedAll];
  }

  lemma DrainOneBalances(s: State, j: Join)
    requires Balanced(s) && s.connections != []
    ensures Balanced(DrainOne(s, j))
  {
    JoinBalances(s, j);
  }

  lemma EndBalances(s: State)
    requires Balanced(s) && s.connections == []
    ensures Balanced(s.(log := s.log + [TerminalSent]))
    ensures SpawnedIds(s.log + [TerminalSent]) == JoinedIds(s.log + [TerminalSent])
  {
    IdsAppend(s.log, TerminalSent);
  }

  /** When the terminal signal is sent, every connection ever spawned has been joined, once. */
  lemma TerminalMeansJoined(polls: seq<Poll>, joins: nat -> Join)
    requires TerminalSent in Task(polls, joins).log
    ensures var t := Task(polls, joins);
      t.log[|t.log| - 1] == TerminalSent && t.connections == [] && SpawnedIds(t.log) == JoinedIds(t.log)
      && forall id :: id in SpawnedIds(t.log) ==> JoinedIds(t.log)[id] == 1
  {
    var s := Serve(Start, polls);
    ServeBalances(Start, polls);
    ServeLogs(Start, polls);
    CloseBalances(s);
    DrainBalances(Close(s), joins);
    hide Serve, Drain, SpawnedIds, JoinedIds, Balanced, Close;
    EndBalances(Drain(Close(s), joins));
    JoinedOnce(Drain(Close(s), joins).(log := Drain(Close(s), joins).log + [TerminalSent]));
  }

  lemma JoinedOnce(s: State)
    requires Balanced(s) && s.connections == []
    ensures forall id :: id in SpawnedIds(s.log) ==> JoinedIds(s.log)[id] == 1
  {
    hide SpawnedIds, JoinedIds;
  }

  // ---------------------------------------------------------------- nobody enters after shutdown

  predicate LoopEntry(e: Entry) {
    e.Spawned? || e.AcceptFailed? || e.Joined?
  }

  lemma {:induction false} ServeLogs(s: State, polls: seq<Poll>)
    requires forall e :: e in s.log ==> LoopEntry(e)
    ensures forall e :: e in Serve(s, polls).log ==> LoopEntry(e)
    decreases |polls|
  {
    if polls != [] && s.outcome.Serving? { ServeLogs(OnPoll(s, polls[0]), polls[1..]); }
  }

  /** The drain only joins. */
  lemma {:induction false} DrainLogs(s: State, joins: nat -> Join)
    ensures |s.log| <= |Drain(s, joins).log| && Drain(s, joins).log[..|s.log|] == s.log
    ensures forall k :: |s.log| <= k < |Drain(s, joins).log| ==> Drain(s, joins).log[k].Joined?
    decreases |s.connections|
  {
    if s.connections != [] {
      var t := DrainOne(s, joins(|s.connections|));
      assert t.log[..|s.log|] == s.log;
      DrainLogs(t, joins);
      var end := Drain(t, joins).log;
      assert end[..|s.log|] == end[..|t.log|][..|s.log|];
      assert end[|s.log|] == end[..|t.log|][|s.log|];
    }
  }

  /** The listener is closed before any task is aborted, and after that no connection enters. */
  lemma ClosedBeforeAbort(polls: seq<Poll>, joins: nat -> Join, i: nat)
    requires i < |Task(polls, joins).log| && Task(polls, joins).log[i] == AbortedAll
    ensures i > 0 && Task(polls, joins).log[i - 1] == ListenerClosed
    ensures forall k :: i <= k < |Task(polls, joins).log| ==> !Task(polls, joins).log[k].Spawned?
  {
    var s := Serve(Start, polls);
    ServeLogs(Start, polls);
    DrainLogs(Close(s), joins);
    var log := Task(polls, joins).log;
    assert forall k :: 0 <= k < |s.log| ==> LoopEntry(s.log[k]);
    if !s.outcome.Serving? {
      assert log[..|s.log| + 2] == Close(s).log;
      assert forall k :: 0 <= k < |s.log| + 2 ==> log[k] == log[..|s.log| + 2][k];
    }
  }

  lemma {:induction false} ServeSplit(s: State, polls: seq<Poll>, i: nat)
    requires i <= |polls|
    ensures Serve(s, polls) == Serve(Serve(s, polls[..i]), polls[i..])
    decreases |polls|
  {
    if i == 0 {
      assert polls[0..] == polls;
    } else if s.outcome.Serving? {
      assert polls[..i][1..] == polls[1..][..i - 1] && polls[i..] == polls[1..][i - 1..];
      ServeSplit(OnPoll(s, polls[0]), polls[1..], i - 1);
    }
  }

  lemma {:induction false} SpawnedEarlier(log: seq<Entry>, n: nat)
    requires n <= |log| && forall k :: n <= k < |log| ==> !log[k].Spawned?
    ensures SpawnedIds(log) == SpawnedIds(log[..n])
    decreases |log|
  {
    if n < |log| {
      assert log[..|log| - 1][..n] == log[..n];
      SpawnedEarlier(log[..|log| - 1], n);
    } else {
      assert log[..n] == log;
    }
  }

  lemma ShutdownEndsServing(polls: seq<Poll>, i: nat)
    requires i < |polls| && polls[i].shutdown
    ensures Serve(Start, polls) == Serve(Start, polls[..i + 1])
    ensures Serve(Start, polls).log == Serve(Start, polls[..i]).log && !Serve(Start, polls).outcome.Serving?
  {
    ServeSplit(Start, polls, i);
    ServeSplit(Start, polls[..i + 1], i);
    assert polls[..i + 1][..i] == polls[..i] && polls[..i + 1][i..] == [polls[i]];
  }

  /** A wake-up that finds the shutdown ready ends the accept task, whatever else is ready then or
      later: the peers admitted are those of the wake-ups before it, and no later wake-up matters. */
  lemma ShutdownWins(polls: seq<Poll>, joins: nat -> Join, i: nat)
    requires i < |polls| && polls[i].shutdown
    ensures TerminalSent in Task(polls, joins).log
    ensures SpawnedIds(Task(polls, joins).log) == SpawnedIds(Serve(Start, polls[..i]).log)
    ensures Task(polls, joins) == Task(polls[..i + 1], joins)
  {
    var t := Serve(Start, polls);
    ShutdownEndsServing(polls, i);
    hide Serve;
    DrainLogs(Close(t), joins);
    var log := Task(polls, joins).log;
    assert log[..|t.log| + 2] == Close(t).log && log[|log| - 1] == TerminalSent;
    assert log[..|t.log|] == Close(t).log[..|t.log|] == t.log;
    assert forall k :: |t.log| <= k < |t.log| + 2 ==> log[k] == Close(t).log[k];
    SpawnedEarlier(log, |t.log|);
  }

  // ---------------------------------------------------------------- every peer is served

  /** What one wake-up does, by the first of its branches that is ready: it ends the loop, takes
      exactly one new peer in, or joins exactly one connection. */
  lemma PollAnswers(s: State, p: Poll)
    requires s.outcome.Serving?
    ensures var t := OnPoll(s, p);
            && (p.shutdown ==> t == s.(outcome := Success))
            && (!p.shutdown && p.accept.Some? ==>
                 match p.accept.value
                 case Peer =>
                   && t.outcome.Serving? && t.next == s.next + 1 && t.connections == s.connections + [s.next]
                   && t.log == s.log + [Spawned(s.next)]
                 case AcceptError(error) =>
                   t.outcome == Failure(error) && t.log == s.log + [AcceptFailed(error)]
                       && t.connections == s.connections)
            && (!p.shutdown && p.accept.None? && (p.join.None? || s.connections == []) ==> t == s)
            && (!p.shutdown && p.accept.None? && p.join.Some? && s.connections != [] ==>
                 && |t.connections| == |s.connections| - 1 && t.next == s.next
                 && (exists id :: id in s.connections && t.log == s.log + [Joined(id, p.join.value.ending)]
                                  && multiset(t.connections) + multiset{id} == multiset(s.connections))
                 && t.outcome == (if p.join.value.ending.Failed? then Failure(p.join.value.ending.error) else Serving))
  {
    if !p.shutdown && p.accept.None? && p.join.Some? && s.connections != [] {
      var i := p.join.value.pick % |s.connections|;
      WithoutOne(s.connections, i);
      var id := s.connections[i];
      assert OnPoll(s, p).log == s.log + [Joined(id, p.join.value.ending)];
    }
  }

  /** How many wake-ups brought a peer. */
  function Peers(polls: seq<Poll>): nat {
    if polls == [] then 0
    else (if !polls[0].shutdown && polls[0].accept == Some(Peer) then 1 else 0) + Peers(polls[1..])
  }

  /** While the loop serves, every wake-up that brought a peer has spawned one connection. */
  lemma {:induction false} EveryPeerIsServed(s: State, polls: seq<Poll>)
    requires Serve(s, polls).outcome.Serving?
    ensures Serve(s, polls).next == s.next + Peers(polls)
    ensures |SpawnedIds(Serve(s, polls).log)| == |SpawnedIds(s.log)| + Peers(polls)
    decreases |polls|
  {
    if polls != [] {
      assert s.outcome.Serving? by { EndedStays(s, polls); }
      PollAnswers(s, polls[0]);
      PollSpawns(s, polls[0]);
      hide OnPoll, JoinOne;
      EveryPeerIsServed(OnPoll(s, polls[0]), polls[1..]);
    }
  }

  lemma EndedStays(s: State, polls: seq<Poll>)
    ensures !s.outcome.Serving? ==> Serve(s, polls) == s
  {
  }

  lemma PollSpawns(s: State, p: Poll)
    ensures |SpawnedIds(OnPoll(s, p).log)| ==
              |SpawnedIds(s.log)| + (if !p.shutdown && p.accept == Some(Peer) then 1 else 0)
  {
    if p.accept == Some(Peer) { IdsAppend(s.log, Spawned(s.next)); }
    if p.accept.Some? && p.accept.value.AcceptError? { IdsAppend(s.log, AcceptFailed(p.accept.value.error)); }
    if p.join.Some? && s.connections != [] {
      IdsAppend(s.log, Joined(s.connections[p.join.value.pick % |s.connections|], p.join.value.ending));
    }
    hide SpawnedIds, JoinedIds;
  }

  // ---------------------------------------------------------------- the outcome

  /** An entry that is a real failure: before the listener closes any failed task is one,
      afterwards a cancelled task is not. */
  predicate Fails(e: Entry, closed: bool) {
    e.AcceptFailed? || (e.Joined? && e.ending.Failed? && !(closed && e.ending.cancelled))
  }

  function ErrorOf(e: Entry): nat
    requires exists closed: bool :: Fails(e, closed)
  {
    if e.AcceptFailed? then e.error else e.ending.error
  }

  /** The first real failure of a log. */
  function FirstFailure(log: seq<Entry>): Option<nat> {
    if log == [] then None
    else
      var before := log[..|log| - 1];
      var last := log[|log| - 1];
      var earlier := FirstFailure(before);
      if earlier.Some? then earlier
      else if Fails(last, ListenerClosed in before) then Some(ErrorOf(last))
      else None
  }

  lemma FailureAppend(log: seq<Entry>, e: Entry)
    ensures FirstFailure(log + [e]) ==
      (if FirstFailure(log).Some? then FirstFailure(log)
       else if Fails(e, ListenerClosed in log) then Some(ErrorOf(e))
       else None)
  {
    assert (log + [e])[..|log|] == log;
  }

  predicate OutcomeOk(s: State) {
    match s.outcome
    case Failure(error) => FirstFailure(s.log) == Some(error)
    case _ => FirstFailure(s.log) == None
  }

  lemma {:induction false} ServeOutcome(s: State, polls: seq<Poll>)
    requires s.outcome.Serving? && OutcomeOk(s) && ListenerClosed !in s.log
    ensures OutcomeOk(Serve(s, polls)) && ListenerClosed !in Serve(s, polls).log
    decreases |polls|
  {
    if polls != [] {
      var t := OnPoll(s, polls[0]);
      if |t.log| > |s.log| { FailureAppend(s.log, t.log[|s.log|]); }
      if t.outcome.Serving? { ServeOutcome(t, polls[1..]); }
    }
  }

  lemma {:induction false} DrainOutcome(s: State, joins: nat -> Join)
    requires !s.outcome.Serving? && OutcomeOk(s) && ListenerClosed in s.log
    ensures !Drain(s, joins).outcome.Serving? && OutcomeOk(Drain(s, joins))
    decreases |s.connections|
  {
    if s.connections != [] {
      var t := DrainOne(s, joins(|s.connections|));
      FailureAppend(s.log, t.log[|s.log|]);
      DrainOutcome(t, joins);
    }
  }

  /** The accept task reports the first real failure it saw, and succeeds exactly when there was
      none; connections cancelled by the shutdown never count. */
  lemma ReportsFirstFailure(polls: seq<Poll>, joins: nat -> Join)
    ensures var t := Task(polls, joins); match t.outcome
      case Failure(error) => FirstFailure(t.log) == Some(error)
      case _ => FirstFailure(t.log) == None
  {
    var s := Serve(Start, polls);
    ServeOutcome(Start, polls);
    FailureAppend(s.log, ListenerClosed);
    FailureAppend(s.log + [ListenerClosed], AbortedAll);
    assert s.log + [ListenerClosed, AbortedAll] == s.log + [ListenerClosed] + [AbortedAll];
    if !s.outcome.Serving? {
      DrainOutcome(Close(s), joins);
      FailureAppend(Drain(Close(s), joins).log, TerminalSent);
    }
  }

  // ---------------------------------------------------------------- the source's loops

  /** The accept task over a join set it updates in place. */
  class Acceptor {
    var connections: seq<nat>
    var next: nat
    var log: seq<Entry>
    var outcome: Outcome

    function View(): State
      reads this
    {
      State(connections, next, log, outcome)
    }

    /** Every connection spawned is joined or still in the set. */
    ghost predicate Valid()
      reads this
    {
      Balanced(View())
    }

    constructor ()
      ensures Valid() && View() == Start
    {
      connections, next, log, outcome := [], 0, [], Serving;
    }

    method JoinNext(j: Join)
      requires Valid() && connections != []
      modifies this`connections, this`log
      ensures Valid() && View() == JoinOne(old(View()), j)
    {
      JoinBalances(View(), j);
      var i := j.pick % |connections|;
      log := log + [Joined(connections[i], j.ending)];
      connections := Without(connections, i);
    }

    /** The join branch of the select: a failed connection ends the loop. */
    method TakeFinished(j: Join)
      requires Valid() && connections != []
      modifies this
      ensures View() == if j.ending.Failed? then JoinOne(old(View()), j).(outcome := Failure(j.ending.error))
                else JoinOne(old(View()), j)
    {
      hide Balanced;
      JoinNext(j);
      if j.ending.Failed? { outcome := Failure(j.ending.error); }
    }

    /** A turn of the biased select: a ready shutdown admits nobody. */
    method Select(p: Poll)
      requires Valid()
      modifies this
      ensures Valid() && View() == OnPoll(old(View()), p)
      ensures p.shutdown ==> outcome == Success && connections == old(connections)
    {
      PollBalances(View(), p);
      hide Balanced, JoinOne;
      if p.shutdown {
        outcome := Success;
      } else if p.accept == Some(Peer) {
        connections, log := connections + [next], log + [Spawned(next)];
        next := next + 1;
      } else if p.accept.Some? {
        log, outcome := log + [AcceptFailed(p.accept.value.error)], Failure(p.accept.value.error);
      } else if p.join.Some? && connections != [] {
        TakeFinished(p.join.value);
      }
    }

    /** The whole task: at its end every connection it spawned has been joined. */
    method Run(polls: seq<Poll>, joins: nat -> Join)
      requires Valid() && View() == Start
      modifies this
      ensures Valid() && View() == Task(polls, joins)
      ensures !outcome.Serving? ==> connections == [] && SpawnedIds(log) == JoinedIds(log)
    {
      hide Balanced;
      var i := 0;
      while i < |polls| && outcome.Serving?
        invariant Valid() && i <= |polls| && Serve(View(), polls[i..]) == Serve(Start, polls)
      {
        Select(polls[i]);
        assert polls[i..][1..] == polls[i + 1..];
        i := i + 1;
      }
      if outcome.Serving? { return; }
      CloseBalances(View());
      log := log + [ListenerClosed, AbortedAll];
      ghost var closed := View();
      while connections != []
        invariant Valid() && Drain(View(), joins) == Drain(closed, joins)
        decreases |connections|
      {
        var j := joins(|connections|);
        DrainOneBalances(View(), j);
        JoinNext(j);
        if j.ending.Failed? && !j.ending.cancelled && outcome.Success? { outcome := Failure(j.ending.error); }
      }
      EndBalances(View());
      log := log + [TerminalSent];
    }
  }
}
