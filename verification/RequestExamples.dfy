/** Runs of the server from its start in which a parked request ends without an answer. */
module RequestExamples {
  import opened Basics
  import opened RegistryModel
  import opened RegistryRuns
  import opened RegistryState
  import opened RegistryServer
  import opened ServerRuns
  import opened RequestFates

  /** Anything a publisher may advertise. */
  ghost predicate Offer(name: string, spec: TopicSpec, pool: PoolInfo) {
    name != "" && WellFormed(spec) && RegistryModel.ValidPool(spec.transport, pool)
  }

  lemma RegisterFirst(name: string)
    requires name != ""
    ensures var (r, error) := Register(EMPTY, 1, name, 0);
            && error == Ok && r.nodes.Keys == {1} && r.nodes[1].control == 1
            && r.topicNames == map[] && r.topics == map[]
            && r.pubs == map[] && r.nextTopic == 1 && r.nextEndpoint == 1
  {
  }

  lemma AdvertiseFirst(r: Reg, name: string, spec: TopicSpec, pool: PoolInfo)
    requires Offer(name, spec, pool) && r == Register(EMPTY, 1, name, 0).0
    ensures var (q, error) := Advertise(r, 1, 1, spec, pool);
            && error == Ok && q.nodes.Keys == {1} && q.nodes[1].control == 1
            && 1 in q.pubs && ResolveError(q, 1, 1, 1) == TopicNotFound
  {
    RegisterFirst(name);
  }

  /** A request of client `fd` that is answered at once and changes only the registry. */
  lemma AskStep(t: Timing, s: Snapshot, fd: nat, id: nat, q: ServerRuns.Request) returns (s': Snapshot)
    requires SnapOk(s) && fd in s.clients && (q.RegisterNode? || q.AdvertiseTopic?)
    ensures Next(t, s, Ask(fd, id, q), s') && SnapOk(s')
    ensures s'.reg == Carry(s.reg, s.clients[fd], q).0 && s'.clients == s.clients && s'.next == s.next
    ensures s'.pending == s.pending
  {
    var (r, error) := Carry(s.reg, s.clients[fd], q);
    s' := Snapshot(r, s.clients, s.next, s.pending, s.answers + [Answer(fd, id, error)]);
    NextKeeps(t, s, Ask(fd, id, q), s');
  }

  lemma ConnectStep(t: Timing, s: Snapshot, fd: nat) returns (s': Snapshot)
    requires SnapOk(s) && fd !in s.clients
    ensures Next(t, s, Connect(fd), s') && SnapOk(s')
    ensures s' == s.(clients := s.clients[fd := s.next], next := s.next + 1)
  {
    s' := s.(clients := s.clients[fd := s.next], next := s.next + 1);
    NextKeeps(t, s, Connect(fd), s');
  }

  lemma ResolveStep(t: Timing, s: Snapshot, fd: nat, id: nat, node: nat, e: nat) returns (s': Snapshot)
    requires SnapOk(s) && fd in s.clients && ResolveError(s.reg, s.clients[fd], node, e) == TopicNotFound
    ensures Next(t, s, Ask(fd, id, ResolveEndpoint(node, e)), s') && SnapOk(s')
    ensures s' == s.(pending := s.pending[e := Parked(fd, s.clients[fd], node, id)])
  {
    s' := s.(pending := s.pending[e := Parked(fd, s.clients[fd], node, id)]);
    NextKeeps(t, s, Ask(fd, id, ResolveEndpoint(node, e)), s');
  }

  /** The publisher's client has connected, registered, advertised and asked for subscribers. */
  ghost predicate Asked(s: Snapshot) {
    && SnapOk(s) && s.clients == map[0 := 1] && s.next == 2
    && s.reg.nodes.Keys == {1} && s.reg.nodes[1].control == 1 && 1 in s.reg.pubs
    && ResolveError(s.reg, 1, 1, 1) == TopicNotFound && s.pending == map[1 := Parked(0, 1, 1, 3)]
  }

  ghost predicate Steps(t: Timing, states: seq<Snapshot>, events: seq<ServerRuns.Event>) {
    && |states| == |events| + 1 && states[0] == START
    && forall k {:trigger StepAt(t, states, events, k)} :: 0 <= k < |events| ==> StepAt(t, states, events, k)
  }

  ghost predicate StepAt(t: Timing, states: seq<Snapshot>, events: seq<ServerRuns.Event>, k: nat)
    requires k < |events| && |states| == |events| + 1
  {
    Next(t, states[k], events[k], states[k + 1])
  }

  lemma Numbered(t: Timing, states: seq<Snapshot>, events: seq<ServerRuns.Event>) returns (books: seq<Book>)
    requires Steps(t, states, events)
    ensures Chronicle(t, states, events, books)
  {
    forall k {:trigger events[k]} | 0 <= k < |events| ensures Next(t, states[k], events[k], states[k + 1]) {
      assert StepAt(t, states, events, k);
    }
    books := BooksExist(t, states, events);
  }

  lemma Grow(t: Timing, states: seq<Snapshot>, events: seq<ServerRuns.Event>, ev: ServerRuns.Event, s': Snapshot)
    requires Steps(t, states, events) && Next(t, states[|events|], ev, s')
    ensures Steps(t, states + [s'], events + [ev])
  {
    var all, more := states + [s'], events + [ev];
    forall k | 0 <= k < |more| ensures StepAt(t, all, more, k) {
      if k < |events| { assert StepAt(t, states, events, k); }
    }
  }

  /** The first client connects and registers a node. */
  lemma Registers(t: Timing, name: string) returns (states: seq<Snapshot>)
    requires name != ""
    ensures Steps(t, states, [Connect(0), Ask(0, 1, RegisterNode(name, 0))])
    ensures var s := states[2];
            && SnapOk(s) && s.reg == Register(EMPTY, 1, name, 0).0
            && s.clients == map[0 := 1] && s.next == 2 && s.pending == map[]
  {
    EmptyHolds();
    var s1 := ConnectStep(t, START, 0);
    var s2 := AskStep(t, s1, 0, 1, RegisterNode(name, 0));
    Begin(t);
    Grow(t, [START], [], Connect(0), s1);
    Grow(t, [START] + [s1], [] + [Connect(0)], Ask(0, 1, RegisterNode(name, 0)), s2);
    states := [START] + [s1] + [s2];
    assert [] + [Connect(0)] + [Ask(0, 1, RegisterNode(name, 0))] == [Connect(0), Ask(0, 1, RegisterNode(name, 0))];
  }

  lemma Begin(t: Timing)
    ensures Steps(t, [START], [])
  {
  }

  /** It advertises a topic, and its request for subscribers is parked. */
  lemma Parks(t: Timing, s: Snapshot, name: string, spec: TopicSpec, pool: PoolInfo)
    returns (s3: Snapshot, s4: Snapshot)
    requires Offer(name, spec, pool) && SnapOk(s) && s.reg == Register(EMPTY, 1, name, 0).0
    requires s.clients == map[0 := 1] && s.next == 2 && s.pending == map[]
    ensures Next(t, s, Ask(0, 2, AdvertiseTopic(1, spec, pool)), s3)
    ensures Next(t, s3, Ask(0, 3, ResolveEndpoint(1, 1)), s4) && Asked(s4)
    ensures ParkedBy(s3, Ask(0, 3, ResolveEndpoint(1, 1))) == Some(1)
  {
    AdvertiseFirst(s.reg, name, spec, pool);
    s3 := AskStep(t, s, 0, 2, AdvertiseTopic(1, spec, pool));
    s4 := ResolveStep(t, s3, 0, 3, 1, 1);
  }

  function Opening(name: string, spec: TopicSpec, pool: PoolInfo): seq<ServerRuns.Event> {
    [Connect(0), Ask(0, 1, RegisterNode(name, 0))] + [Ask(0, 2, AdvertiseTopic(1, spec, pool))]
    + [Ask(0, 3, ResolveEndpoint(1, 1))]
  }

  lemma Opens(t: Timing, name: string, spec: TopicSpec, pool: PoolInfo) returns (states: seq<Snapshot>)
    requires Offer(name, spec, pool)
    ensures Steps(t, states, Opening(name, spec, pool)) && Asked(states[4])
    ensures ParkedBy(states[3], Ask(0, 3, ResolveEndpoint(1, 1))) == Some(1)
  {
    var first := Registers(t, name);
    var s3, s4 := Parks(t, first[2], name, spec, pool);
    var events := [Connect(0), Ask(0, 1, RegisterNode(name, 0))];
    Grow(t, first, events, Ask(0, 2, AdvertiseTopic(1, spec, pool)), s3);
    Grow(t, first + [s3], events + [Ask(0, 2, AdvertiseTopic(1, spec, pool))], Ask(0, 3, ResolveEndpoint(1, 1)), s4);
    states := first + [s3] + [s4];
  }

  // ---- the fate of the parked request ----

  /** Entry `i` of the book goes on as the step says. */
  lemma FateTurns(t: Timing, j: nat, s: Snapshot, ev: ServerRuns.Event, s': Snapshot, b: Book, b': Book, i: nat)
    requires Turn(t, j, s, ev, s', b, b') && |b.fates| == j && i <= j
    ensures RegInv(s.reg) && |b'.fates| == j + 1
    ensures b'.fates[i] == if i == j then FirstFate(s, ev) else FateAfter(b.fates[i], s, ev, s')
  {
    assert TurnAt(t, j, s, ev, s', b, b');
  }

  lemma FateAt(t: Timing, states: seq<Snapshot>, events: seq<ServerRuns.Event>, books: seq<Book>, j: nat, i: nat)
    requires Chronicle(t, states, events, books) && i <= j < |events|
    ensures RegInv(states[j].reg) && |books[j].fates| == j && |books[j + 1].fates| == j + 1
    ensures books[j + 1].fates[i]
         == if i == j then FirstFate(states[j], events[j])
            else FateAfter(books[j].fates[i], states[j], events[j], states[j + 1])
  {
    FatesKept(t, states, events, books, j);
    var ev := events[j];
    FateTurns(t, j, states[j], ev, states[j + 1], books[j], books[j + 1], i);
  }

  ghost predicate PassesAt(f: Fate, s: Snapshot, ev: ServerRuns.Event, s': Snapshot, f': Fate, next: nat) {
    RegInv(s.reg) && FateAfter(f, s, ev, s') == f'
  }

  /** The event turns one fate into the other. */
  ghost predicate Passes(f: Fate, s: Snapshot, ev: ServerRuns.Event, s': Snapshot, f': Fate) {
    forall n: nat {:trigger PassesAt(f, s, ev, s', f', n)} :: n == s.next ==> PassesAt(f, s, ev, s', f', n)
  }

  /** Two entries further on, for the request parked as event 3. */
  lemma ParkedFate(t: Timing, states: seq<Snapshot>, events: seq<ServerRuns.Event>, books: seq<Book>)
    requires Chronicle(t, states, events, books) && |events| > 4
    requires events[3] == Ask(0, 3, ResolveEndpoint(1, 1)) && ParkedBy(states[3], events[3]) == Some(1)
    ensures RegInv(states[4].reg) && |books[5].fates| == 5
    ensures books[5].fates[3] == FateAfter(Waiting(1), states[4], events[4], states[5])
  {
    FateAt(t, states, events, books, 3, 3);
    FateAt(t, states, events, books, 4, 3);
  }

  lemma AgainEnds(s: Snapshot, s': Snapshot)
    requires Asked(s)
    ensures FateAfter(Waiting(1), s, Ask(0, 4, ResolveEndpoint(1, 1)), s') == Ended(Superseded)
  {
  }

  lemma AsksAgain(t: Timing, states: seq<Snapshot>, events: seq<ServerRuns.Event>) returns (s': Snapshot)
    requires Steps(t, states, events) && |events| == 4 && Asked(states[4])
    ensures Steps(t, states + [s'], events + [Ask(0, 4, ResolveEndpoint(1, 1))]) && 0 in s'.clients && 1 in s'.reg.pubs
    ensures FateAfter(Waiting(1), states[4], Ask(0, 4, ResolveEndpoint(1, 1)), s') == Ended(Superseded)
  {
    s' := ResolveStep(t, states[4], 0, 4, 1, 1);
    AgainEnds(states[4], s');
    Grow(t, states, events, Ask(0, 4, ResolveEndpoint(1, 1)), s');
  }

  /** The client asks again for the same endpoint: its first request is lost, with everybody still there. */
  lemma SupersededReachable(t: Timing, name: string, spec: TopicSpec, pool: PoolInfo)
    returns (states: seq<Snapshot>, events: seq<ServerRuns.Event>, books: seq<Book>)
    requires Offer(name, spec, pool)
    ensures Chronicle(t, states, events, books) && |events| == 5 && |books[5].fates| == 5
    ensures books[5].fates[3] == Ended(Superseded) && 0 in states[5].clients && 1 in states[5].reg.pubs
  {
    var first := Opens(t, name, spec, pool);
    var s5 := AsksAgain(t, first, Opening(name, spec, pool));
    states, events := first + [s5], Opening(name, spec, pool) + [Ask(0, 4, ResolveEndpoint(1, 1))];
    books := Numbered(t, states, events);
    ParkedFate(t, states, events, books);
  }

  // ---- a stranger's unadvertise ----

  ghost predicate StrangerThere(s: Snapshot) {
    && SnapOk(s) && 0 in s.clients && 1 in s.clients && s.clients[1] == 2 && !Owns(s.reg, 2, 1)
    && s.pending == map[1 := Parked(0, 1, 1, 3)]
  }

  lemma StrangerConnects(t: Timing, states: seq<Snapshot>, events: seq<ServerRuns.Event>) returns (s': Snapshot)
    requires Steps(t, states, events) && |events| == 4 && Asked(states[4])
    ensures Steps(t, states + [s'], events + [Connect(1)]) && StrangerThere(s')
    ensures FateAfter(Waiting(1), states[4], Connect(1), s') == Waiting(1)
  {
    s' := ConnectStep(t, states[4], 1);
    Grow(t, states, events, Connect(1), s');
  }

  lemma StrangerEnds(t: Timing, states: seq<Snapshot>, events: seq<ServerRuns.Event>) returns (s': Snapshot)
    requires Steps(t, states, events) && |events| == 5 && StrangerThere(states[5])
    ensures Steps(t, states + [s'], events + [Ask(1, 1, UnadvertiseTopic(1, 1))]) && 0 in s'.clients && 1 in s'.reg.pubs
    ensures FateAfter(Waiting(1), states[5], Ask(1, 1, UnadvertiseTopic(1, 1)), s') == Ended(Unadvertised)
  {
    var s := states[5];
    StrangerUnadvertises(t, s, 1, 1, 1, 1);
    s' := s.(pending := s.pending - {1}, answers := s.answers + [Answer(1, 1, EndpointNotFound)]);
    Grow(t, states, events, Ask(1, 1, UnadvertiseTopic(1, 1)), s');
  }

  lemma StrangerComes(t: Timing, states: seq<Snapshot>, events: seq<ServerRuns.Event>)
    returns (s5: Snapshot, s6: Snapshot)
    requires Steps(t, states, events) && |events| == 4 && Asked(states[4])
    ensures Steps(t, states + [s5] + [s6], events + [Connect(1)] + [Ask(1, 1, UnadvertiseTopic(1, 1))])
    ensures Passes(Waiting(1), states[4], Connect(1), s5, Waiting(1))
    ensures Passes(Waiting(1), s5, Ask(1, 1, UnadvertiseTopic(1, 1)), s6, Ended(Unadvertised))
    ensures 0 in s6.clients && 1 in s6.reg.pubs
  {
    s5 := StrangerConnects(t, states, events);
    s6 := StrangerEnds(t, states + [s5], events + [Connect(1)]);
  }

  lemma TwoMore(t: Timing, states: seq<Snapshot>, events: seq<ServerRuns.Event>, books: seq<Book>, cause: Cause)
    requires Chronicle(t, states, events, books) && |events| == 6
    requires events[3] == Ask(0, 3, ResolveEndpoint(1, 1)) && ParkedBy(states[3], events[3]) == Some(1)
    requires Passes(Waiting(1), states[4], events[4], states[5], Waiting(1))
    requires Passes(Waiting(1), states[5], events[5], states[6], Ended(cause))
    ensures |books[6].fates| == 6 && books[6].fates[3] == Ended(cause)
  {
    assert PassesAt(Waiting(1), states[4], events[4], states[5], Waiting(1), states[4].next);
    assert PassesAt(Waiting(1), states[5], events[5], states[6], Ended(cause), states[5].next);
    ParkedFate(t, states, events, books);
    FateAt(t, states, events, books, 5, 3);
  }

  /** A second client, which owns nothing, unadvertises the endpoint: the first client's request is lost. */
  lemma UnadvertisedReachable(t: Timing, name: string, spec: TopicSpec, pool: PoolInfo)
    returns (states: seq<Snapshot>, events: seq<ServerRuns.Event>, books: seq<Book>)
    requires Offer(name, spec, pool)
    ensures Chronicle(t, states, events, books) && |events| == 6 && |books[6].fates| == 6
    ensures books[6].fates[3] == Ended(Unadvertised) && 0 in states[6].clients && 1 in states[6].reg.pubs
  {
    var first := Opens(t, name, spec, pool);
    var opening, last := Opening(name, spec, pool), Ask(1, 1, UnadvertiseTopic(1, 1));
    var s5, s6 := StrangerComes(t, first, opening);
    states, events := first + [s5] + [s6], opening + [Connect(1)] + [last];
    books := Numbered(t, states, events);
    TwoMore(t, states, events, books, Unadvertised);
  }
}
