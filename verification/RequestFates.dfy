/**
What becomes of the requests the server receives, over every run. Requests are numbered by the event
that brought them; the numbers are kept beside the run, not in the server.
*/
module RequestFates {
  import opened Basics
  import opened RegistryModel
  import opened RegistryRuns
  import opened RegistryServer
  import opened ServerRuns

  // ---- one event and one parked request ----

  datatype Cause = AnswerSent | ClientLeft | PublisherLeft | Unadvertised | Superseded

  /** The endpoint whose request this event parks, if it parks one. */
  ghost function ParkedBy(s: Snapshot, ev: Event): Option<nat> {
    if ev.Ask? && ev.fd in s.clients && Parks(s.reg, s.clients[ev.fd], ev.request) then Some(ev.request.endpoint)
    else None
  }

  /** An accepted subscription. */
  ghost predicate Enrols(s: Snapshot, ev: Event)
    requires RegInv(s.reg)
  {
    ev.Ask? && ev.fd in s.clients && ev.request.SubscribeTopic? && Carry(s.reg, s.clients[ev.fd], ev.request).1 == Ok
  }

  /** How the request parked for `e` comes to its end in this event, if it does. */
  ghost function EndIn(s: Snapshot, ev: Event, s': Snapshot, e: nat): Option<Cause>
    requires RegInv(s.reg) && e in s.pending
  {
    if ParkedBy(s, ev) == Some(e) then Some(Superseded)
    else if ev.Ask? && ev.request.UnadvertiseTopic? && ev.request.endpoint == e then Some(Unadvertised)
    else if s.pending[e].fd !in s'.clients then Some(ClientLeft)
    else if e !in s'.reg.pubs then Some(PublisherLeft)
    else if Enrols(s, ev) && !StillParked(s'.reg, e, s.pending[e]) then Some(AnswerSent)
    else None
  }

  /** What is parked after an event, in terms of what was parked before it. */
  ghost predicate ParkedAfter(s: Snapshot, ev: Event, s': Snapshot)
    requires RegInv(s.reg)
  {
    if ParkedBy(s, ev).Some? then
      s'.pending.Keys == s.pending.Keys + {ParkedBy(s, ev).value}
      && forall e :: e in s.pending && Some(e) != ParkedBy(s, ev) ==> s'.pending[e] == s.pending[e]
    else if ev.Ask? && ev.request.UnadvertiseTopic? then s'.pending == s.pending - {ev.request.endpoint}
    else if Enrols(s, ev) then s'.pending == Unanswered(s'.reg, s.pending)
    else s'.pending == StillHeld(s.pending, s'.clients, s'.reg.pubs)
  }

  /** Where nothing else is at stake, what stays parked is what still has its client and its publisher. */
  lemma SameParked(s: Snapshot, s': Snapshot)
    requires SnapOk(s) && SnapOk(s') && s'.clients == s.clients
    requires s'.pending == s.pending || s'.pending == WithPublisher(s.pending, s'.reg.pubs)
    ensures s'.pending == StillHeld(s.pending, s'.clients, s'.reg.pubs)
  {
    ParkedHavePubs(s.reg, s.clients, s.pending);
    ParkedHavePubs(s'.reg, s'.clients, s'.pending);
  }

  lemma AfterServing(s: Snapshot, fd: nat, id: nat, q: Request, s': Snapshot)
    requires SnapOk(s) && SnapOk(s') && fd in s.clients && Serves(s, fd, id, q, s')
    ensures ParkedAfter(s, Ask(fd, id, q), s')
  {
    if q.SubscribeTopic? {
      SubscribeServes(s, fd, id, q, s');
      if Carry(s.reg, s.clients[fd], q).1 != Ok { SameParked(s, s'); }
    } else if !q.UnadvertiseTopic? && !Parks(s.reg, s.clients[fd], q) {
      SameParked(s, s');
    }
  }

  lemma AfterEvent(t: Timing, s: Snapshot, ev: Event, s': Snapshot)
    requires SnapOk(s) && Next(t, s, ev, s')
    ensures SnapOk(s') && ParkedAfter(s, ev, s')
  {
    NextKeeps(t, s, ev, s');
    match ev
    case Connect(_) => StillHeldAll(s, s');
    case Ask(fd, id, q) => AfterServing(s, fd, id, q, s');
    case HangUp(_) =>
    case Tick(_) =>
  }

  lemma StillHeldAll(s: Snapshot, s': Snapshot)
    requires SnapOk(s) && s'.reg == s.reg && s'.pending == s.pending && s.clients.Keys <= s'.clients.Keys
    ensures s'.pending == StillHeld(s.pending, s'.clients, s'.reg.pubs)
  {
    ParkedHavePubs(s.reg, s.clients, s.pending);
  }

  ghost predicate Anchored(s: Snapshot) {
    forall e {:trigger s.pending[e]} :: e in s.pending ==> e in s.reg.pubs && s.pending[e].fd in s.clients
  }

  /** A parked request stays, unchanged, exactly when none of the five things happens to it. */
  ghost predicate Settles(s: Snapshot, ev: Event, s': Snapshot, e: nat)
    requires RegInv(s.reg) && e in s.pending
  {
    if EndIn(s, ev, s', e).None? then e in s'.pending && s'.pending[e] == s.pending[e]
    else e !in s'.pending || ParkedBy(s, ev) == Some(e)
  }

  lemma Classified(s: Snapshot, ev: Event, s': Snapshot, e: nat)
    requires RegInv(s.reg) && Anchored(s') && ParkedAfter(s, ev, s') && e in s.pending
    ensures Settles(s, ev, s', e)
  {
    if e in s'.pending { assert s'.pending[e] == s'.pending[e]; }
  }

  lemma StaysOrEnds(t: Timing, s: Snapshot, ev: Event, s': Snapshot, e: nat)
    requires SnapOk(s) && Next(t, s, ev, s') && e in s.pending
    ensures Settles(s, ev, s', e)
  {
    AfterEvent(t, s, ev, s');
    ParkedHavePubs(s'.reg, s'.clients, s'.pending);
    Classified(s, ev, s', e);
  }

  // ---- the answers of one event ----

  /** The endpoints, among `es`, whose parked requests can now be answered. */
  ghost function Ripe(r: Reg, pending: map<nat, Parked>, es: seq<nat>): seq<nat> {
    if es == [] then []
    else
      var e := es[|es| - 1];
      Ripe(r, pending, es[..|es| - 1]) + if e !in pending || StillParked(r, e, pending[e]) then [] else [e]
  }

  lemma {:induction false} RipeMembers(r: Reg, pending: map<nat, Parked>, es: seq<nat>)
    ensures forall e :: e in Ripe(r, pending, es) <==> e in es && e in pending && !StillParked(r, e, pending[e])
    ensures NoDup(es) ==> NoDup(Ripe(r, pending, es))
  {
    if es != [] {
      RipeMembers(r, pending, es[..|es| - 1]);
      assert es == es[..|es| - 1] + [es[|es| - 1]];
    }
  }

  /** The replies are those to the ripe requests, in the same order. */
  lemma {:induction false} RipeReplies(r: Reg, pending: map<nat, Parked>, es: seq<nat>)
    ensures var ripe, replies := Ripe(r, pending, es), Replies(r, pending, es);
            && |replies| == |ripe|
            && forall k :: 0 <= k < |ripe| ==>
               ripe[k] in pending && replies[k] == AnswerFor(r, ripe[k], pending[ripe[k]])
  {
    if es != [] { RipeReplies(r, pending, es[..|es| - 1]); }
  }

  /** The parked requests an event answers, by endpoint. */
  ghost function Completes(s: Snapshot, ev: Event, s': Snapshot): seq<nat>
    requires RegInv(s.reg)
  {
    if Enrols(s, ev) then Ripe(s'.reg, s.pending, ParkedOrder(s.pending, s'.reg.nextEndpoint)) else []
  }

  /** What an event adds to the answers: its own, unless it is parked or is no request, and those it completes. */
  ghost predicate AnswersAdded(s: Snapshot, ev: Event, s': Snapshot)
    requires RegInv(s.reg)
  {
    var own := if ev.Ask? && ParkedBy(s, ev).None? then 1 else 0;
    var done, n := Completes(s, ev, s'), |s.answers|;
    && |s'.answers| == n + own + |done| && s'.answers[..n] == s.answers
    && (own == 1 ==> s'.answers[n].fd == ev.fd && s'.answers[n].requestId == ev.id)
    && forall k :: 0 <= k < |done| ==>
         && done[k] in s.pending
         && s'.answers[n + own + k].fd == s.pending[done[k]].fd
         && s'.answers[n + own + k].requestId == s.pending[done[k]].requestId
  }

  lemma EventAnswers(t: Timing, s: Snapshot, ev: Event, s': Snapshot)
    requires RegInv(s.reg) && Next(t, s, ev, s')
    ensures AnswersAdded(s, ev, s')
  {
    if ev.Ask? { ServingAnswers(s, ev.fd, ev.id, ev.request, s'); }
  }

  lemma ServingAnswers(s: Snapshot, fd: nat, id: nat, q: Request, s': Snapshot)
    requires RegInv(s.reg) && fd in s.clients && Serves(s, fd, id, q, s')
    ensures AnswersAdded(s, Ask(fd, id, q), s')
  {
    if q.SubscribeTopic? {
      CompletedAnswers(s, fd, id, q, s');
    } else {
      assert s'.answers == s.answers || s'.answers == s.answers + [Answer(fd, id, Carry(s.reg, s.clients[fd], q).1)];
    }
  }

  lemma CompletedAnswers(s: Snapshot, fd: nat, id: nat, q: Request, s': Snapshot)
    requires RegInv(s.reg) && fd in s.clients && q.SubscribeTopic? && Serves(s, fd, id, q, s')
    ensures AnswersAdded(s, Ask(fd, id, q), s')
  {
    var error := Carry(s.reg, s.clients[fd], q).1;
    SubscribeServes(s, fd, id, q, s');
    if error == Ok {
      RepliesJoin(s.answers, Answer(fd, id, error), s'.reg, s.pending, ParkedOrder(s.pending, s'.reg.nextEndpoint),
                  s'.answers);
    }
  }

  lemma RepliesJoin(log: seq<Answer>, own: Answer, r: Reg, pending: map<nat, Parked>, es: seq<nat>, now: seq<Answer>)
    requires now == log + [own] + Replies(r, pending, es)
    ensures var n, ripe := |log|, Ripe(r, pending, es);
            && |now| == n + 1 + |ripe| && now[..n] == log && now[n] == own
            && forall k :: 0 <= k < |ripe| ==>
                 ripe[k] in pending && now[n + 1 + k] == AnswerFor(r, ripe[k], pending[ripe[k]])
  {
    RipeReplies(r, pending, es);
  }

  lemma EnrolFacts(t: Timing, s: Snapshot, ev: Event, s': Snapshot)
    requires SnapOk(s) && Next(t, s, ev, s') && Enrols(s, ev)
    ensures RegInv(s'.reg) && s'.clients == s.clients && s'.reg.pubs == s.reg.pubs
  {
    var q := ev.request;
    CarryKeeps(s.reg, s.clients[ev.fd], q);
    SubscribeKeepsPubs(s.reg, s.clients[ev.fd], q.node, q.spec, q.path, q.queue, map[]);
  }

  lemma EnrolCompletes(s: Snapshot, ev: Event, s': Snapshot)
    requires RegInv(s.reg) && Anchored(s) && Enrols(s, ev)
    requires RegInv(s'.reg) && s'.clients == s.clients && s'.reg.pubs == s.reg.pubs
    ensures NoDup(Completes(s, ev, s'))
    ensures forall e :: e in Completes(s, ev, s') <==> e in s.pending && !StillParked(s'.reg, e, s.pending[e])
  {
    AllPending(s'.reg, s.pending);
    RipeMembers(s'.reg, s.pending, ParkedOrder(s.pending, s'.reg.nextEndpoint));
  }

  lemma EnrolEnds(s: Snapshot, ev: Event, s': Snapshot, e: nat)
    requires RegInv(s.reg) && Anchored(s) && Enrols(s, ev) && e in s.pending
    requires s'.clients == s.clients && s'.reg.pubs == s.reg.pubs
    ensures EndIn(s, ev, s', e) == Some(AnswerSent) <==> !StillParked(s'.reg, e, s.pending[e])
  {
    assert s.pending[e] == s.pending[e];
  }

  /** Each is completed once, and exactly those whose end in this event is an answer. */
  lemma EventCompletes(t: Timing, s: Snapshot, ev: Event, s': Snapshot)
    requires SnapOk(s) && Next(t, s, ev, s')
    ensures NoDup(Completes(s, ev, s'))
    ensures forall e :: e in Completes(s, ev, s') <==> e in s.pending && EndIn(s, ev, s', e) == Some(AnswerSent)
  {
    if Enrols(s, ev) {
      EnrolFacts(t, s, ev, s');
      ParkedHavePubs(s.reg, s.clients, s.pending);
      EnrolCompletes(s, ev, s');
      forall e | e in s.pending { EnrolEnds(s, ev, s', e); }
    }
  }

  // ---- books ----

  datatype Fate = NotAsked | Waiting(endpoint: nat) | Ended(cause: Cause)

  /**
  Which request is parked for each endpoint, which request each answer is the answer to, and what has
  become of every event so far as a request.
  */
  datatype Book = Book(askers: map<nat, nat>, authors: seq<nat>, fates: seq<Fate>)

  const BLANK: Book := Book(map[], [], [])

  ghost function Sources(askers: map<nat, nat>, es: seq<nat>): (r: seq<nat>)
    requires forall e :: e in es ==> e in askers
    ensures |r| == |es| && forall k :: 0 <= k < |es| ==> r[k] == askers[es[k]]
  {
    seq(|es|, k requires 0 <= k < |es| => assert es[k] in es; askers[es[k]])
  }

  ghost function AskersAfter(b: Book, i: nat, s: Snapshot, ev: Event, s': Snapshot): map<nat, nat> {
    map e | e in s'.pending :: if ParkedBy(s, ev) == Some(e) || e !in b.askers then i else b.askers[e]
  }

  ghost function AuthorsAfter(b: Book, i: nat, s: Snapshot, ev: Event, s': Snapshot): seq<nat>
    requires RegInv(s.reg)
  {
    var done := Completes(s, ev, s');
    b.authors + Own(ev.Ask? && ParkedBy(s, ev).None?, i)
    + if forall e :: e in done ==> e in b.askers then Sources(b.askers, done) else []
  }

  function Own(s: bool, j: nat): seq<nat> {
    if s then [j] else []
  }

  ghost function FirstFate(s: Snapshot, ev: Event): Fate {
    if !ev.Ask? then NotAsked
    else if ParkedBy(s, ev).Some? then Waiting(ParkedBy(s, ev).value) else Ended(AnswerSent)
  }

  ghost function FateAfter(f: Fate, s: Snapshot, ev: Event, s': Snapshot): Fate
    requires RegInv(s.reg)
  {
    if f.Waiting? && f.endpoint in s.pending && EndIn(s, ev, s', f.endpoint).Some?
    then Ended(EndIn(s, ev, s', f.endpoint).value) else f
  }

  /** Every earlier request's fate goes on, and the event's own begins. */
  ghost predicate FatesAfter(b: Book, s: Snapshot, ev: Event, s': Snapshot, b': Book)
    requires RegInv(s.reg)
  {
    && |b'.fates| == |b.fates| + 1 && b'.fates[|b.fates|] == FirstFate(s, ev)
    && forall i {:trigger b'.fates[i]} :: 0 <= i < |b.fates| ==> b'.fates[i] == FateAfter(b.fates[i], s, ev, s')
  }

  /** Event number `i` takes `s` to `s'`, and is entered in the book. */
  ghost predicate TurnAt(t: Timing, i: nat, s: Snapshot, ev: Event, s': Snapshot, b: Book, b': Book) {
    && RegInv(s.reg) && Next(t, s, ev, s')
    && b'.askers == AskersAfter(b, i, s, ev, s') && b'.authors == AuthorsAfter(b, i, s, ev, s')
    && FatesAfter(b, s, ev, s', b')
  }

  // ---- the book is right ----

  /** Each parked request goes back to the event that asked it, and to no other. */
  ghost predicate AskersOk(events: seq<Event>, j: nat, s: Snapshot, askers: map<nat, nat>) {
    && askers.Keys == s.pending.Keys
    && forall e {:trigger askers[e]} :: e in askers ==>
         var p := s.pending[e];
         askers[e] < j <= |events| && events[askers[e]] == Ask(p.fd, p.requestId, ResolveEndpoint(p.node, e))
  }

  /** The answer goes to the client that asked and carries the number it asked under. */
  predicate Bears(a: Answer, ev: Event) {
    ev.Ask? && a.fd == ev.fd && a.requestId == ev.id
  }

  ghost predicate AuthorOk(events: seq<Event>, j: nat, a: Answer, i: nat) {
    i < j <= |events| && Bears(a, events[i])
  }

  ghost predicate AuthorsOk(events: seq<Event>, j: nat, s: Snapshot, authors: seq<nat>) {
    && |authors| == |s.answers| && NoDup(authors)
    && forall k :: 0 <= k < |authors| ==> AuthorOk(events, j, s.answers[k], authors[k])
  }

  /** Nothing that is parked has been answered. */
  ghost predicate Unheard(b: Book) {
    forall e {:trigger b.askers[e]} :: e in b.askers ==> b.askers[e] !in b.authors
  }

  /** The fate of request `i` is what the book says: it waits, it has been answered, or neither. */
  ghost predicate Matches(f: Fate, i: nat, b: Book) {
    && (forall e {:trigger b.askers[e]} :: e in b.askers && b.askers[e] == i ==> f == Waiting(e))
    && (f.Waiting? ==> f.endpoint in b.askers && b.askers[f.endpoint] == i)
    && (f == Ended(AnswerSent) <==> i in b.authors)
  }

  ghost predicate FatesOk(j: nat, b: Book) {
    |b.fates| == j && forall i {:trigger b.fates[i]} :: 0 <= i < j ==> Matches(b.fates[i], i, b)
  }

  ghost predicate EntriesOk(events: seq<Event>, j: nat, s: Snapshot, b: Book) {
    AskersOk(events, j, s, b.askers) && AuthorsOk(events, j, s, b.authors) && Unheard(b)
  }

  ghost predicate BookOk(events: seq<Event>, j: nat, s: Snapshot, b: Book) {
    EntriesOk(events, j, s, b) && FatesOk(j, b)
  }

  /** Whatever is parked after an event was parked by it or was parked before and not completed. */
  ghost predicate Carried(s: Snapshot, ev: Event, s': Snapshot, e: nat)
    requires RegInv(s.reg) && e in s'.pending
  {
    if ParkedBy(s, ev) == Some(e) then
      ev == Ask(s'.pending[e].fd, s'.pending[e].requestId, ResolveEndpoint(s'.pending[e].node, e))
    else e in s.pending && s'.pending[e] == s.pending[e] && e !in Completes(s, ev, s')
  }

  lemma NewlyParked(t: Timing, s: Snapshot, ev: Event, s': Snapshot, e: nat)
    requires RegInv(s.reg) && Next(t, s, ev, s') && ParkedBy(s, ev) == Some(e)
    ensures e in s'.pending && s'.pending[e] == Parked(ev.fd, s.clients[ev.fd], ev.request.node, ev.id)
  {
  }

  lemma AllCarried(t: Timing, s: Snapshot, ev: Event, s': Snapshot)
    requires SnapOk(s) && Next(t, s, ev, s')
    ensures forall e :: e in s'.pending ==> Carried(s, ev, s', e)
  {
    AfterEvent(t, s, ev, s');
    EventCompletes(t, s, ev, s');
    forall e | e in s'.pending ensures Carried(s, ev, s', e) {
      if ParkedBy(s, ev) == Some(e) {
        NewlyParked(t, s, ev, s', e);
      } else {
        assert e in s.pending;
        StaysOrEnds(t, s, ev, s', e);
      }
    }
  }

  lemma AskersNext(events: seq<Event>, j: nat, s: Snapshot, s': Snapshot, b: Book)
    requires RegInv(s.reg) && j < |events| && AskersOk(events, j, s, b.askers)
    requires forall e :: e in s'.pending ==> Carried(s, events[j], s', e)
    ensures AskersOk(events, j + 1, s', AskersAfter(b, j, s, events[j], s'))
  {
    var now := AskersAfter(b, j, s, events[j], s');
    forall e | e in now
      ensures var p := s'.pending[e];
              now[e] < j + 1 && events[now[e]] == Ask(p.fd, p.requestId, ResolveEndpoint(p.node, e))
    {
      assert Carried(s, events[j], s', e);
      if ParkedBy(s, events[j]) != Some(e) { assert b.askers[e] < j; }
    }
  }

  /** The requests an event completes are distinct, are not yet answered and were asked before. */
  lemma SourcesFresh(events: seq<Event>, j: nat, s: Snapshot, b: Book, done: seq<nat>)
    requires EntriesOk(events, j, s, b) && NoDup(done) && forall e :: e in done ==> e in s.pending
    ensures var more := Sources(b.askers, done);
            && NoDup(more) && forall k :: 0 <= k < |more| ==>
                 && more[k] < j && more[k] !in b.authors
                 && events[more[k]].Ask?
                 && events[more[k]].fd == s.pending[done[k]].fd && events[more[k]].id == s.pending[done[k]].requestId
  {
    var more := Sources(b.askers, done);
    forall k | 0 <= k < |more|
      ensures more[k] < j && more[k] !in b.authors && done[k] in s.pending
              && events[more[k]] == Ask(s.pending[done[k]].fd, s.pending[done[k]].requestId,
                                        ResolveEndpoint(s.pending[done[k]].node, done[k]))
    {
      assert done[k] in done;
      assert more[k] == b.askers[done[k]];
    }
  }

  lemma NoDupJoin(a: seq<nat>, own: bool, j: nat, more: seq<nat>)
    requires NoDup(a) && NoDup(more) && (forall k :: 0 <= k < |a| ==> a[k] < j)
    requires forall k :: 0 <= k < |more| ==> more[k] < j && more[k] !in a
    ensures NoDup(a + Own(own, j) + more)
  {
  }

  lemma AuthorsJoin(events: seq<Event>, j: nat, before: seq<Answer>, now: seq<Answer>, authors: seq<nat>, own: bool,
                    more: seq<nat>)
    requires |authors| == |before| && j < |events|
    requires forall k :: 0 <= k < |authors| ==> AuthorOk(events, j, before[k], authors[k])
    requires |now| == |before| + |Own(own, j)| + |more| && now[..|before|] == before
    requires own ==> Bears(now[|before|], events[j])
    requires forall k :: 0 <= k < |more| ==> more[k] < j && Bears(now[|before| + |Own(own, j)| + k], events[more[k]])
    ensures var all := authors + Own(own, j) + more;
            forall k :: 0 <= k < |all| ==> AuthorOk(events, j + 1, now[k], all[k])
  {
    var n, all := |before|, authors + Own(own, j) + more;
    forall k | 0 <= k < |all| ensures AuthorOk(events, j + 1, now[k], all[k]) {
      if k < n {
        assert AuthorOk(events, j, before[k], authors[k]) && now[k] == before[k];
      } else if k >= n + |Own(own, j)| {
        assert all[k] == more[k - n - |Own(own, j)|];
      }
    }
  }

  lemma AuthorsNext(events: seq<Event>, j: nat, s: Snapshot, s': Snapshot, b: Book)
    requires RegInv(s.reg) && j < |events| && EntriesOk(events, j, s, b)
    requires AnswersAdded(s, events[j], s') && NoDup(Completes(s, events[j], s'))
    ensures AuthorsOk(events, j + 1, s', AuthorsAfter(b, j, s, events[j], s'))
  {
    var done, own := Completes(s, events[j], s'), events[j].Ask? && ParkedBy(s, events[j]).None?;
    forall e | e in done ensures e in s.pending {}
    var more := Sources(b.askers, done);
    SourcesFresh(events, j, s, b, done);
    BookBounds(events, j, s, b);
    assert forall k :: 0 <= k < |b.authors| ==> b.authors[k] in b.authors;
    NoDupJoin(b.authors, own, j, more);
    AuthorsJoin(events, j, s.answers, s'.answers, b.authors, own, more);
  }

  lemma BookBounds(events: seq<Event>, j: nat, s: Snapshot, b: Book)
    requires EntriesOk(events, j, s, b)
    ensures forall i :: i in b.authors ==> i < j
    ensures forall e {:trigger b.askers[e]} :: e in b.askers ==> b.askers[e] < j
  {
    forall k | 0 <= k < |b.authors| ensures b.authors[k] < j {
      assert AuthorOk(events, j, s.answers[k], b.authors[k]);
    }
  }

  lemma SourceMembers(askers: map<nat, nat>, done: seq<nat>, i: nat)
    requires forall e :: e in done ==> e in askers
    ensures i in Sources(askers, done) <==> exists e :: e in done && askers[e] == i
  {
    var r := Sources(askers, done);
    if e :| e in done && askers[e] == i {
      var k :| 0 <= k < |done| && done[k] == e;
      assert r[k] == i;
    }
    if i in r {
      var k :| 0 <= k < |r| && r[k] == i;
      assert done[k] in done;
    }
  }

  lemma AuthorMembers(b: Book, j: nat, s: Snapshot, ev: Event, s': Snapshot, i: nat)
    requires RegInv(s.reg) && b.askers.Keys == s.pending.Keys
    requires forall e :: e in Completes(s, ev, s') ==> e in s.pending
    ensures i in AuthorsAfter(b, j, s, ev, s') <==>
              || i in b.authors
              || (i == j && ev.Ask? && ParkedBy(s, ev).None?)
              || exists e :: e in Completes(s, ev, s') && b.askers[e] == i
  {
    SourceMembers(b.askers, Completes(s, ev, s'), i);
  }

  lemma UnheardNext(events: seq<Event>, j: nat, s: Snapshot, s': Snapshot, b: Book, e: nat)
    requires RegInv(s.reg) && j < |events| && EntriesOk(events, j, s, b)
    requires e in s'.pending && Carried(s, events[j], s', e)
    requires forall x :: x in Completes(s, events[j], s') ==> x in s.pending
    ensures AskersAfter(b, j, s, events[j], s')[e] !in AuthorsAfter(b, j, s, events[j], s')
  {
    BookBounds(events, j, s, b);
    AuthorMembers(b, j, s, events[j], s', AskersAfter(b, j, s, events[j], s')[e]);
    if ParkedBy(s, events[j]) != Some(e) { assert b.askers[e] < j; }
  }

  lemma EntriesNext(t: Timing, events: seq<Event>, j: nat, s: Snapshot, s': Snapshot, b: Book, b': Book)
    requires SnapOk(s) && j < |events| && EntriesOk(events, j, s, b) && TurnAt(t, j, s, events[j], s', b, b')
    ensures EntriesOk(events, j + 1, s', b')
  {
    AllCarried(t, s, events[j], s');
    EventAnswers(t, s, events[j], s');
    EventCompletes(t, s, events[j], s');
    AskersNext(events, j, s, s', b);
    AuthorsNext(events, j, s, s', b);
    forall e | e in b'.askers ensures b'.askers[e] !in b'.authors { UnheardNext(events, j, s, s', b, e); }
  }

  // ---- the fates are right ----

  lemma FateWaits(s: Snapshot, ev: Event, s': Snapshot, b: Book, i: nat, j: nat, f: Fate)
    requires RegInv(s.reg) && i != j && b.askers.Keys == s.pending.Keys && Matches(f, i, b)
    requires forall e :: e in s'.pending ==> Carried(s, ev, s', e)
    requires forall e :: e in s.pending ==> Settles(s, ev, s', e)
    ensures var now, f' := AskersAfter(b, j, s, ev, s'), FateAfter(f, s, ev, s');
            && (forall e {:trigger now[e]} :: e in now && now[e] == i ==> f' == Waiting(e))
            && (f'.Waiting? ==> f'.endpoint in now && now[f'.endpoint] == i)
  {
    var now := AskersAfter(b, j, s, ev, s');
    forall e | e in now && now[e] == i ensures FateAfter(f, s, ev, s') == Waiting(e) {
      assert Carried(s, ev, s', e);
      assert b.askers[e] == i && Settles(s, ev, s', e);
    }
    if f.Waiting? { assert Settles(s, ev, s', f.endpoint); }
  }

  lemma FateAnswered(s: Snapshot, ev: Event, s': Snapshot, b: Book, i: nat, j: nat, f: Fate)
    requires RegInv(s.reg) && i != j && b.askers.Keys == s.pending.Keys && Matches(f, i, b)
    requires forall e :: e in Completes(s, ev, s') <==> e in s.pending && EndIn(s, ev, s', e) == Some(AnswerSent)
    ensures FateAfter(f, s, ev, s') == Ended(AnswerSent) <==> i in AuthorsAfter(b, j, s, ev, s')
  {
    AuthorMembers(b, j, s, ev, s', i);
    if e :| e in Completes(s, ev, s') && b.askers[e] == i { assert f == Waiting(e); }
  }

  /** The event itself as a request. */
  lemma FateStarts(events: seq<Event>, j: nat, s: Snapshot, s': Snapshot, b: Book, b': Book)
    requires RegInv(s.reg) && j < |events| && EntriesOk(events, j, s, b)
    requires b'.askers == AskersAfter(b, j, s, events[j], s') && b'.authors == AuthorsAfter(b, j, s, events[j], s')
    requires forall e :: e in s'.pending ==> Carried(s, events[j], s', e)
    requires forall x :: x in Completes(s, events[j], s') ==> x in s.pending
    requires ParkedBy(s, events[j]).Some? ==> ParkedBy(s, events[j]).value in s'.pending
    ensures Matches(FirstFate(s, events[j]), j, b')
  {
    BookBounds(events, j, s, b);
    AuthorMembers(b, j, s, events[j], s', j);
    forall e | e in b'.askers ensures b'.askers[e] == j <==> ParkedBy(s, events[j]) == Some(e) {
      assert Carried(s, events[j], s', e);
    }
  }

  lemma FatesNext(t: Timing, events: seq<Event>, j: nat, s: Snapshot, s': Snapshot, b: Book, b': Book)
    requires SnapOk(s) && j < |events| && BookOk(events, j, s, b) && TurnAt(t, j, s, events[j], s', b, b')
    ensures FatesOk(j + 1, b')
  {
    var ev := events[j];
    AllCarried(t, s, ev, s');
    EventCompletes(t, s, ev, s');
    forall e | e in s.pending ensures Settles(s, ev, s', e) { StaysOrEnds(t, s, ev, s', e); }
    if ParkedBy(s, ev).Some? { NewlyParked(t, s, ev, s', ParkedBy(s, ev).value); }
    FateStarts(events, j, s, s', b, b');
    forall i | 0 <= i < j ensures Matches(b'.fates[i], i, b') {
      FateWaits(s, ev, s', b, i, j, b.fates[i]);
      FateAnswered(s, ev, s', b, i, j, b.fates[i]);
    }
  }

  // ---- runs ----

  ghost predicate Turn(t: Timing, i: nat, s: Snapshot, ev: Event, s': Snapshot, b: Book, b': Book) {
    forall n: nat {:trigger TurnAt(t, n, s, ev, s', b, b')} :: n == i ==> TurnAt(t, n, s, ev, s', b, b')
  }

  ghost predicate Sound(events: seq<Event>, j: nat, s: Snapshot, b: Book) {
    forall n: nat {:trigger BookOk(events, n, s, b)} :: n == j ==> SnapOk(s) && BookOk(events, n, s, b)
  }

  lemma SoundNext(t: Timing, events: seq<Event>, j: nat, s: Snapshot, s': Snapshot, b: Book, b': Book)
    requires j < |events| && Sound(events, j, s, b) && Turn(t, j, s, events[j], s', b, b')
    ensures Sound(events, j + 1, s', b')
  {
    assert BookOk(events, j, s, b) && TurnAt(t, j, s, events[j], s', b, b');
    NextKeeps(t, s, events[j], s');
    EntriesNext(t, events, j, s, s', b, b');
    FatesNext(t, events, j, s, s', b, b');
  }

  lemma StartSound(events: seq<Event>)
    ensures Sound(events, 0, START, BLANK)
  {
    EmptyHolds();
    assert SnapOk(START) && EntriesOk(events, 0, START, BLANK) && FatesOk(0, BLANK);
  }

  /** A run of the server from its start, with the book kept beside it. */
  ghost predicate Chronicle(t: Timing, states: seq<Snapshot>, events: seq<Event>, books: seq<Book>) {
    && |states| == |books| == |events| + 1 && states[0] == START && books[0] == BLANK
    && forall k {:trigger events[k]} :: 0 <= k < |events| ==>
         Turn(t, k, states[k], events[k], states[k + 1], books[k], books[k + 1])
  }

  /**
  Over every run: a request waits exactly while it is parked, and it has been answered exactly when its
  fate is an answer; every answer goes back to one request, and no request has two.
  */
  lemma {:induction false} FatesHold(t: Timing, states: seq<Snapshot>, events: seq<Event>, books: seq<Book>, j: nat)
    requires Chronicle(t, states, events, books) && j <= |events|
    ensures Sound(events, j, states[j], books[j])
  {
    if j == 0 {
      StartSound(events);
    } else {
      FatesHold(t, states, events, books, j - 1);
      var ev := events[j - 1];
      SoundNext(t, events, j - 1, states[j - 1], states[j], books[j - 1], books[j]);
    }
  }

  /** Every run has such books. */
  lemma {:induction false} BooksExist(t: Timing, states: seq<Snapshot>, events: seq<Event>) returns (books: seq<Book>)
    requires |states| == |events| + 1 && states[0] == START
    requires forall k {:trigger events[k]} :: 0 <= k < |events| ==> Next(t, states[k], events[k], states[k + 1])
    ensures Chronicle(t, states, events, books)
  {
    books := [BLANK];
    var k := 0;
    while k < |events|
      invariant 0 <= k <= |events| && |books| == k + 1 && books[0] == BLANK
      invariant forall i {:trigger events[i]} :: 0 <= i < k ==>
                  Turn(t, i, states[i], events[i], states[i + 1], books[i], books[i + 1])
    {
      var b := Entered(t, k, states[k], events[k], states[k + 1], books[k]);
      books := books + [b];
      k := k + 1;
    }
  }

  lemma Entered(t: Timing, i: nat, s: Snapshot, ev: Event, s': Snapshot, b: Book) returns (b': Book)
    requires Next(t, s, ev, s')
    ensures Turn(t, i, s, ev, s', b, b')
  {
    var fates := seq(|b.fates|, k requires 0 <= k < |b.fates| => FateAfter(b.fates[k], s, ev, s'));
    b' := Book(AskersAfter(b, i, s, ev, s'), AuthorsAfter(b, i, s, ev, s'), fates + [FirstFate(s, ev)]);
  }

  /** A fate once met is final. */
  lemma {:induction false} FateIsFinal(t: Timing, states: seq<Snapshot>, events: seq<Event>, books: seq<Book>,
                                       i: nat, j: nat, l: nat)
    requires Chronicle(t, states, events, books) && i < j <= l <= |events|
    ensures |books[j].fates| == j && |books[l].fates| == l
    ensures books[j].fates[i].Ended? ==> books[l].fates[i] == books[j].fates[i]
    decreases l
  {
    FatesKept(t, states, events, books, j);
    FatesKept(t, states, events, books, l);
    if j < l {
      FateIsFinal(t, states, events, books, i, j, l - 1);
      var ev := events[l - 1];
      EndedStays(t, l - 1, states[l - 1], ev, states[l], books[l - 1], books[l], i);
    }
  }

  lemma FatesKept(t: Timing, states: seq<Snapshot>, events: seq<Event>, books: seq<Book>, j: nat)
    requires Chronicle(t, states, events, books) && j <= |events|
    ensures |books[j].fates| == j
  {
    FatesHold(t, states, events, books, j);
    assert BookOk(events, j, states[j], books[j]);
  }

  lemma EndedStays(t: Timing, j: nat, s: Snapshot, ev: Event, s': Snapshot, b: Book, b': Book, i: nat)
    requires Turn(t, j, s, ev, s', b, b') && i < |b.fates|
    ensures i < |b'.fates| && (b.fates[i].Ended? ==> b'.fates[i] == b.fates[i])
  {
    assert TurnAt(t, j, s, ev, s', b, b');
  }

  /**
  A request that ended in any other way than by an answer is never answered: not before its end, and not
  at any later time. An answer that bears its number goes back to another request of that number.
  */
  lemma DroppedNeverAnswered(t: Timing, states: seq<Snapshot>, events: seq<Event>, books: seq<Book>,
                             i: nat, j: nat, l: nat)
    requires Chronicle(t, states, events, books) && i < j <= |events| && i < l <= |events|
    requires |books[j].fates| == j && books[j].fates[i].Ended? && books[j].fates[i].cause != AnswerSent
    ensures i !in books[l].authors
    ensures forall a :: a in states[l].answers && Bears(a, events[i]) ==>
              exists k :: 0 <= k < l && k != i && Bears(a, events[k])
  {
    if j <= l {
      FateIsFinal(t, states, events, books, i, j, l);
    } else {
      FateIsFinal(t, states, events, books, i, l, j);
    }
    FatesHold(t, states, events, books, l);
    NotAuthor(events, l, states[l], books[l], i);
  }

  lemma NotAuthor(events: seq<Event>, j: nat, s: Snapshot, b: Book, i: nat)
    requires Sound(events, j, s, b) && i < j == |b.fates| <= |events| && b.fates[i] != Ended(AnswerSent)
    ensures i !in b.authors
    ensures forall a :: a in s.answers && Bears(a, events[i]) ==>
              exists k :: 0 <= k < j && k != i && Bears(a, events[k])
  {
    assert BookOk(events, j, s, b);
    assert Matches(b.fates[i], i, b);
    forall a | a in s.answers && Bears(a, events[i]) ensures exists k :: 0 <= k < j && k != i && Bears(a, events[k]) {
      var x :| 0 <= x < |s.answers| && s.answers[x] == a;
      assert AuthorOk(events, j, s.answers[x], b.authors[x]);
    }
  }

  /**
  An unadvertise from a client that does not own the endpoint is refused, and still ends the request parked
  for it, whose client and publisher are both there.
  */
  lemma StrangerUnadvertises(t: Timing, s: Snapshot, e: nat, fd: nat, id: nat, node: nat)
    requires SnapOk(s) && e in s.pending && fd in s.clients && !Owns(s.reg, s.clients[fd], node)
    ensures var ev := Ask(fd, id, UnadvertiseTopic(node, e));
            var s' := s.(pending := s.pending - {e}, answers := s.answers + [Answer(fd, id, EndpointNotFound)]);
            && Next(t, s, ev, s') && EndIn(s, ev, s', e) == Some(Unadvertised)
            && e in s'.reg.pubs && s.pending[e].fd in s'.clients
  {
    ParkedHavePubs(s.reg, s.clients, s.pending);
    assert s.pending[e] == s.pending[e];
  }

  /** So it is with the server itself: whatever reaches it, its requests meet these fates. */
  method ServeAccounted(timing: Timing, events: seq<Event>)
    returns (v: Server, taken: seq<Event>, ghost states: seq<Snapshot>, ghost books: seq<Book>)
    requires ValidTiming(timing)
    ensures Chronicle(timing, states, taken, books) && states[|taken|] == Snap(v)
    ensures forall j :: 0 <= j <= |taken| ==> Sound(taken, j, states[j], books[j])
  {
    v, taken, states := Serve(timing, events);
    books := BooksExist(timing, states, taken);
    forall j | 0 <= j <= |taken| ensures Sound(taken, j, states[j], books[j]) {
      FatesHold(timing, states, taken, books, j);
    }
  }
}
