/**
What the publisher's list of connections says, one entry per connection: the handles each owes, and
the release frames each has sent. Removing connections filters such lists; waiting only adds frames.
*/
module ConnectionLists {
  import opened Basics
  import opened PoolModel
  import opened Protocol

  datatype Entry = Entry(endpoint: nat, handles: seq<ChunkHandle>)

  function Debts(cs: seq<Connection>): (r: seq<Entry>)
    ensures |r| == |cs|
    ensures forall k :: 0 <= k < |cs| ==> r[k] == Entry(cs[k].endpoint, cs[k].outstanding)
  {
    seq(|cs|, k requires 0 <= k < |cs| => Entry(cs[k].endpoint, cs[k].outstanding))
  }

  function Frames(cs: seq<Connection>): (r: seq<Entry>)
    ensures |r| == |cs|
    ensures forall k :: 0 <= k < |cs| ==> r[k] == Entry(cs[k].endpoint, cs[k].releases)
  {
    seq(|cs|, k requires 0 <= k < |cs| => Entry(cs[k].endpoint, cs[k].releases))
  }

  ghost predicate Distinct(d: seq<Entry>) {
    forall i, j :: 0 <= i < j < |d| ==> d[i].endpoint != d[j].endpoint
  }

  // ---- removing ----

  /** The entries of all endpoints but those in `gone`, in order. */
  function Others(d: seq<Entry>, gone: set<nat>): seq<Entry> {
    if d == [] then []
    else
      var n := |d| - 1;
      Others(d[..n], gone) + if d[n].endpoint in gone then [] else [d[n]]
  }

  lemma {:induction false} OthersMembers(d: seq<Entry>, gone: set<nat>)
    ensures forall x :: x in Others(d, gone) <==> x in d && x.endpoint !in gone
  {
    if d != [] {
      var n := |d| - 1;
      OthersMembers(d[..n], gone);
      assert d == d[..n] + [d[n]];
    }
  }

  lemma {:induction false} OthersNone(d: seq<Entry>, gone: set<nat>)
    requires forall k :: 0 <= k < |d| ==> d[k].endpoint !in gone
    ensures Others(d, gone) == d
  {
    if d != [] { OthersNone(d[..|d| - 1], gone); }
  }

  lemma OthersJoin(d: seq<Entry>, x: Entry, gone: set<nat>)
    ensures Others(d + [x], gone) == Others(d, gone) + if x.endpoint in gone then [] else [x]
  {
    assert (d + [x])[..|d|] == d;
  }

  lemma {:induction false} OthersTwice(d: seq<Entry>, a: set<nat>, b: set<nat>)
    ensures Others(Others(d, a), b) == Others(d, a + b)
  {
    if d != [] {
      var n := |d| - 1;
      OthersTwice(d[..n], a, b);
      if d[n].endpoint in a {
        assert Others(d, a) == Others(d[..n], a);
      } else {
        OthersJoin(Others(d[..n], a), d[n], b);
      }
    }
  }

  lemma {:induction false} OthersDrop(d: seq<Entry>, k: nat)
    requires k < |d| && Distinct(d)
    ensures Others(d, {d[k].endpoint}) == Drop(d, k)
  {
    var n := |d| - 1;
    if k == n {
      OthersNone(d[..n], {d[k].endpoint});
      assert Drop(d, k) == d[..n];
    } else {
      OthersDrop(d[..n], k);
      assert d[n].endpoint != d[k].endpoint;
      assert Drop(d, k) == Drop(d[..n], k) + [d[n]];
    }
  }

  lemma {:induction false} OthersDropGone(d: seq<Entry>, k: nat, gone: set<nat>)
    requires k < |d| && d[k].endpoint in gone
    ensures Others(Drop(d, k), gone) == Others(d, gone)
  {
    var n := |d| - 1;
    if k == n {
      assert Drop(d, k) == d[..n];
    } else {
      OthersDropGone(d[..n], k, gone);
      assert Drop(d, k) == Drop(d[..n], k) + [d[n]];
      OthersJoin(Drop(d[..n], k), d[n], gone);
    }
  }

  /** The entries of the listed endpoints, in order. */
  function Only(d: seq<Entry>, listed: set<nat>): seq<Entry> {
    if d == [] then []
    else
      var n := |d| - 1;
      Only(d[..n], listed) + if d[n].endpoint in listed then [d[n]] else []
  }

  lemma {:induction false} OnlyOthers(d: seq<Entry>, e: nat, listed: set<nat>)
    requires e !in listed
    ensures Only(Others(d, {e}), listed) == Only(d, listed)
  {
    if d != [] {
      var n := |d| - 1;
      OnlyOthers(d[..n], e, listed);
      if d[n].endpoint == e {
        assert Others(d, {e}) == Others(d[..n], {e});
      } else {
        assert Others(d, {e})[..|Others(d, {e})| - 1] == Others(d[..n], {e});
      }
    }
  }

  lemma {:induction false} OnlyAll(d: seq<Entry>, listed: set<nat>)
    requires forall k :: 0 <= k < |d| ==> d[k].endpoint in listed
    ensures Only(d, listed) == d
  {
    if d != [] { OnlyAll(d[..|d| - 1], listed); }
  }

  // ---- frames arriving ----

  /** The same endpoints, each with the same entries first and perhaps more. */
  ghost predicate Grow(a: seq<Entry>, b: seq<Entry>) {
    && |a| == |b|
    && forall k {:trigger a[k]} {:trigger b[k]} :: 0 <= k < |a| ==>
       a[k].endpoint == b[k].endpoint && a[k].handles <= b[k].handles
  }

  lemma GrowTwice(a: seq<Entry>, b: seq<Entry>, c: seq<Entry>)
    requires Grow(a, b) && Grow(b, c)
    ensures Grow(a, c)
  {
    forall k | 0 <= k < |a| ensures a[k].endpoint == c[k].endpoint && a[k].handles <= c[k].handles {
      assert a[k].endpoint == b[k].endpoint;
    }
  }

  lemma GrowDrop(a: seq<Entry>, b: seq<Entry>, k: nat)
    requires Grow(a, b) && k < |a|
    ensures Grow(Drop(a, k), Drop(b, k))
  {
    var x, y := Drop(a, k), Drop(b, k);
    forall j | 0 <= j < |x| ensures x[j].endpoint == y[j].endpoint && x[j].handles <= y[j].handles {
      var i := if j < k then j else j + 1;
      assert x[j] == a[i] && y[j] == b[i];
    }
  }

  // ---- taking the frames in ----

  /** No handle whose frame was in `waiting` is still owed by the first `i`; the others' frames are still there. */
  ghost predicate TakenIn(waiting: seq<Entry>, frames: seq<Entry>, debts: seq<Entry>, i: nat) {
    && |waiting| == |frames| == |debts| && i <= |waiting|
    && (forall k :: 0 <= k < |waiting| ==> waiting[k].endpoint == debts[k].endpoint == frames[k].endpoint)
    && (forall k :: 0 <= k < i ==> forall h :: h in waiting[k].handles ==> h !in debts[k].handles)
    && (forall k :: i <= k < |waiting| ==> waiting[k].handles <= frames[k].handles)
  }

  lemma TakenInNone(cs: seq<Connection>)
    ensures TakenIn(Frames(cs), Frames(cs), Debts(cs), 0)
  {
  }

  /** Entry `i` has taken all its frames in, and the others have at most sent more. */
  lemma TakenInNext(waiting: seq<Entry>, frames: seq<Entry>, debts: seq<Entry>, i: nat, frames': seq<Entry>,
                    debts': seq<Entry>)
    requires TakenIn(waiting, frames, debts, i) && i < |waiting| && |debts'| == |debts| == |frames'|
    requires debts' == debts[i := Entry(debts[i].endpoint, debts'[i].handles)]
    requires forall h :: h in frames[i].handles ==> h !in debts'[i].handles
    requires frames'[i].endpoint == frames[i].endpoint && Grow(frames, frames'[i := frames[i]])
    ensures TakenIn(waiting, frames', debts', i + 1)
  {
    forall k | i < k < |waiting| ensures waiting[k].handles <= frames'[k].handles {
      assert frames'[i := frames[i]][k] == frames'[k];
    }
    forall k | 0 <= k < |waiting| ensures frames'[k].endpoint == waiting[k].endpoint {
      assert frames'[i := frames[i]][k].endpoint == frames[k].endpoint;
    }
    forall h | h in waiting[i].handles ensures h !in debts'[i].handles {
      assert h in frames[i].handles;
    }
  }

  /** Entry `i` goes. */
  lemma TakenInDrop(waiting: seq<Entry>, frames: seq<Entry>, debts: seq<Entry>, i: nat, frames': seq<Entry>)
    requires TakenIn(waiting, frames, debts, i) && i < |waiting| && Grow(Drop(frames, i), frames')
    ensures TakenIn(Drop(waiting, i), frames', Drop(debts, i), i)
  {
    var w, f, d := Drop(waiting, i), Drop(frames, i), Drop(debts, i);
    forall k | 0 <= k < |w|
      ensures w[k].endpoint == d[k].endpoint == frames'[k].endpoint
      ensures k < i ==> forall h :: h in w[k].handles ==> h !in d[k].handles
      ensures i <= k ==> w[k].handles <= frames'[k].handles
    {
      var j := if k < i then k else k + 1;
      assert w[k] == waiting[j] && f[k] == frames[j] && d[k] == debts[j];
    }
  }
}
