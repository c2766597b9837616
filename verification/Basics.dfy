/** Types, constants and sequence facts shared by the models. */
module Basics {

  datatype Option<+T> = None | Some(value: T)

  type Byte = b: nat | b < 0x100

  const U16_LIMIT: nat := 0x1_0000
  const U32_LIMIT: nat := 0x1_0000_0000
  const U64_LIMIT: nat := 0x1_0000_0000_0000_0000

  datatype ErrorCode =
    | Ok
    | InvalidArgument
    | InvalidState
    | MessageTooLarge
    | ConnectionLost
    | InvalidFrame
    | DuplicateNode
    | DuplicatePublisher
    | TypeMismatch
    | TopicNotFound
    | InvalidControlMessage
    | UnsupportedProtocolVersion
    | UnknownOpcode
    | NotRegistered
    | EndpointNotFound
    | TransportMismatch
    | SharedMemoryError
    | InvalidSharedMemory
    | PoolExhausted
    | InvalidChunkHandle
    | DuplicateRelease
    | QueueFull
    | QueueTimeout
    | QueueClosed

  ghost predicate NoDup<T>(s: seq<T>) {
    forall i, j :: 0 <= i < j < |s| ==> s[i] != s[j]
  }

  function Min(a: nat, b: nat): nat {
    if a <= b then a else b
  }

  /** The position of the first occurrence of `x`, or the length when there is none. */
  function Find<T(==)>(s: seq<T>, x: T): (k: nat)
    ensures k <= |s|
    ensures k < |s| ==> s[k] == x
    ensures forall j :: 0 <= j < k ==> s[j] != x
    ensures k == |s| <==> x !in s
  {
    if s == [] then 0
    else if s[0] == x then 0
    else
      assert s == [s[0]] + s[1..];
      1 + Find(s[1..], x)
  }

  /** The sequence without its element at `k`. */
  function Drop<T>(s: seq<T>, k: nat): (r: seq<T>)
    requires k < |s|
  {
    s[..k] + s[k + 1..]
  }

  lemma DropFacts<T>(s: seq<T>, k: nat)
    requires k < |s|
    ensures multiset(Drop(s, k)) == multiset(s) - multiset{s[k]}
    ensures forall x :: x in Drop(s, k) ==> x in s
    ensures forall x :: x in s && x != s[k] ==> x in Drop(s, k)
    ensures NoDup(s) ==> NoDup(Drop(s, k)) && s[k] !in Drop(s, k)
  {
    DropMultiset(s, k);
    forall x | x in s && x != s[k] ensures x in Drop(s, k) {
      var i :| 0 <= i < |s| && s[i] == x;
      assert Drop(s, k)[if i < k then i else i - 1] == x;
    }
    forall x | x in Drop(s, k) ensures x in s {
      var i :| 0 <= i < |Drop(s, k)| && Drop(s, k)[i] == x;
      assert s[if i < k then i else i + 1] == x;
    }
  }

  lemma DropMultiset<T>(s: seq<T>, k: nat)
    requires k < |s|
    ensures multiset(Drop(s, k)) == multiset(s) - multiset{s[k]}
  {
    assert s == s[..k] + [s[k]] + s[k + 1..];
    assert multiset(s) == multiset(s[..k]) + multiset{s[k]} + multiset(s[k + 1..]);
  }

  lemma HeadFacts<T>(s: seq<T>)
    requires s != []
    ensures multiset(s) == multiset{s[0]} + multiset(s[1..])
    ensures NoDup(s) ==> NoDup(s[1..]) && s[0] !in s[1..]
  {
    assert s == [s[0]] + s[1..];
  }

  function Elements<T(==)>(s: seq<T>): set<T> {
    set x | x in s
  }

  lemma LastApart<T>(s: seq<T>)
    requires s != []
    ensures forall x :: x in s <==> x in s[..|s| - 1] || x == s[|s| - 1]
  {
    assert s == s[..|s| - 1] + [s[|s| - 1]];
  }

  lemma ElementsNext<T>(s: seq<T>, k: nat)
    requires k < |s|
    ensures Elements(s[..k + 1]) == Elements(s[..k]) + {s[k]}
    ensures s[k] in Elements(s) && (NoDup(s) ==> s[k] !in Elements(s[..k]))
  {
    assert s[..k + 1] == s[..k] + [s[k]];
  }

  lemma JoinFacts<T>(a: seq<T>, b: seq<T>)
    ensures (a + b)[..|a|] == a && (a + b)[|a|..] == b
  {
  }

  lemma JoinOne<T>(a: seq<T>, b: seq<T>, x: T)
    ensures a + (b + [x]) == (a + b) + [x]
  {
  }

  lemma SliceHead<T>(s: seq<T>, k: nat)
    requires k < |s|
    ensures s[k..] == [s[k]] + s[k + 1..]
  {
  }

  // ---- runs of a transition relation ----

  ghost predicate Moves<S(!new), L>(rel: (S, L, S) -> bool, states: seq<S>, steps: seq<L>, i: nat)
    requires i < |steps| && |states| == |steps| + 1
  {
    rel(states[i], steps[i], states[i + 1])
  }

  /** `states` are the states passed through when taking `steps` one after the other. */
  ghost predicate Visits<S(!new), L>(rel: (S, L, S) -> bool, states: seq<S>, steps: seq<L>) {
    && |states| == |steps| + 1
    && forall i {:trigger Moves(rel, states, steps, i)} :: 0 <= i < |steps| ==> Moves(rel, states, steps, i)
  }

  /** Taking `steps` one after the other leads from `s` to `t`. */
  ghost predicate Path<S(!new), L>(rel: (S, L, S) -> bool, s: S, steps: seq<L>, t: S) {
    exists states :: Visits(rel, states, steps) && states[0] == s && states[|steps|] == t
  }

  lemma PathNone<S(!new), L>(rel: (S, L, S) -> bool, s: S, steps: seq<L>)
    requires steps == []
    ensures Path(rel, s, steps, s)
  {
    assert Visits(rel, [s], steps);
  }

  lemma PathOne<S(!new), L>(rel: (S, L, S) -> bool, s: S, step: L, t: S)
    requires rel(s, step, t)
    ensures Path(rel, s, [step], t)
  {
    assert Visits(rel, [s, t], [step]);
  }

  /** The first step of a path and the path after it. */
  lemma PathHead<S(!new), L>(rel: (S, L, S) -> bool, s: S, steps: seq<L>, t: S) returns (m: S)
    requires steps != [] && Path(rel, s, steps, t)
    ensures rel(s, steps[0], m) && Path(rel, m, steps[1..], t)
  {
    var states :| Visits(rel, states, steps) && states[0] == s && states[|steps|] == t;
    m := states[1];
    assert Moves(rel, states, steps, 0);
    var rest := states[1..];
    forall i {:trigger Moves(rel, rest, steps[1..], i)} | 0 <= i < |steps[1..]|
      ensures Moves(rel, rest, steps[1..], i)
    {
      assert Moves(rel, states, steps, i + 1);
    }
    assert Visits(rel, rest, steps[1..]);
  }

  lemma PathAppend<S(!new), L>(rel: (S, L, S) -> bool, s: S, a: seq<L>, t: S, b: seq<L>, u: S)
    requires Path(rel, s, a, t) && Path(rel, t, b, u)
    ensures Path(rel, s, a + b, u)
  {
    var x :| Visits(rel, x, a) && x[0] == s && x[|a|] == t;
    var y :| Visits(rel, y, b) && y[0] == t && y[|b|] == u;
    var z := x + y[1..];
    forall i {:trigger Moves(rel, z, a + b, i)} | 0 <= i < |a + b| ensures Moves(rel, z, a + b, i) {
      if i < |a| {
        assert Moves(rel, x, a, i);
      } else {
        assert Moves(rel, y, b, i - |a|);
      }
    }
    assert Visits(rel, z, a + b);
  }

  /** Distinct naturals below `n` number at most `n`. */
  lemma {:induction false} PigeonHole(s: seq<nat>, n: nat)
    requires NoDup(s)
    requires forall x :: x in s ==> x < n
    ensures |s| <= n
  {
    if s == [] {
    } else if s[0] in s && n - 1 in s {
      var k := Find(s, n - 1);
      DropFacts(s, k);
      PigeonHole(Drop(s, k), n - 1);
    } else {
      PigeonHole(s, n - 1);
    }
  }
}
