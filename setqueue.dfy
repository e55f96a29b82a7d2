/**
 * `SetQueue`: a first-in first-out queue that holds each item at most once.
 * The Python class is a `set` subclass that also keeps a `deque` of its
 * members in insertion order; the same class is copied into the older
 * `art` package, and this one model serves both.
 */
module SetQueues {
  import opened PyValues

  /** No item occurs twice in `q`. */
  predicate NoDuplicates<T(==)>(q: seq<T>) {
    forall i, j :: 0 <= i < j < |q| ==> q[i] != q[j]
  }

  /** The deque after `add(x)`: `x` is appended only when it is absent. */
  function AddUnique<T(==)>(q: seq<T>, x: T): seq<T> {
    if x in q then q else q + [x]
  }

  /** The deque after adding every item of `xs`, first to last. */
  function Enqueued<T(==)>(q: seq<T>, xs: seq<T>): seq<T>
    decreases |xs|
  {
    if xs == [] then q else Enqueued(AddUnique(q, xs[0]), xs[1..])
  }

  /** Whether or not `q` is duplicate-free, adding `xs` leaves in it exactly the old items and the new ones. */
  lemma {:induction false} EnqueuedItems<T>(q: seq<T>, xs: seq<T>)
    ensures forall y :: y in Enqueued(q, xs) <==> y in q || y in xs
    decreases |xs|
  {
    if xs != [] {
      EnqueuedItems(AddUnique(q, xs[0]), xs[1..]);
      assert forall y :: y in xs <==> y == xs[0] || y in xs[1..];
    }
  }

  /** Adding `xs[i..]` is adding `xs[i]`, then `xs[i + 1..]`. */
  lemma EnqueuedStep<T>(q: seq<T>, xs: seq<T>, i: nat)
    requires i < |xs|
    ensures Enqueued(q, xs[i..]) == Enqueued(AddUnique(q, xs[i]), xs[i + 1..])
  {
    assert xs[i..][1..] == xs[i + 1..];
  }

  /** Adding a one-item list is `add` of that item. */
  lemma EnqueuedOne<T>(q: seq<T>, x: T)
    ensures Enqueued(q, [x]) == AddUnique(q, x)
  {
    assert [x][1..] == [];
  }

  /** `q` with every occurrence of `x` deleted. */
  function Without<T(==)>(q: seq<T>, x: T): seq<T> {
    if q == [] then []
    else if q[0] == x then Without(q[1..], x)
    else [q[0]] + Without(q[1..], x)
  }

  lemma AddUniqueSpec<T>(q: seq<T>, x: T)
    requires NoDuplicates(q)
    ensures NoDuplicates(AddUnique(q, x))
    ensures forall y :: y in AddUnique(q, x) ==> y in q || y == x
    ensures forall y :: y in q ==> y in AddUnique(q, x)
    ensures x in AddUnique(q, x)
    ensures x in q ==> AddUnique(q, x) == q
    ensures x !in q ==> AddUnique(q, x)[..|q|] == q && AddUnique(q, x)[|q|] == x
  {
    if x !in q {
      var r := q + [x];
      forall i, j | 0 <= i < j < |r| ensures r[i] != r[j] {
        if j == |q| {
          assert r[i] == q[i];
        }
      }
    }
  }

  /**
   * Adding a list of items keeps the queue duplicate-free, keeps what was
   * queued in front, and leaves in it exactly the old items and the new ones.
   */
  lemma {:induction false} EnqueuedSpec<T>(q: seq<T>, xs: seq<T>)
    requires NoDuplicates(q)
    ensures NoDuplicates(Enqueued(q, xs))
    ensures |q| <= |Enqueued(q, xs)| && Enqueued(q, xs)[..|q|] == q
    ensures forall y :: y in Enqueued(q, xs) ==> y in q || y in xs
    ensures forall y :: y in q ==> y in Enqueued(q, xs)
    ensures forall y :: y in xs ==> y in Enqueued(q, xs)
    decreases |xs|
  {
    if xs != [] {
      AddUniqueSpec(q, xs[0]);
      var q' := AddUnique(q, xs[0]);
      EnqueuedSpec(q', xs[1..]);
      assert forall y :: y in q' <==> y in q || y == xs[0];
      assert forall y :: y in xs <==> y == xs[0] || y in xs[1..];
      assert Enqueued(q, xs)[..|q'|] == q';
      assert q'[..|q|] == q;
    }
  }

  lemma {:induction false} WithoutSpec<T>(q: seq<T>, x: T)
    requires NoDuplicates(q)
    ensures NoDuplicates(Without(q, x))
    ensures forall y :: y in Without(q, x) ==> y in q && y != x
    ensures forall y :: y in q && y != x ==> y in Without(q, x)
    ensures x in q ==> |Without(q, x)| == |q| - 1
    ensures x !in q ==> Without(q, x) == q
    decreases |q|
  {
    if q != [] {
      assert NoDuplicates(q[1..]) by {
        forall i, j | 0 <= i < j < |q[1..]| ensures q[1..][i] != q[1..][j] {
          assert q[1..][i] == q[i + 1] && q[1..][j] == q[j + 1];
        }
      }
      WithoutSpec(q[1..], x);
      assert forall y :: y in q <==> y == q[0] || y in q[1..];
      assert q[0] !in q[1..] by {
        forall k | 0 <= k < |q[1..]| ensures q[1..][k] != q[0] {
          assert q[1..][k] == q[k + 1];
        }
      }
      if q[0] != x {
        var r := [q[0]] + Without(q[1..], x);
        forall i, j | 0 <= i < j < |r| ensures r[i] != r[j] {
          if i == 0 {
            assert r[j] in Without(q[1..], x);
          } else {
            assert r[i] == Without(q[1..], x)[i - 1] && r[j] == Without(q[1..], x)[j - 1];
          }
        }
        assert x !in q ==> Without(q, x) == [q[0]] + q[1..];
      }
    }
  }

  /** A set with a deque of its members in insertion order. */
  class SetQueue<T(==)> {
    /** The members of the `set` the Python class inherits from. */
    var members: set<T>
    /** The `_queue` deque. */
    var queue: seq<T>

    /** The set holds exactly the deque's items, and the deque holds each once. */
    ghost predicate Valid()
      reads this
    {
      (forall x :: x in members ==> x in queue) &&
      (forall i :: 0 <= i < |queue| ==> queue[i] in members) &&
      NoDuplicates(queue)
    }

    constructor ()
      ensures Valid() && queue == [] && members == {}
    {
      members := {};
      queue := [];
    }

    /** `__len__` (inherited from `set`): the number of members. */
    method Length() returns (n: nat)
      requires Valid()
      ensures n == |queue|
    {
      n := |members|;
      DistinctCount(queue, members);
    }

    /** `__iter__`: the items in deque order. */
    method Items() returns (items: seq<T>)
      requires Valid()
      ensures items == queue
    {
      items := queue;
    }

    /** `add`: appends `x` unless it is already a member. */
    method Add(x: T)
      requires Valid()
      modifies this
      ensures Valid()
      ensures queue == AddUnique(old(queue), x)
      ensures members == old(members) + {x}
    {
      AddUniqueSpec(queue, x);
      if x !in members {
        members := members + {x};
        queue := queue + [x];
      }
    }

    /** `pop`: removes and returns the oldest item; an empty deque raises `IndexError`. */
    method Pop() returns (r: Outcome<T>)
      requires Valid()
      modifies this
      ensures Valid()
      ensures old(queue) == [] ==> r == Raise(IndexError) && queue == old(queue)
      ensures old(queue) != [] ==> r == Ok(old(queue)[0]) && queue == old(queue)[1..]
      ensures members == old(members) - (if r.Ok? then {r.value} else {})
    {
      if queue == [] {
        return Raise(IndexError);
      }
      var item := queue[0];
      WithoutSpec(queue, item);
      assert queue == [item] + queue[1..];
      assert queue[1..] == Without(queue, item) by {
        assert item !in queue[1..] by {
          forall k | 0 <= k < |queue[1..]| ensures queue[1..][k] != item {
            assert queue[1..][k] == queue[k + 1];
          }
        }
        WithoutSpec(queue[1..], item);
      }
      queue := queue[1..];
      members := members - {item};
      r := Ok(item);
    }

    /** `remove`: deletes `x` from both; a non-member raises `KeyError`. */
    method Remove(x: T) returns (r: Outcome<()>)
      requires Valid()
      modifies this
      ensures Valid()
      ensures x !in old(members) ==> r == Raise(KeyError) && queue == old(queue) && members == old(members)
      ensures x in old(members) ==> r == Ok(()) && queue == Without(old(queue), x) && members == old(members) - {x}
    {
      if x !in members {
        return Raise(KeyError);
      }
      WithoutSpec(queue, x);
      ghost var rest := Without(queue, x);
      forall i | 0 <= i < |rest| ensures rest[i] in members - {x} {
        assert rest[i] in rest;
        var j :| 0 <= j < |queue| && queue[j] == rest[i];
      }
      members := members - {x};
      queue := Without(queue, x);
      r := Ok(());
    }

    /** `clear`: empties both. */
    method Clear()
      modifies this
      ensures Valid() && queue == [] && members == {}
    {
      members := {};
      queue := [];
    }
  }

  /** A duplicate-free sequence has as many items as its set of items. */
  lemma {:induction false} DistinctCount<T>(q: seq<T>, s: set<T>)
    requires NoDuplicates(q)
    requires forall x :: x in s <==> x in q
    ensures |s| == |q|
    decreases |q|
  {
    if q != [] {
      var rest := q[1..];
      assert NoDuplicates(rest) by {
        forall i, j | 0 <= i < j < |rest| ensures rest[i] != rest[j] {
          assert rest[i] == q[i + 1] && rest[j] == q[j + 1];
        }
      }
      DistinctCount(rest, s - {q[0]});
      assert q[0] !in rest by {
        forall k | 0 <= k < |rest| ensures rest[k] != q[0] {
          assert rest[k] == q[k + 1];
        }
      }
      assert forall x :: x in q <==> x == q[0] || x in rest;
    }
  }
}
