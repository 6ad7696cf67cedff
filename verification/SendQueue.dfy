/**
 The ticket queue that orders the concurrent writers of one channel
 (libadb/src/base/send_queue.rs), and its refinement of a plain list of the
 writers still waiting.
 */
module SendQueues {

  /** Places `head..tail` are handed out; those in `gone` were left early. */
  datatype Queue = Queue(head: nat, tail: nat, gone: set<nat>, sending: nat)

  const EMPTY := Queue(0, 0, {}, 0)

  /**
   What every operation keeps: a departed place lies strictly between the head
   and the last place, so neither end of the queue is ever a departed writer.
   */
  ghost predicate Valid(q: Queue) {
    && q.head <= q.tail
    && forall p <- q.gone :: q.head < p < q.tail - 1
  }

  /** The places in `lo..hi` that nobody has left, in order. */
  ghost function Places(lo: nat, hi: nat, gone: set<nat>): (places: seq<nat>)
    decreases hi - lo
  {
    if lo >= hi then []
    else (if lo in gone then [] else [lo]) + Places(lo + 1, hi, gone)
  }

  /** The queue as a plain list: the places of the writers still waiting. */
  ghost function Waiters(q: Queue): (places: seq<nat>) {
    Places(q.head, q.tail, q.gone)
  }

  // ---- operations on values ----

  function Enqueue(q: Queue): Queue {
    q.(tail := q.tail + 1)
  }

  /** Where the head lands once it passes the departed places behind it. */
  function SkipUp(q: Queue): Queue
    decreases |q.gone|
  {
    if q.head in q.gone then SkipUp(q.(head := q.head + 1, gone := q.gone - {q.head})) else q
  }

  function Advance(q: Queue): Queue {
    SkipUp(q.(head := q.head + 1))
  }

  /** Where the tail lands once it gives back the departed places before it. */
  function SkipDown(q: Queue): Queue
    decreases |q.gone|
  {
    if q.tail > q.head && q.tail - 1 in q.gone then
      SkipDown(q.(tail := q.tail - 1, gone := q.gone - {q.tail - 1}))
    else q
  }

  function Serve(q: Queue): Queue {
    Advance(q.(sending := q.sending + 1))
  }

  function Finish(q: Queue): Queue
    requires q.sending > 0
  {
    q.(sending := q.sending - 1)
  }

  function Leave(q: Queue, place: nat): Queue {
    if place == q.head then Advance(q)
    else if place + 1 == q.tail then SkipDown(q.(tail := place))
    else if place > q.head then q.(gone := q.gone + {place})
    else q
  }

  predicate IsEmpty(q: Queue) {
    q.head == q.tail
  }

  // ---- the list behind the queue ----

  ghost predicate StrictlyUp(s: seq<nat>) {
    forall i, j :: 0 <= i < j < |s| ==> s[i] < s[j]
  }

  ghost function Without(s: seq<nat>, k: nat): (r: seq<nat>)
    requires k < |s|
  {
    s[..k] + s[k + 1..]
  }

  /** The list holds exactly the places in range that nobody left, in order. */
  lemma {:induction false} LiveMembers(lo: nat, hi: nat, gone: set<nat>)
    ensures forall p :: p in Places(lo, hi, gone) <==> lo <= p < hi && p !in gone
    ensures StrictlyUp(Places(lo, hi, gone))
    decreases hi - lo
  {
    if lo < hi {
      LiveMembers(lo + 1, hi, gone);
      var rest := Places(lo + 1, hi, gone);
      var all := Places(lo, hi, gone);
      if lo !in gone {
        assert all == [lo] + rest;
        forall i, j | 0 <= i < j < |all| ensures all[i] < all[j] {
          assert all[j] == rest[j - 1] && rest[j - 1] in rest;
        }
      } else {
        assert all == rest;
      }
    }
  }

  /** Two strictly ascending lists with the same members are the same list. */
  lemma {:induction false} SameMembersSameList(a: seq<nat>, b: seq<nat>)
    requires StrictlyUp(a) && StrictlyUp(b)
    requires forall p :: p in a <==> p in b
    ensures a == b
  {
    if a != [] { assert a[0] in a; }
    if b != [] { assert b[0] in b; }
    if a != [] {
      assert a[0] == b[0];
      forall p ensures p in a[1..] <==> p in b[1..] {
        if p in a[1..] { assert p in a && p != a[0]; }
        if p in b[1..] { assert p in b && p != b[0]; }
      }
      SameMembersSameList(a[1..], b[1..]);
      assert a == [a[0]] + a[1..] && b == [b[0]] + b[1..];
    }
  }

  lemma WaitersAre(q: Queue)
    ensures StrictlyUp(Waiters(q))
    ensures forall p :: p in Waiters(q) <==> q.head <= p < q.tail && p !in q.gone
  {
    LiveMembers(q.head, q.tail, q.gone);
  }

  lemma {:induction false} SkipUpKeeps(q: Queue)
    requires q.head <= q.tail && (forall p <- q.gone :: q.head <= p < q.tail - 1)
    ensures Valid(SkipUp(q)) && Waiters(SkipUp(q)) == Waiters(q)
    ensures SkipUp(q).sending == q.sending
    decreases |q.gone|
  {
    if q.head in q.gone {
      var r := q.(head := q.head + 1, gone := q.gone - {q.head});
      WaitersAre(q);
      WaitersAre(r);
      SameMembersSameList(Waiters(q), Waiters(r));
      SkipUpKeeps(r);
    }
  }

  lemma {:induction false} SkipDownKeeps(q: Queue)
    requires q.head < q.tail && (forall p <- q.gone :: q.head < p < q.tail)
    ensures Valid(SkipDown(q)) && Waiters(SkipDown(q)) == Waiters(q)
    ensures SkipDown(q).sending == q.sending
    decreases |q.gone|
  {
    if q.tail - 1 in q.gone {
      var r := q.(tail := q.tail - 1, gone := q.gone - {q.tail - 1});
      WaitersAre(q);
      WaitersAre(r);
      SameMembersSameList(Waiters(q), Waiters(r));
      SkipDownKeeps(r);
    }
  }

  /** Passing departed places starts and ends no send. */
  lemma {:induction false} SkipUpSending(q: Queue)
    ensures SkipUp(q).sending == q.sending
    decreases |q.gone|
  {
    if q.head in q.gone { SkipUpSending(q.(head := q.head + 1, gone := q.gone - {q.head})); }
  }

  lemma {:induction false} SkipDownSending(q: Queue)
    ensures SkipDown(q).sending == q.sending
    decreases |q.gone|
  {
    if q.tail > q.head && q.tail - 1 in q.gone {
      SkipDownSending(q.(tail := q.tail - 1, gone := q.gone - {q.tail - 1}));
    }
  }

  lemma {:induction false} SkipDownKeepsHead(q: Queue)
    ensures SkipDown(q).head == q.head
    decreases |q.gone|
  {
    if q.tail > q.head && q.tail - 1 in q.gone {
      SkipDownKeepsHead(q.(tail := q.tail - 1, gone := q.gone - {q.tail - 1}));
    }
  }

  /** Whoever leaves from behind the head does not move it. */
  lemma LeaveKeepsHead(q: Queue, place: nat)
    requires place != q.head
    ensures Leave(q, place).head == q.head
  {
    SkipDownKeepsHead(q.(tail := place));
  }

  /** `serve` starts one send; taking or leaving a place starts none. */
  lemma SendingCounts(q: Queue, place: nat)
    ensures Serve(q).sending == q.sending + 1
    ensures Leave(q, place).sending == q.sending
    ensures Enqueue(q).sending == q.sending
  {
    SkipUpSending(q.(sending := q.sending + 1, head := q.head + 1));
    SkipUpSending(q.(head := q.head + 1));
    SkipDownSending(q.(tail := place));
  }

  /** `enqueue` appends, and hands out a place no waiting writer holds. */
  lemma EnqueueAppends(q: Queue)
    requires Valid(q)
    ensures Valid(Enqueue(q))
    ensures Waiters(Enqueue(q)) == Waiters(q) + [q.tail]
    ensures q.tail !in Waiters(q)
  {
    var r := Enqueue(q);
    WaitersAre(q);
    WaitersAre(r);
    var want := Waiters(q) + [q.tail];
    forall i, j | 0 <= i < j < |want| ensures want[i] < want[j] {
      assert want[i] in Waiters(q);
    }
    SameMembersSameList(Waiters(r), want);
  }

  /** `turn` is the first writer waiting, whenever one is. */
  lemma TurnIsFirst(q: Queue)
    requires Valid(q)
    ensures IsEmpty(q) <==> Waiters(q) == []
    ensures Waiters(q) != [] ==> Waiters(q)[0] == q.head
  {
    WaitersAre(q);
    if q.head < q.tail { assert q.head in Waiters(q); }
    if Waiters(q) != [] { assert Waiters(q)[0] in Waiters(q); }
  }

  lemma AdvanceDropsFirst(q: Queue)
    requires Valid(q) && Waiters(q) != []
    ensures Valid(Advance(q)) && Waiters(Advance(q)) == Waiters(q)[1..]
    ensures Advance(q).sending == q.sending
  {
    TurnIsFirst(q);
    var r := q.(head := q.head + 1);
    WaitersAre(q);
    assert Waiters(q) == [q.head] + Waiters(r);
    SkipUpKeeps(r);
  }

  /** `serve` takes the first writer off the list and counts it as sending. */
  lemma ServeDropsFirst(q: Queue)
    requires Valid(q) && Waiters(q) != []
    ensures Valid(Serve(q)) && Waiters(Serve(q)) == Waiters(q)[1..]
    ensures Serve(q).sending == q.sending + 1
  {
    var r := q.(sending := q.sending + 1);
    assert Waiters(r) == Waiters(q);
    AdvanceDropsFirst(r);
  }

  lemma {:induction false} WithoutMembers(s: seq<nat>, k: nat)
    requires k < |s| && StrictlyUp(s)
    ensures StrictlyUp(Without(s, k))
    ensures forall p :: p in Without(s, k) <==> p in s && p != s[k]
  {
    WithoutGoesUp(s, k);
    hide Without, StrictlyUp;
    forall p ensures p in Without(s, k) <==> p in s && p != s[k] { WithoutMember(s, k, p); }
  }

  lemma WithoutGoesUp(s: seq<nat>, k: nat)
    requires k < |s| && StrictlyUp(s)
    ensures StrictlyUp(Without(s, k))
  {
  }

  lemma WithoutMember(s: seq<nat>, k: nat, p: nat)
    requires k < |s| && StrictlyUp(s)
    ensures p in Without(s, k) <==> p in s && p != s[k]
  {
    var r := Without(s, k);
    if p in r {
      var i :| 0 <= i < |r| && r[i] == p;
      assert p == s[if i < k then i else i + 1];
    }
    if p in s && p != s[k] {
      var i :| 0 <= i < |s| && s[i] == p;
      assert r[if i < k then i else i - 1] == p;
    }
  }

  /**
   `leave` removes the one writer that gives up and no other, wherever it
   waits; the head moved exactly when that writer was the first.
   */
  lemma LeaveRemoves(q: Queue, k: nat)
    requires Valid(q) && k < |Waiters(q)|
    ensures Valid(Leave(q, Waiters(q)[k]))
    ensures Waiters(Leave(q, Waiters(q)[k])) == Without(Waiters(q), k)
    ensures (Waiters(q)[k] == q.head) <==> k == 0
    ensures Leave(q, Waiters(q)[k]).sending == q.sending
  {
    var list := Waiters(q);
    var place := list[k];
    WaitersAre(q);
    TurnIsFirst(q);
    assert place in list;
    if place == q.head {
      AdvanceDropsFirst(q);
      assert Without(list, 0) == list[1..];
    } else {
      WithoutMembers(list, k);
      var r;
      if place + 1 == q.tail {
        r := q.(tail := place);
      } else {
        r := q.(gone := q.gone + {place});
      }
      WaitersAre(r);
      SameMembersSameList(Waiters(r), Without(list, k));
      if place + 1 == q.tail {
        assert forall p <- r.gone :: r.head < p < r.tail;
        SkipDownKeeps(r);
      }
    }
  }

  /**
   A place the head has passed is left without effect, but for the last one of a
   queue with nobody in it: then the tail falls behind the head. A writer that was
   served never leaves, so no caller gets there.
   */
  lemma LeftBehind(q: Queue, place: nat)
    requires Valid(q) && place < q.head
    ensures Leave(q, place) == q <==> place + 1 < q.tail
    ensures Valid(Leave(q, place)) <==> place + 1 < q.tail
  {
    if place + 1 == q.tail { TailFalls(q.(tail := place)); }
  }

  lemma TailFalls(q: Queue)
    requires q.tail < q.head
    ensures SkipDown(q) == q
  {
  }

  // ---- the queue object ----

  class SendQueue {
    var head: nat
    var tail: nat
    var gone: set<nat>
    var sending: nat

    function Value(): Queue
      reads this
    {
      Queue(head, tail, gone, sending)
    }

    ghost predicate Ok()
      reads this
    {
      Valid(Value())
    }

    /** The writers still waiting, in the order they came. */
    ghost function Line(): (places: seq<nat>)
      reads this
    {
      Waiters(Value())
    }

    constructor ()
      ensures Ok() && Line() == [] && sending == 0 && Value() == EMPTY
    {
      head, tail, gone, sending := 0, 0, {}, 0;
    }

    method EnqueuePlace() returns (place: nat)
      requires Ok()
      modifies this
      ensures Ok() && Value() == Enqueue(old(Value()))
      ensures Line() == old(Line()) + [place] && place !in old(Line())
    {
      EnqueueAppends(Value());
      place := tail;
      tail := tail + 1;
    }

    /** The place whose writer is served next; meaningless when nobody waits. */
    method Turn() returns (place: nat)
      requires Ok()
      ensures Line() != [] ==> place == Line()[0]
    {
      TurnIsFirst(Value());
      place := head;
    }

    method NobodyWaits() returns (r: bool)
      requires Ok()
      ensures r <==> Line() == []
    {
      TurnIsFirst(Value());
      r := head == tail;
    }

    method IsSending() returns (r: bool)
      ensures r <==> sending > 0
    {
      r := sending > 0;
    }

    /** Move the head past its writer and past everyone behind it that left. */
    method AdvanceHead()
      requires Ok() && Line() != []
      modifies `head, `gone
      ensures Ok() && Value() == Advance(old(Value()))
      ensures Line() == old(Line())[1..]
    {
      AdvanceDropsFirst(Value());
      head := head + 1;
      ghost var start := Value();
      while head in gone
        invariant SkipUp(Value()) == SkipUp(start)
        invariant tail == old(tail) && sending == old(sending)
        decreases |gone|
      {
        gone := gone - {head};
        head := head + 1;
      }
    }

    method ServeFirst()
      requires Ok() && Line() != []
      modifies this
      ensures Ok() && Value() == Serve(old(Value()))
      ensures Line() == old(Line())[1..] && sending == old(sending) + 1
    {
      ServeDropsFirst(Value());
      sending := sending + 1;
      assert Waiters(Value()) == Waiters(old(Value()));
      AdvanceHead();
    }

    method FinishSend()
      requires Ok() && sending > 0
      modifies `sending
      ensures Ok() && Value() == Finish(old(Value()))
      ensures Line() == old(Line()) && sending == old(sending) - 1
    {
      assert Waiters(Value().(sending := sending - 1)) == Waiters(Value());
      sending := sending - 1;
    }

    /**
     A writer gives its place up: one still in line, or one the head has passed. The
     last place of a queue with nobody in it is the one that brings the queue out of shape.
     */
    method LeavePlace(place: nat, ghost k: nat) returns (headMoved: bool)
      requires Ok() && (place < head || (k < |Line()| && Line()[k] == place))
      modifies this
      ensures Value() == Leave(old(Value()), place) && sending == old(sending)
      ensures Ok() <==> !(place < old(head) && place + 1 == old(tail))
      ensures Ok() ==> Line() == if place < old(head) then old(Line()) else Without(old(Line()), k)
      ensures headMoved <==> old(head) <= place && k == 0
    {
      if place < head { LeftBehind(Value(), place); } else { LeaveRemoves(Value(), k); }
      if place == head {
        AdvanceHead();
        return true;
      }
      if place + 1 == tail {
        tail := place;
        ghost var start := Value();
        while tail > head && tail - 1 in gone
          invariant SkipDown(Value()) == SkipDown(start)
          invariant head == old(head) && sending == old(sending)
          decreases |gone|
        {
          gone := gone - {tail - 1};
          tail := tail - 1;
        }
      } else if place > head {
        gone := gone + {place};
      }
      return false;
    }
  }
}
