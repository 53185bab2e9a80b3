/** Ring entries of the SCQ and the history of its tickets. */
module ScqCore {
  import opened Prelude
  import opened Bits
  import opened ScqIndexMap

  /**
   * One packed ring word: the cycle in the upper bits, the safe bit, and the index in the
   * lower bits. `None` is the all-ones index, the empty entry.
   */
  datatype Entry = Entry(cycle: int, safe: bool, idx: Option<nat>)

  /** Where a ticket lives: the number of entries, the entry and the cycle of each ticket. */
  datatype Geometry = Geometry(n: nat, place: nat -> nat, cyc: nat -> nat)

  /** Among the tickets of one entry, the cycle orders the tickets. */
  ghost predicate Sound(g: Geometry) {
    && g.n >= 2
    && (forall t: nat :: g.place(t) < g.n)
    && (forall a: nat, b: nat {:trigger g.place(a), g.place(b)} ::
          g.place(a) == g.place(b) ==> (a < b <==> g.cyc(a) < g.cyc(b)))
  }

  function RingGeometry(order: nat): Geometry {
    Geometry(RingSize(order), (t: nat) => LfringMap(t, order), (t: nat) => Quotient(t, RingSize(order)))
  }

  lemma RingGeometrySound(order: nat)
    ensures Sound(RingGeometry(order))
  {
    var g := RingGeometry(order);
    forall t: nat ensures g.place(t) < g.n {
      LfringMapCongruent(t, t, order);
    }
    forall a: nat, b: nat | g.place(a) == g.place(b)
      ensures a < b <==> g.cyc(a) < g.cyc(b)
    {
      LfringMapCongruent(a, b, order);
      CongruentOrder(a, b, g.n);
    }
  }

  /**
   * The entries, and which tickets have had an index installed by an enqueue, taken by a
   * dequeue, or been abandoned by their dequeuer.
   */
  datatype Core = Core(
    entries: seq<Entry>, installed: map<nat, nat>, taken: map<nat, nat>, gaveUp: set<nat>)

  function At(g: Geometry, c: Core, t: nat): Entry
    requires Sound(g) && |c.entries| == g.n
  {
    c.entries[g.place(t)]
  }

  /** Every change of an entry raises its rank, so a word never comes back once replaced. */
  function Rank(e: Entry): int {
    4 * e.cycle + (if e.idx.None? then 2 else 0) + (if e.safe then 0 else 1)
  }

  /** What the entry of ticket `t` says about the history of `t`. */
  ghost predicate TicketOk(g: Geometry, c: Core, t: nat)
    requires Sound(g) && |c.entries| == g.n
  {
    var e := At(g, c, t);
    && (e.cycle == g.cyc(t) && e.idx.Some? ==>
          t in c.installed && t !in c.taken && c.installed[t] == e.idx.value)
    && (e.cycle == g.cyc(t) && e.idx.None? ==> t in c.taken || t in c.gaveUp)
    && (t in c.installed && t !in c.taken ==>
          e.cycle == g.cyc(t) && e.idx == Some(c.installed[t]))
    && (t in c.taken ==>
          t in c.installed && c.taken[t] == c.installed[t] && e.cycle >= g.cyc(t))
    && (t in c.gaveUp ==> t !in c.installed && (e.cycle >= g.cyc(t) || !e.safe))
  }

  ghost predicate CoreInv(g: Geometry, c: Core) {
    && Sound(g)
    && |c.entries| == g.n
    && forall t: nat :: TicketOk(g, c, t)
  }

  /** No dequeuer at or after `t` has abandoned the entry of `t`. */
  ghost predicate NoneGaveUpFrom(g: Geometry, c: Core, t: nat) {
    forall u :: u in c.gaveUp && g.place(u) == g.place(t) ==> u < t
  }

  // The five changes of a ring word.

  /** The compare-exchange of an enqueue succeeds. */
  function Install(g: Geometry, c: Core, t: nat, x: nat): Core
    requires Sound(g) && |c.entries| == g.n
  {
    c.(entries := c.entries[g.place(t) := Entry(g.cyc(t), true, Some(x))],
       installed := c.installed[t := x])
  }

  /** The fetch-or of a dequeue that holds `x` in its hands. */
  function Take(g: Geometry, c: Core, h: nat, x: nat): Core
    requires Sound(g) && |c.entries| == g.n
  {
    c.(entries := c.entries[g.place(h) := At(g, c, h).(idx := None)],
       taken := c.taken[h := x])
  }

  /** The dequeuer of `h` leaves without an index, having replaced the word by `e`. */
  function Replace(g: Geometry, c: Core, h: nat, e: Entry): Core
    requires Sound(g) && |c.entries| == g.n
  {
    c.(entries := c.entries[g.place(h) := e], gaveUp := c.gaveUp + {h})
  }

  /** The dequeuer of `h` leaves without an index and without changing the word. */
  function GiveUp(c: Core, h: nat): Core {
    c.(gaveUp := c.gaveUp + {h})
  }

  lemma InstallKeeps(g: Geometry, c: Core, t: nat, x: nat)
    requires CoreInv(g, c)
    requires At(g, c, t).idx.None? && At(g, c, t).cycle < g.cyc(t)
    requires t !in c.installed && NoneGaveUpFrom(g, c, t)
    ensures CoreInv(g, Install(g, c, t, x))
  {
    var c' := Install(g, c, t, x);
    forall u: nat ensures TicketOk(g, c', u) {
      assert TicketOk(g, c, u) && TicketOk(g, c, t);
      assert g.place(u) == g.place(t) && u != t ==> g.cyc(u) != g.cyc(t);
    }
  }

  /** An empty safe entry below the cycle of `t` has no abandoned ticket from `t` on. */
  lemma SafeMeansNotAbandoned(g: Geometry, c: Core, t: nat)
    requires CoreInv(g, c) && At(g, c, t).safe && At(g, c, t).cycle < g.cyc(t)
    ensures NoneGaveUpFrom(g, c, t)
  {
    forall u | u in c.gaveUp && g.place(u) == g.place(t) ensures u < t {
      assert TicketOk(g, c, u);
    }
  }

  lemma TakeKeeps(g: Geometry, c: Core, h: nat)
    requires CoreInv(g, c) && h in c.installed && h !in c.taken
    ensures CoreInv(g, Take(g, c, h, c.installed[h]))
  {
    var c' := Take(g, c, h, c.installed[h]);
    forall u: nat ensures TicketOk(g, c', u) {
      assert TicketOk(g, c, u) && TicketOk(g, c, h);
      assert g.place(u) == g.place(h) && u != h ==> g.cyc(u) != g.cyc(h);
    }
  }

  /** The word with which a dequeuer at `h` may replace the word `e` before it leaves. */
  function Spoiled(g: Geometry, h: nat, e: Entry): Entry {
    if e.idx.Some? then e.(safe := false) else Entry(g.cyc(h), e.safe, None)
  }

  lemma ReplaceKeeps(g: Geometry, c: Core, h: nat)
    requires CoreInv(g, c) && At(g, c, h).cycle < g.cyc(h)
    ensures CoreInv(g, Replace(g, c, h, Spoiled(g, h, At(g, c, h))))
  {
    var c' := Replace(g, c, h, Spoiled(g, h, At(g, c, h)));
    forall u: nat ensures TicketOk(g, c', u) {
      assert TicketOk(g, c, u) && TicketOk(g, c, h);
      assert g.place(u) == g.place(h) && u != h ==> g.cyc(u) != g.cyc(h);
    }
  }

  /** A dequeuer at `h` may leave on seeing a later cycle, or an unsafe entry it cannot empty. */
  lemma GiveUpKeeps(g: Geometry, c: Core, h: nat)
    requires CoreInv(g, c) && h !in c.taken
    requires At(g, c, h).cycle != g.cyc(h)
    requires At(g, c, h).cycle > g.cyc(h) || !At(g, c, h).safe
    ensures CoreInv(g, GiveUp(c, h))
  {
    var c' := GiveUp(c, h);
    forall u: nat ensures TicketOk(g, c', u) {
      assert TicketOk(g, c, u) && TicketOk(g, c, h);
    }
  }

  /** An active dequeuer never finds its own cycle on an empty entry. */
  lemma MatchHoldsIndex(g: Geometry, c: Core, h: nat)
    requires CoreInv(g, c) && h !in c.taken && h !in c.gaveUp
    requires At(g, c, h).cycle == g.cyc(h)
    ensures At(g, c, h).idx.Some?
    ensures h in c.installed && c.installed[h] == At(g, c, h).idx.value
  {
    assert TicketOk(g, c, h);
  }
}
