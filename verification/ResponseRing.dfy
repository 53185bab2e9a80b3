/** The response ring from the server to one caller, with a valid flag per slot, step by step. */
module ResponseRing {
  import opened RingPos

  /** A token and the response data. */
  type Entry = (nat, nat)

  /** The server in `try_push`, and the caller in `try_pop`. */
  datatype PushPc = PushIdle | Checked(v: Entry) | Written(v: Entry) | Flagged
  datatype PopPc = PopIdle | Seen | Read(v: Entry) | Cleared(v: Entry)

  /** History: everything pushed, and everything popped. */
  datatype State = State(
    valid: seq<bool>, data: seq<Entry>, writePos: nat, readPos: nat, push: PushPc, pop: PopPc,
    pushed: seq<Entry>, popped: seq<Entry>)

  predicate Sized(s: State) {
    |s.data| == |s.valid| > 0
  }

  function Start(n: nat): State
    requires n > 0
  {
    State(seq(n, _ => false), seq(n, _ => (0, 0)), 0, 0, PushIdle, PopIdle, [], [])
  }

  function Slot(s: State, pos: nat): (i: nat)
    requires Sized(s)
    ensures i < |s.valid| == |s.data|
  {
    Offset(pos, |s.valid|)
  }

  datatype Action =
    | CheckFree(v: Entry) | WriteEntry | SetValid | StoreWritePos
    | CheckValid | ReadEntry | ClearValid | StoreReadPos

  predicate Enabled(s: State, a: Action) {
    && Sized(s)
    && match a
       case CheckFree(_) => s.push.PushIdle?
       case WriteEntry => s.push.Checked?
       case SetValid => s.push.Written?
       case StoreWritePos => s.push.Flagged?
       case CheckValid => s.pop.PopIdle?
       case ReadEntry => s.pop.Seen?
       case ClearValid => s.pop.Read?
       case StoreReadPos => s.pop.Cleared?
  }

  function Step(s: State, a: Action): State
    requires Enabled(s, a)
  {
    match a
    case CheckFree(v) => if s.valid[Slot(s, s.writePos)] then s else s.(push := Checked(v))
    case WriteEntry => s.(data := s.data[Slot(s, s.writePos) := s.push.v], push := Written(s.push.v))
    case SetValid => s.(valid := s.valid[Slot(s, s.writePos) := true], push := Flagged, pushed := s.pushed + [s.push.v])
    case StoreWritePos => s.(writePos := s.writePos + 1, push := PushIdle)
    case CheckValid => if s.valid[Slot(s, s.readPos)] then s.(pop := Seen) else s
    case ReadEntry => s.(pop := Read(s.data[Slot(s, s.readPos)]))
    case ClearValid =>
      s.(valid := s.valid[Slot(s, s.readPos) := false], pop := Cleared(s.pop.v), popped := s.popped + [s.pop.v])
    case StoreReadPos => s.(readPos := s.readPos + 1, pop := PopIdle)
  }

  // `|pushed|` and `|popped|` are the positions that the flags stand for.

  predicate Full(s: State, j: nat)
    requires Sized(s) && j < |s.pushed|
  {
    s.valid[Slot(s, j)] && s.data[Slot(s, j)] == s.pushed[j]
  }

  predicate Free(s: State, q: nat)
    requires Sized(s)
  {
    !s.valid[Slot(s, q)]
  }

  ghost predicate Inv(s: State) {
    && Sized(s) && |s.popped| <= |s.pushed| <= |s.popped| + |s.valid|
    && s.writePos + (if s.push.Flagged? then 1 else 0) == |s.pushed|
    && s.readPos + (if s.pop.Cleared? then 1 else 0) == |s.popped|
    && (forall j: nat {:trigger Full(s, j)} :: |s.popped| <= j < |s.pushed| ==> Full(s, j))
    && (forall q: nat {:trigger Free(s, q)} :: |s.pushed| <= q < |s.popped| + |s.valid| ==> Free(s, q))
    && (s.push.Checked? || s.push.Written? ==> |s.pushed| < |s.popped| + |s.valid|)
    && (s.push.Written? ==> s.data[Slot(s, s.writePos)] == s.push.v)
    && (s.pop.Seen? || s.pop.Read? ==> |s.popped| < |s.pushed|)
    && (s.pop.Read? ==> s.pop.v == s.pushed[s.readPos])
    && s.popped == s.pushed[..|s.popped|]
  }

  /** A clear flag at the write position means that there is room. */
  lemma CheckFreeKeeps(s: State, v: Entry)
    requires Inv(s) && Enabled(s, CheckFree(v))
    ensures Inv(Step(s, CheckFree(v)))
  {
    var s' := Step(s, CheckFree(v));
    OffsetPeriodic(|s.popped|, |s.valid|);
    if |s.popped| < |s.pushed| {
      assert Full(s, |s.popped|);
    }
    Unmoved(s, s');
  }

  /** A set flag at the read position means that there is an entry. */
  lemma CheckValidKeeps(s: State)
    requires Inv(s) && Enabled(s, CheckValid)
    ensures Inv(Step(s, CheckValid))
  {
    assert s.valid[Slot(s, s.readPos)] == !Free(s, s.readPos);
    Unmoved(s, Step(s, CheckValid));
  }

  lemma Unmoved(s: State, s': State)
    requires Inv(s) && s' == s.(push := s'.push, pop := s'.pop, writePos := s'.writePos, readPos := s'.readPos)
    ensures forall j: nat {:trigger Full(s', j)} :: |s'.popped| <= j < |s'.pushed| ==> Full(s', j)
    ensures forall q: nat {:trigger Free(s', q)} :: |s'.pushed| <= q < |s'.popped| + |s'.valid| ==> Free(s', q)
  {
    forall j: nat | |s'.popped| <= j < |s'.pushed| ensures Full(s', j) {
      assert Full(s, j);
    }
    forall q: nat | |s'.pushed| <= q < |s'.popped| + |s'.valid| ensures Free(s', q) {
      assert Free(s, q);
    }
  }

  lemma WriteEntryKeeps(s: State)
    requires Inv(s) && Enabled(s, WriteEntry)
    ensures Inv(Step(s, WriteEntry))
  {
    var s' := Step(s, WriteEntry);
    forall j: nat | |s'.popped| <= j < |s'.pushed| ensures Full(s', j) {
      assert Full(s, j);
      OffsetApart(j, s.writePos, |s.valid|);
    }
    forall q: nat | |s'.pushed| <= q < |s'.popped| + |s'.valid| ensures Free(s', q) {
      assert Free(s, q);
    }
  }

  lemma SetValidKeeps(s: State)
    requires Inv(s) && Enabled(s, SetValid)
    ensures Inv(Step(s, SetValid))
  {
    var s' := Step(s, SetValid);
    forall j: nat | |s'.popped| <= j < |s'.pushed| ensures Full(s', j) {
      if j < |s.pushed| {
        assert Full(s, j);
        OffsetApart(j, s.writePos, |s.valid|);
      }
    }
    forall q: nat | |s'.pushed| <= q < |s'.popped| + |s'.valid| ensures Free(s', q) {
      assert Free(s, q);
      OffsetApart(q, s.writePos, |s.valid|);
    }
  }

  lemma ReadEntryKeeps(s: State)
    requires Inv(s) && Enabled(s, ReadEntry)
    ensures Inv(Step(s, ReadEntry))
  {
    assert Full(s, s.readPos);
    Unmoved(s, Step(s, ReadEntry));
  }

  lemma ClearValidKeeps(s: State)
    requires Inv(s) && Enabled(s, ClearValid)
    ensures Inv(Step(s, ClearValid))
  {
    var s' := Step(s, ClearValid);
    forall j: nat | |s'.popped| <= j < |s'.pushed| ensures Full(s', j) {
      assert Full(s, j);
      OffsetApart(j, s.readPos, |s.valid|);
    }
    forall q: nat | |s'.pushed| <= q < |s'.popped| + |s'.valid| ensures Free(s', q) {
      if q == s.readPos + |s.valid| {
        OffsetPeriodic(s.readPos, |s.valid|);
      } else {
        assert Free(s, q);
        OffsetApart(q, s.readPos, |s.valid|);
      }
    }
  }

  lemma StepKeeps(s: State, a: Action)
    requires Inv(s) && Enabled(s, a)
    ensures Inv(Step(s, a))
  {
    match a
    case CheckFree(v) => CheckFreeKeeps(s, v);
    case WriteEntry => WriteEntryKeeps(s);
    case SetValid => SetValidKeeps(s);
    case StoreWritePos => Unmoved(s, Step(s, a));
    case CheckValid => CheckValidKeeps(s);
    case ReadEntry => ReadEntryKeeps(s);
    case ClearValid => ClearValidKeeps(s);
    case StoreReadPos => Unmoved(s, Step(s, a));
  }

  predicate IsRun(n: nat, run: seq<State>, actions: seq<Action>) {
    && n > 0 && |run| == |actions| + 1 && run[0] == Start(n)
    && forall i :: 0 <= i < |actions| ==> Enabled(run[i], actions[i]) && run[i + 1] == Step(run[i], actions[i])
  }

  lemma {:induction false} RunInv(n: nat, run: seq<State>, actions: seq<Action>, k: nat)
    requires IsRun(n, run, actions) && k < |run|
    ensures Inv(run[k])
  {
    if k > 0 {
      RunInv(n, run, actions, k - 1);
      StepKeeps(run[k - 1], actions[k - 1]);
    }
  }

  /**
   * In every interleaving the caller pops exactly what the server pushed, in order, and while
   * both are at a slot it is never the same one.
   */
  lemma PopsWhatWasPushed(n: nat, run: seq<State>, actions: seq<Action>, k: nat)
    requires IsRun(n, run, actions) && k < |run|
    ensures var s := run[k];
            && |s.popped| <= |s.pushed| && s.popped == s.pushed[..|s.popped|]
            && Sized(s)
            && ((s.push.Checked? || s.push.Written?) && (s.pop.Seen? || s.pop.Read?) ==>
                  Slot(s, s.writePos) != Slot(s, s.readPos))
  {
    RunInv(n, run, actions, k);
    var s := run[k];
    if (s.push.Checked? || s.push.Written?) && (s.pop.Seen? || s.pop.Read?) {
      OffsetApart(s.writePos, s.readPos, |s.valid|);
    }
  }
}
