/** The list of endpoints with work to flush, linked through an array. */
module DcDirtyList {
  import opened Prelude

  const DIRTY_NONE: nat := 0xFFFF_FFFF

  /** Appending to a list without duplicates, unless the entry is already there. */
  function Enlist(s: seq<nat>, id: nat): (r: seq<nat>)
    requires Distinct(s)
    ensures Distinct(r) && id in r && (forall x :: x in r <==> x in s || x == id)
  {
    if id in s then s else s + [id]
  }

  function Resized<T>(s: seq<T>, len: nat, fill: T): (r: seq<T>)
    ensures |r| == (if len > |s| then len else |s|)
    ensures forall i :: 0 <= i < |r| ==> r[i] == (if i < |s| then s[i] else fill)
  {
    if len > |s| then s + seq(len - |s|, _ => fill) else s
  }

  /** The entry behind the i-th one. */
  function After(s: seq<nat>, i: nat): nat {
    if i + 1 < |s| then s[i + 1] else DIRTY_NONE
  }

  /** The links run through the entries in order. */
  predicate Linked(next: seq<nat>, s: seq<nat>) {
    forall i :: 0 <= i < |s| ==> s[i] < |next| && s[i] < DIRTY_NONE && next[s[i]] == After(s, i)
  }

  lemma LinkedTail(next: seq<nat>, s: seq<nat>)
    requires Linked(next, s) && s != [] && Distinct(s)
    ensures Linked(next, s[1..]) && Distinct(s[1..]) && s[0] !in s[1..]
    ensures next[s[0]] == (if s[1..] == [] then DIRTY_NONE else s[1])
    ensures Linked(next[s[0] := DIRTY_NONE], s[1..])
  {
  }

  /** Linking a new entry behind the last one. */
  lemma LinkedAppend(next: seq<nat>, s: seq<nat>, id: nat)
    requires Linked(next, s) && Distinct(s) && id !in s && id < |next| && id < DIRTY_NONE
    ensures Distinct(s + [id])
    ensures var next' := next[id := DIRTY_NONE];
            Linked(if s == [] then next' else next'[s[|s| - 1] := id], s + [id])
  {
  }

  class DirtyList {
    var head: nat
    var tail: nat
    var next: seq<nat>
    var inList: seq<bool>
    /** The entries in the order of the links. */
    ghost var contents: seq<nat>

    ghost predicate Valid()
      reads this
    {
      && |next| == |inList| && Distinct(contents) && Linked(next, contents)
      && (forall id :: 0 <= id < |inList| ==> (inList[id] <==> id in contents))
      && head == (if contents == [] then DIRTY_NONE else contents[0])
      && tail == (if contents == [] then DIRTY_NONE else contents[|contents| - 1])
    }

    constructor ()
      ensures Valid() && contents == []
    {
      head, tail := DIRTY_NONE, DIRTY_NONE;
      next, inList, contents := [], [], [];
    }

    method EnsureSlot(id: nat)
      requires Valid()
      modifies this`next, this`inList
      ensures Valid() && id < |next|
    {
      if id >= |next| {
        next := Resized(next, id + 1, DIRTY_NONE);
        inList := Resized(inList, id + 1, false);
      }
    }

    method PushBack(id: nat)
      requires Valid() && id < DIRTY_NONE
      modifies this
      ensures Valid() && contents == Enlist(old(contents), id)
    {
      EnsureSlot(id);
      if inList[id] {
        return;
      }
      LinkedAppend(next, contents, id);
      inList := inList[id := true];
      next := next[id := DIRTY_NONE];
      contents := contents + [id];
      if tail == DIRTY_NONE {
        head, tail := id, id;
        return;
      }
      next := next[tail := id];
      tail := id;
    }

    method PopFront() returns (r: Option<nat>)
      requires Valid()
      modifies this
      ensures Valid()
      ensures old(contents) == [] ==> r == None && contents == []
      ensures old(contents) != [] ==> r == Some(old(contents)[0]) && contents == old(contents)[1..]
    {
      if head == DIRTY_NONE {
        return None;
      }
      var id := head;
      ghost var rest := contents[1..];
      LinkedTail(next, contents);
      assert contents == [id] + rest;
      head := next[id];
      if head == DIRTY_NONE {
        tail := DIRTY_NONE;
      }
      next := next[id := DIRTY_NONE];
      inList := inList[id := false];
      contents := rest;
      return Some(id);
    }

    predicate IsEmpty()
      requires Valid()
      reads this
      ensures IsEmpty() <==> contents == []
    {
      head == DIRTY_NONE
    }
  }
}
