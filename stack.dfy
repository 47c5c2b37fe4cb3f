/** A generic last-in-first-out stack built from heap-linked nodes.

    `Stack<T>` holds one mutable reference, `current`, to the top `Element`;
    each element points at the one below it.  The ghost field `Contents` is
    the abstract value of the stack, top first, and `Repr` is the set of
    objects the stack is made of. */
module Stack {

  /** One frame of a stack.  `content` is the ghost list of the values from
      this node down to the bottom, and `footprint` the nodes that hold them. */
  class Element<T> {
    var next: Element?<T>
    var Value: T
    ghost var content: seq<T>
    ghost var footprint: set<object>

    ghost predicate Valid()
      reads this, footprint
      ensures Valid() ==> this in footprint
    {
      this in footprint &&
      (next == null ==> content == [Value]) &&
      (next != null ==>
        next in footprint && next.footprint <= footprint && this !in next.footprint &&
        content == [Value] + next.content &&
        next.Valid())
    }

    /** A new node holding `v` on top of `below`. */
    constructor Link(v: T, below: Element?<T>)
      requires below != null ==> below.Valid()
      ensures Valid() && fresh(this)
      ensures Value == v && next == below
      ensures content == [v] + (if below == null then [] else below.content)
      ensures footprint == {this} + (if below == null then {} else below.footprint)
    {
      Value := v;
      next := below;
      content := [v] + (if below == null then [] else below.content);
      footprint := {this} + (if below == null then {} else below.footprint);
    }
  }

  class Stack<T> {
    var current: Element?<T>
    ghost var Contents: seq<T>
    ghost var Repr: set<object>

    ghost predicate Valid()
      reads this, Repr
      ensures Valid() ==> this in Repr
    {
      this in Repr &&
      (current == null ==> Contents == []) &&
      (current != null ==>
        current in Repr && current.footprint <= Repr && this !in current.footprint &&
        current.Valid() && Contents == current.content)
    }

    /** A stack whose frames, from the top down, are `vals`: the first value
        given ends up on top, the last one at the bottom. */
    constructor New(vals: seq<T>)
      ensures Valid() && fresh(Repr)
      ensures Contents == vals
    {
      current := null;
      Contents := [];
      Repr := {this};
      new;
      var i := |vals|;
      while i > 0
        invariant 0 <= i <= |vals|
        invariant Valid() && fresh(Repr)
        invariant Contents == vals[i..]
      {
        i := i - 1;
        Push(vals[i]);
      }
    }

    /** Unlinks and returns the top frame; on an empty stack returns null and
        changes nothing. */
    method Pop() returns (e: Element?<T>)
      requires Valid()
      modifies this
      ensures Valid() && fresh(Repr - old(Repr))
      ensures e == null <==> old(Contents) == []
      ensures e == null ==> unchanged(this)
      ensures e != null ==> e.Value == old(Contents)[0] && Contents == old(Contents)[1..]
      ensures e != null ==> e !in Repr
    {
      e := current;
      if e != null {
        current := e.next;
        Contents := Contents[1..];
        Repr := if current == null then {this} else {this} + current.footprint;
      }
    }

    /** The top frame, or null when the stack is empty. */
    method Peek() returns (e: Element?<T>)
      requires Valid()
      ensures e == null <==> Contents == []
      ensures e != null ==> e.Value == Contents[0]
    {
      e := current;
    }

    /** Links a new frame holding `v` on top; the frames below are untouched. */
    method Push(v: T)
      requires Valid()
      modifies this
      ensures Valid() && fresh(Repr - old(Repr))
      ensures Contents == [v] + old(Contents)
    {
      current := new Element.Link(v, current);
      Contents := [v] + Contents;
      Repr := Repr + {current};
    }

    /** Overwrites the value of the top frame in place.  The top frame must
        exist: Go's `Stack.Swap` writes `l.current.Value` without a nil
        check. */
    method Swap(v: T)
      requires Valid() && Contents != []
      modifies this, current
      ensures Valid() && Repr == old(Repr)
      ensures Contents == [v] + old(Contents)[1..]
      ensures current == old(current) && current.Value == v
    {
      current.Value := v;
      current.content := [v] + current.content[1..];
      Contents := current.content;
    }
  }

  /** Push then Peek sees the pushed value, and the following Pop returns it. */
  method PushPeekPop<T>(i: T) returns (peeked: T, popped: T)
    ensures peeked == i && popped == i
  {
    var s := new Stack<T>.New([]);
    s.Push(i);
    var top := s.Peek();
    peeked := top.Value;
    var e := s.Pop();
    popped := e.Value;
  }

  /** Swap after a Push replaces the value Peek then sees, and adds no
      frame: one Pop empties the stack again. */
  method SwapThenPeek<T>(i: T, j: T) returns (peeked: T, emptiedByOnePop: bool)
    ensures peeked == j && emptiedByOnePop
  {
    var s := new Stack<T>.New([]);
    s.Push(i);
    s.Swap(j);
    var top := s.Peek();
    peeked := top.Value;
    var e := s.Pop();
    var below := s.Peek();
    emptiedByOnePop := e != null && below == null;
  }

  /** On a fresh stack both Pop and Peek give null. */
  method EmptyPopPeek<T>() returns (popNil: bool, peekNil: bool)
    ensures popNil && peekNil
  {
    var s := new Stack<T>.New([]);
    var e := s.Pop();
    popNil := e == null;
    var top := s.Peek();
    peekNil := top == null;
  }

  /** Last in, first out: after pushing i and then j, Pop gives j, then i. */
  method LifoOrder<T>(i: T, j: T) returns (first: T, second: T)
    ensures first == j && second == i
  {
    var s := new Stack<T>.New([]);
    s.Push(i);
    s.Push(j);
    var e1 := s.Pop();
    first := e1.Value;
    var e2 := s.Pop();
    second := e2.Value;
  }

  /** Two handles to one stack share it: a Pop through one handle is seen by
      a Pop through the other. */
  method PopThroughTwoHandles<T>(i: T, j: T) returns (viaCopy: T, viaOriginal: T)
    ensures viaCopy == j && viaOriginal == i
  {
    var s := new Stack<T>.New([]);
    s.Push(i);
    s.Push(j);
    var cop := s;
    var e1 := cop.Pop();
    viaCopy := e1.Value;
    var e2 := s.Pop();
    viaOriginal := e2.Value;
  }

  /** Pushes through two handles to one stack land on the same stack. */
  method PushThroughTwoHandles<T>(i: T, j: T) returns (viaOriginal: T, viaCopy: T)
    ensures viaOriginal == j && viaCopy == i
  {
    var s := new Stack<T>.New([]);
    var cop := s;
    s.Push(i);
    cop.Push(j);
    var e1 := s.Pop();
    viaOriginal := e1.Value;
    var e2 := cop.Pop();
    viaCopy := e2.Value;
  }

  /** A stack seeded with i, j, k pops them in that order. */
  method PreSeeded<T>(i: T, j: T, k: T) returns (a: T, b: T, c: T)
    ensures a == i && b == j && c == k
  {
    var s := new Stack<T>.New([i, j, k]);
    var e1 := s.Pop();
    a := e1.Value;
    var e2 := s.Pop();
    b := e2.Value;
    var e3 := s.Pop();
    c := e3.Value;
  }
}
