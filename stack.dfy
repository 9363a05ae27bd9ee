/** `Stack` (stack.go): a slice of items that `Push` and `Pop` reassign in place.
    `Peek` reads the item at index 0, the bottom of the stack, and both `Peek` and
    `Pop` refuse an empty stack (the source panics with "empty stack"). */
module Stacks {
  import opened Wrappers

  /** The panic message of `mustNotBeEmpty`. */
  const EmptyStack := "empty stack"

  /** The items after a push: one more, at the end. */
  function Pushed<T>(items: seq<T>, x: T): (r: seq<T>)
    ensures |r| == |items| + 1 && r[|items|] == x && r[..|items|] == items
  {
    items + [x]
  }

  /** What a pop gives: nothing on an empty stack, else the last item and the
      items before it. */
  function Popped<T>(items: seq<T>): (r: Option<(T, seq<T>)>)
    ensures r.None? <==> |items| == 0
    ensures r.Some? ==> items == r.value.1 + [r.value.0]
  {
    if |items| == 0 then None else Some((items[|items| - 1], items[..|items| - 1]))
  }

  /** A pop undoes a push: it gives back the pushed item and the items before. */
  lemma {:induction false} PopUndoesPush<T>(items: seq<T>, x: T)
    ensures Popped(Pushed(items, x)) == Some((x, items))
  {
    var r := Popped(Pushed(items, x));
    assert r.Some?;
    assert Pushed(items, x) == r.value.1 + [r.value.0];
    assert |r.value.1| == |items|;
    assert r.value.1 == Pushed(items, x)[..|items|];
  }

  /** A push undoes a pop on a non-empty stack. */
  lemma PushUndoesPop<T>(items: seq<T>)
    requires |items| > 0
    ensures Pushed(Popped(items).value.1, Popped(items).value.0) == items
  {
  }

  class Stack<T> {
    var items: seq<T>

    /** The zero `Stack`: no items. */
    constructor ()
      ensures items == []
    {
      items := [];
    }

    /** `IsEmpty`. */
    function IsEmpty(): (b: bool)
      reads this
      ensures b <==> items == []
    {
      |items| == 0
    }

    /** `mustNotBeEmpty`: the panic on an empty stack becomes a `Failure`. */
    method MustNotBeEmpty() returns (r: Result<(), string>)
      ensures r.Failure? <==> items == []
      ensures r.Failure? ==> r.error == EmptyStack
    {
      if IsEmpty() {
        return Failure(EmptyStack);
      }
      r := Success(());
    }

    /** `Push`: appends the item; the items already there stay as they were. */
    method Push(x: T)
      modifies this
      ensures items == Pushed(old(items), x)
    {
      items := items + [x];
    }

    /** `Peek`: the item at index 0, the first one pushed; the stack is not changed. */
    method Peek() returns (r: Result<T, string>)
      ensures items == [] ==> r == Failure(EmptyStack)
      ensures items != [] ==> r == Success(items[0])
    {
      var check := MustNotBeEmpty();
      if check.Failure? {
        return Failure(check.error);
      }
      r := Success(items[0]);
    }

    /** `Pop`: removes and returns the last item; an empty stack is left alone. */
    method Pop() returns (r: Result<T, string>)
      modifies this
      ensures Popped(old(items)).None? ==> r == Failure(EmptyStack) && items == old(items)
      ensures Popped(old(items)).Some? ==>
        r == Success(Popped(old(items)).value.0) && items == Popped(old(items)).value.1
    {
      var check := MustNotBeEmpty();
      if check.Failure? {
        return Failure(check.error);
      }
      var index := |items| - 1;
      var item := items[index];
      items := items[..index];
      r := Success(item);
    }
  }

  /** A push followed by a pop returns the pushed item and restores the stack. */
  method PushThenPop<T>(s: Stack<T>, x: T) returns (r: Result<T, string>)
    modifies s
    ensures r == Success(x) && s.items == old(s.items)
  {
    s.Push(x);
    PopUndoesPush(old(s.items), x);
    r := s.Pop();
  }
}
