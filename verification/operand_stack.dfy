/**
 * The operand stack as a value: a sequence of numbers, bottom first, so the
 * top is the last element. The calculator's stack field evolves by these
 * functions.
 */
module OperandStack {
  import opened Errors

  function Pushed(s: seq<real>, v: real): seq<real> {
    s + [v]
  }

  /** The top value and the stack below it; an empty stack is an error. */
  function Popped(s: seq<real>): Result<(real, seq<real>)> {
    if s == [] then Err(StackEmpty) else Ok((s[|s| - 1], s[..|s| - 1]))
  }

  /** The top value, without removing it; an empty stack is an error. */
  function Peeked(s: seq<real>): Result<real> {
    if s == [] then Err(StackEmpty) else Ok(s[|s| - 1])
  }

  /** Pop undoes push: it returns the pushed value and the stack as it was. */
  lemma PopAfterPush(s: seq<real>, v: real)
    ensures Popped(Pushed(s, v)) == Ok((v, s))
  {
    assert Pushed(s, v)[..|s|] == s;
  }

  /** Push undoes a successful pop, and only the empty stack refuses to pop. */
  lemma PushAfterPop(s: seq<real>)
    ensures Popped(s).Err? <==> s == []
    ensures Popped(s).Ok? ==> Pushed(Popped(s).value.1, Popped(s).value.0) == s
  {
  }

  /** Peek sees what pop would return, and fails exactly when pop fails. */
  lemma PeekAgreesWithPop(s: seq<real>)
    ensures Peeked(s).Err? <==> Popped(s).Err?
    ensures Peeked(s).Ok? ==> Peeked(s).value == Popped(s).value.0
  {
  }
}
