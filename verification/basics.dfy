/** Small types used throughout. */
module Basics {

  datatype Option<+T> = None | Some(value: T)

  /** What a caller sees of one remote call: Ok; Error, nothing happened; LostReply,
      it happened but an error is reported. */
  datatype Reply = Ok | Error | LostReply

  function Min(a: nat, b: nat): nat { if a < b then a else b }

  function Concat(parts: seq<string>): string {
    if parts == [] then "" else parts[0] + Concat(parts[1..])
  }

  lemma {:induction false} ConcatOfConcat(a: seq<string>, b: seq<string>)
    ensures Concat(a + b) == Concat(a) + Concat(b)
  {
    if a == [] {
      assert a + b == b;
    } else {
      ConcatOfConcat(a[1..], b);
      assert (a + b)[1..] == a[1..] + b && (a + b)[0] == a[0];
      ghost var head, middle, last := a[0], Concat(a[1..]), Concat(b);
      assert Concat(a + b) == head + (middle + last);
      hide *;
      assert head + (middle + last) == (head + middle) + last;
    }
  }

  lemma ConcatOne(a: string)
    ensures Concat([a]) == a
  {
    assert [a][1..] == [];
  }

  lemma ConcatTwo(a: string, b: string)
    ensures Concat([a, b]) == a + b
  {
    assert [a, b][1..] == [b];
    ConcatOne(b);
  }
}
