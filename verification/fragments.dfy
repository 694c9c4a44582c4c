/** Text assembled from streamed fragments. */
module Fragments {

  /** The in-order concatenation of `parts`, the value `s += part` builds up. */
  function Concat(parts: seq<string>): string
  {
    if |parts| == 0 then "" else parts[0] + Concat(parts[1..])
  }

  /** Concatenation distributes over appending lists of fragments. */
  lemma {:induction false} ConcatAppend(a: seq<string>, b: seq<string>)
    ensures Concat(a + b) == Concat(a) + Concat(b)
  {
    if |a| == 0 {
      assert a + b == b;
    } else {
      assert (a + b)[1..] == a[1..] + b;
      ConcatAppend(a[1..], b);
    }
  }

  /** Appending one fragment extends the text by exactly that fragment. */
  lemma ConcatSnoc(parts: seq<string>, last: string)
    ensures Concat(parts + [last]) == Concat(parts) + last
  {
    ConcatAppend(parts, [last]);
    assert Concat([last]) == last + Concat([]);
  }
}
