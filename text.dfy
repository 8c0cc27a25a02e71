/** Joining a list of strings, as repeated `+=` or a stream consumer would. */
module Text {
  /** The text a list of strings spells when joined in order. */
  function Concat(parts: seq<string>): string
  {
    if parts == [] then "" else parts[0] + Concat(parts[1..])
  }

  /** Joining distributes over concatenation of the lists. */
  lemma {:induction false} ConcatAppend(a: seq<string>, b: seq<string>)
    ensures Concat(a + b) == Concat(a) + Concat(b)
  {
    if a == [] {
      assert a + b == b;
    } else {
      assert (a + b)[1..] == a[1..] + b;
      ConcatAppend(a[1..], b);
    }
  }

  /** Element i of a list sits, in the joined text, between the elements before and after it. */
  lemma {:induction false} ConcatSplit(parts: seq<string>, i: nat)
    requires i < |parts|
    ensures Concat(parts) == Concat(parts[..i]) + parts[i] + Concat(parts[i + 1..])
  {
    assert parts == parts[..i] + ([parts[i]] + parts[i + 1..]);
    ConcatAppend(parts[..i], [parts[i]] + parts[i + 1..]);
    assert ([parts[i]] + parts[i + 1..])[1..] == parts[i + 1..];
  }
}
