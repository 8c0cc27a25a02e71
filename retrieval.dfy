/**
 * The vector-store query and the text block built from its matches
 * (app/api/chat/route.js, lines 115-132).
 */
module Retrieval {
  import opened Wrappers
  import opened Text

  /** Metadata values as they appear once interpolated into a template string. */
  type Metadata = map<string, string>

  /** One match returned by the index; `metadata` may be absent. */
  datatype Match = Match(id: string, score: real, metadata: Option<Metadata>)

  /** The query sent to the index. */
  datatype QueryRequest = QueryRequest(topK: nat, includeMetadata: bool, vector: seq<real>)

  /** The number of matches the handler asks for. */
  const TopK: nat := 5

  /** The request the handler sends for a validated embedding. */
  function Request(vector: seq<real>): (q: QueryRequest)
    ensures q.topK == 5 && q.includeMetadata && q.vector == vector
  {
    QueryRequest(TopK, true, vector)
  }

  /** A metadata key read inside a template string: a missing key renders as "undefined". */
  function Field(md: Metadata, key: string): (r: string)
    ensures key in md ==> r == md[key]
    ensures key !in md ==> r == "undefined"
  {
    if key in md then md[key] else "undefined"
  }

  /** Every match carries metadata, so reading its fields does not throw. */
  predicate HasMetadata(ms: seq<Match>)
  {
    forall i :: 0 <= i < |ms| ==> ms[i].metadata.Some?
  }

  const BlockHead: string := "\n      Returned Results:\n      Professor: "
  const ReviewLabel: string := "\n      Review: "
  const SubjectLabel: string := "\n      Subject: "
  const StarsLabel: string := "\n      Stars: "
  const BlockTail: string := "\n      \n\n"

  /** The fixed-field block for one match. */
  function Block(m: Match): (b: string)
    requires m.metadata.Some?
    ensures BlockHead + m.id <= b
    ensures |b| >= |BlockHead| + |m.id| + |BlockTail|
    ensures b[|b| - |BlockTail|..] == BlockTail
  {
    var md := m.metadata.value;
    BlockHead + m.id + ReviewLabel + Field(md, "review") + SubjectLabel + Field(md, "subject")
      + StarsLabel + Field(md, "stars") + BlockTail
  }

  /** One block per match, in match order. */
  function Blocks(ms: seq<Match>): (r: seq<string>)
    requires HasMetadata(ms)
    ensures |r| == |ms|
    ensures forall i :: 0 <= i < |ms| ==> r[i] == Block(ms[i])
  {
    if ms == [] then [] else [Block(ms[0])] + Blocks(ms[1..])
  }

  /** The context string: the blocks of all matches joined in order. */
  function ContextString(ms: seq<Match>): (s: string)
    requires HasMetadata(ms)
    ensures ms == [] ==> s == ""
    ensures ms != [] ==> Block(ms[0]) <= s
  {
    Concat(Blocks(ms))
  }

  /** Joining two lists of matches that carry metadata gives one that does. */
  lemma {:induction false} MetadataAppend(a: seq<Match>, b: seq<Match>)
    requires HasMetadata(a) && HasMetadata(b)
    ensures HasMetadata(a + b)
  {
    forall i | 0 <= i < |a + b| ensures (a + b)[i].metadata.Some? {
      if i < |a| { assert (a + b)[i] == a[i]; } else { assert (a + b)[i] == b[i - |a|]; }
    }
  }

  /** The blocks of joined match lists are the joined blocks. */
  lemma {:induction false} BlocksAppend(a: seq<Match>, b: seq<Match>)
    requires HasMetadata(a) && HasMetadata(b)
    ensures HasMetadata(a + b)
    ensures Blocks(a + b) == Blocks(a) + Blocks(b)
  {
    MetadataAppend(a, b);
    var l, r := Blocks(a + b), Blocks(a) + Blocks(b);
    forall i | 0 <= i < |l| ensures l[i] == r[i] {
      if i < |a| { assert (a + b)[i] == a[i]; } else { assert (a + b)[i] == b[i - |a|]; }
    }
  }

  /** Formatting distributes over concatenation of match lists. */
  lemma {:induction false} ContextAppend(a: seq<Match>, b: seq<Match>)
    requires HasMetadata(a) && HasMetadata(b)
    ensures HasMetadata(a + b)
    ensures ContextString(a + b) == ContextString(a) + ContextString(b)
  {
    MetadataAppend(a, b);
    BlocksAppend(a, b);
    ConcatAppend(Blocks(a), Blocks(b));
  }

  /** The block of match i sits between the blocks of the earlier and the later matches. */
  lemma {:induction false} ContextSplit(ms: seq<Match>, i: nat)
    requires HasMetadata(ms) && i < |ms|
    ensures ContextString(ms) == ContextString(ms[..i]) + Block(ms[i]) + ContextString(ms[i + 1..])
  {
    var bs := Blocks(ms);
    assert HasMetadata(ms[..i]) && Blocks(ms[..i]) == bs[..i];
    assert HasMetadata(ms[i + 1..]) && Blocks(ms[i + 1..]) == bs[i + 1..];
    ConcatSplit(bs, i);
  }

  /** No matches, and only no matches, give the empty context. */
  lemma {:induction false} ContextEmptyIff(ms: seq<Match>)
    requires HasMetadata(ms)
    ensures ContextString(ms) == "" <==> ms == []
  {
  }

  /**
   * The `forEach` loop that appends one block per match to `resultString`.
   * A match without metadata makes the field access throw, which ends the
   * request; the result is then None.
   */
  method FormatResults(matches: seq<Match>) returns (r: Option<string>)
    ensures r.Some? <==> HasMetadata(matches)
    ensures r.Some? ==> r.value == ContextString(matches)
  {
    var resultString := "";
    for i := 0 to |matches|
      invariant HasMetadata(matches[..i])
      invariant resultString == ContextString(matches[..i])
    {
      if matches[i].metadata.None? {
        assert !HasMetadata(matches);
        return None;
      }
      ContextAppend(matches[..i], [matches[i]]);
      assert matches[..i + 1] == matches[..i] + [matches[i]];
      resultString := resultString + Block(matches[i]);
    }
    assert matches[..|matches|] == matches;
    r := Some(resultString);
  }
}
