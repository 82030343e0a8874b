/**
 * The text handed to the summarisation service: every answer-map entry
 * becomes a block `Q: <question>\nA: <answer>`, and the blocks are joined by
 * a blank line, in the map's key order.
 */
module ReportTranscript {
  import opened AnswerLedger

  const Separator: string := "\n\n"

  /** One entry's block. */
  function Block(e: Entry): (b: string)
    ensures |b| == |e.question| + |e.answer| + 7
    ensures b[..3] == "Q: " && b[3..3 + |e.question|] == e.question
    ensures b[|b| - |e.answer|..] == e.answer
  {
    "Q: " + e.question + "\nA: " + e.answer
  }

  /** `Object.entries(m).map(Block).join(Separator)`, written entry by entry from the front. */
  function Transcript(m: Ledger): (r: string)
    ensures r == "" <==> m == []
    ensures m != [] ==> |r| >= 3 && r[..3] == "Q: "
  {
    if m == [] then ""
    else if |m| == 1 then Block(m[0])
    else Block(m[0]) + Separator + Transcript(m[1..])
  }

  /** Appending an entry to a non-empty map appends one separator and its block. */
  lemma {:induction false} TranscriptSnoc(m: Ledger, e: Entry)
    requires m != []
    ensures Transcript(m + [e]) == Transcript(m) + Separator + Block(e)
  {
    if |m| == 1 {
      assert m + [e] == [m[0], e];
      assert (m + [e])[1..] == [e];
    } else {
      assert (m + [e])[1..] == m[1..] + [e];
      TranscriptSnoc(m[1..], e);
    }
  }

  /** Splitting a map into two non-empty parts splits its transcript at one separator. */
  lemma {:induction false} TranscriptConcat(a: Ledger, b: Ledger)
    requires a != [] && b != []
    ensures Transcript(a + b) == Transcript(a) + Separator + Transcript(b)
  {
    assert (a + b)[0] == a[0];
    if |a| == 1 {
      assert (a + b)[1..] == b;
    } else {
      assert (a + b)[1..] == a[1..] + b;
      TranscriptConcat(a[1..], b);
    }
  }

  /** The blocks, in key order (the `map` step). */
  function Blocks(m: Ledger): (bs: seq<string>)
    ensures |bs| == |m|
    ensures forall i :: 0 <= i < |m| ==> bs[i] == Block(m[i])
  {
    seq(|m|, i requires 0 <= i < |m| => Block(m[i]))
  }

  /**
   * `parts.join(sep)` as section 23.1.3.18 of ECMA-262 defines it: an empty
   * string grown left to right, the separator written before every element
   * but the first.
   */
  function Join(parts: seq<string>, sep: string): string {
    if parts == [] then ""
    else if |parts| == 1 then parts[0]
    else Join(parts[..|parts| - 1], sep) + sep + parts[|parts| - 1]
  }

  /** The transcript is exactly the joined blocks. */
  lemma {:induction false} TranscriptIsJoinedBlocks(m: Ledger)
    ensures Transcript(m) == Join(Blocks(m), Separator)
  {
    if |m| > 1 {
      var init := m[..|m| - 1];
      assert m == init + [m[|m| - 1]];
      assert Blocks(m)[..|m| - 1] == Blocks(init);
      TranscriptIsJoinedBlocks(init);
      TranscriptSnoc(init, m[|m| - 1]);
    }
  }

  /** Overwriting an existing answer rewrites its block where it stands; every other block is kept. */
  lemma BlocksAfterOverwrite(m: Ledger, k: string, v: string)
    requires KeyIndex(m, k).Some?
    ensures Blocks(Put(m, k, v)) == Blocks(m)[KeyIndex(m, k).value := Block(Entry(k, v))]
  {
  }
}
