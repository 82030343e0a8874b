/**
 * The interview's answer map (`FormData`, a plain JavaScript object keyed by
 * question text). A JavaScript object keeps its string keys in insertion
 * order; writing a key that is already present replaces its value where it
 * stands, writing a new key appends it. The ledger is therefore an
 * insertion-ordered sequence of entries.
 */
module AnswerLedger {
  import opened Wrappers

  datatype Entry = Entry(question: string, answer: string)

  type Ledger = seq<Entry>

  /** The keys in insertion order (`Object.keys`). */
  function Keys(m: Ledger): (ks: seq<string>)
    ensures |ks| == |m|
    ensures forall i :: 0 <= i < |m| ==> ks[i] == m[i].question
  {
    seq(|m|, i requires 0 <= i < |m| => m[i].question)
  }

  /** A JavaScript object never holds a key twice. */
  predicate UniqueKeys(m: Ledger) {
    forall i, j :: 0 <= i < j < |m| ==> m[i].question != m[j].question
  }

  /** Position of the entry for key `k`, if there is one (the first one, should there be several). */
  function KeyIndex(m: Ledger, k: string): (r: Option<nat>)
    ensures r.Some? ==> r.value < |m| && m[r.value].question == k
    ensures r.Some? ==> forall j :: 0 <= j < r.value ==> m[j].question != k
    ensures r.None? ==> forall j :: 0 <= j < |m| ==> m[j].question != k
  {
    if m == [] then None
    else if m[0].question == k then Some(0)
    else match KeyIndex(m[1..], k)
      case None => None
      case Some(i) => Some(i + 1)
  }

  /** The first position holding key `k` is the one KeyIndex finds. */
  lemma KeyIndexIsFirst(m: Ledger, k: string, i: nat)
    requires i < |m| && m[i].question == k
    requires forall j :: 0 <= j < i ==> m[j].question != k
    ensures KeyIndex(m, k) == Some(i)
  {
  }

  /** `m[k]`, `undefined` when the key is absent. */
  function Lookup(m: Ledger, k: string): (r: Option<string>)
    ensures r.Some? <==> k in Keys(m)
    ensures r.Some? ==> Entry(k, r.value) in m
  {
    match KeyIndex(m, k)
    case None => None
    case Some(i) => Some(m[i].answer)
  }

  /**
   * `{ ...m, [k]: v }` and `m[k] = v`: the entry for an existing key is
   * overwritten where it stands, a new key is appended at the end.
   */
  function Put(m: Ledger, k: string, v: string): (r: Ledger)
    ensures KeyIndex(m, k).Some? ==> r == m[KeyIndex(m, k).value := Entry(k, v)]
    ensures KeyIndex(m, k).None? ==> r == m + [Entry(k, v)]
  {
    if m == [] then [Entry(k, v)]
    else if m[0].question == k then [Entry(k, v)] + m[1..]
    else
      [m[0]] + Put(m[1..], k, v)
  }

  /** After a write, reading the written key gives the new value and every other key reads as before. */
  lemma {:induction false} LookupAfterPut(m: Ledger, k: string, v: string, k': string)
    ensures Lookup(Put(m, k, v), k') == if k' == k then Some(v) else Lookup(m, k')
  {
    var r := Put(m, k, v);
    match KeyIndex(m, k)
    case None =>
      assert r == m + [Entry(k, v)];
      if k' == k {
        assert Keys(r) == Keys(m) + [k];
        KeyIndexIsFirst(r, k', |m|);
      } else if KeyIndex(m, k').Some? {
        assert KeyIndex(r, k') == KeyIndex(m, k') by { KeyIndexOfPrefixHit(m, [Entry(k, v)], k'); }
      } else {
        assert k' !in Keys(r);
      }
    case Some(i) =>
      assert r == m[i := Entry(k, v)];
      if k' == k {
        KeyIndexIsFirst(r, k', i);
      } else {
        assert Keys(r) == Keys(m)[i := k];
        match KeyIndex(m, k')
        case None =>
          assert k' !in Keys(r);
        case Some(j) =>
          KeyIndexIsFirst(r, k', j);
      }
  }

  lemma KeyIndexOfPrefixHit(m: Ledger, tail: Ledger, k: string)
    requires KeyIndex(m, k).Some?
    ensures KeyIndex(m + tail, k) == KeyIndex(m, k)
  {
    var i := KeyIndex(m, k).value;
    KeyIndexIsFirst(m + tail, k, i);
  }

  /** The key order after a write: unchanged on an overwrite, the new key last otherwise. */
  lemma KeysAfterPut(m: Ledger, k: string, v: string)
    ensures k in Keys(m) ==> Keys(Put(m, k, v)) == Keys(m)
    ensures k !in Keys(m) ==> Keys(Put(m, k, v)) == Keys(m) + [k]
  {
  }

  /** Writing keeps the keys unique. */
  lemma PutKeepsKeysUnique(m: Ledger, k: string, v: string)
    requires UniqueKeys(m)
    ensures UniqueKeys(Put(m, k, v))
  {
  }

  /** A second write to the same key replaces the first one's value and nothing else. */
  lemma PutOverwrites(m: Ledger, k: string, v1: string, v2: string)
    ensures Put(Put(m, k, v1), k, v2) == Put(m, k, v2)
  {
    var r := Put(m, k, v1);
    var i: nat;
    if KeyIndex(m, k).None? {
      i := |m|;
      assert r == m + [Entry(k, v1)];
      assert Keys(r) == Keys(m) + [k];
    } else {
      i := KeyIndex(m, k).value;
      assert r == m[i := Entry(k, v1)];
    }
    KeyIndexIsFirst(r, k, i);
    var r2 := Put(r, k, v2);
    assert r2 == r[i := Entry(k, v2)];
    assert r2 == Put(m, k, v2);
  }

  function KeySet(m: Ledger): set<string> {
    set i | 0 <= i < |m| :: m[i].question
  }

  lemma {:induction false} KeySetSize(m: Ledger)
    requires UniqueKeys(m)
    ensures |KeySet(m)| == |m|
  {
    if m != [] {
      var init := m[..|m| - 1];
      KeySetSize(init);
      assert KeySet(m) == KeySet(init) + {m[|m| - 1].question};
      assert m[|m| - 1].question !in KeySet(init);
    }
  }

  lemma {:induction false} SetOfSeqSize(s: seq<string>)
    ensures |set x | x in s| <= |s|
  {
    if s != [] {
      SetOfSeqSize(s[1..]);
      assert (set x | x in s) == (set x | x in s[1..]) + {s[0]};
    }
  }

  /**
   * A ledger whose keys are all drawn from a list of question texts holds no
   * more entries than that list has questions.
   */
  lemma LedgerNoLongerThanKeySource(m: Ledger, texts: seq<string>)
    requires UniqueKeys(m)
    requires forall key :: key in Keys(m) ==> key in texts
    ensures |m| <= |texts|
  {
    KeySetSize(m);
    SetOfSeqSize(texts);
    var all := set x | x in texts;
    assert KeySet(m) <= all by {
      forall key | key in KeySet(m) ensures key in texts {
        var i :| 0 <= i < |m| && m[i].question == key;
        assert Keys(m)[i] == key;
      }
    }
    assert all == KeySet(m) + (all - KeySet(m));
  }
}
