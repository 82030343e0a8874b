/**
 * Identifiers of generated follow-up questions: the template literal
 * `gen_${currentQuestionIndex}_${i}` over two non-negative integers. The
 * parser below is the formatter's inverse; it is what shows that two ids
 * built from different (round, index) pairs never coincide.
 */
module QuestionIds {
  import opened Wrappers

  predicate IsDigit(c: char) {
    '0' <= c <= '9'
  }

  predicate AllDigits(s: string) {
    forall i :: 0 <= i < |s| ==> IsDigit(s[i])
  }

  /** Decimal rendering of a non-negative integer, as JavaScript's `String(n)` gives it. */
  function Decimal(n: nat): (s: string)
    ensures s != [] && AllDigits(s)
  {
    var last := ('0' as int + n % 10) as char;
    if n < 10 then [last] else Decimal(n / 10) + [last]
  }

  function DigitsValue(s: string): nat
    requires AllDigits(s)
  {
    if s == [] then 0
    else DigitsValue(s[..|s| - 1]) * 10 + (s[|s| - 1] as int - '0' as int)
  }

  /** Reads a non-empty run of decimal digits. */
  function ParseDecimal(s: string): Option<nat> {
    if s != [] && AllDigits(s) then Some(DigitsValue(s)) else None
  }

  lemma {:induction false} ParseDecimalRoundTrip(n: nat)
    ensures ParseDecimal(Decimal(n)) == Some(n)
  {
    var s := Decimal(n);
    assert s[|s| - 1] as int - '0' as int == n % 10;
    if n < 10 {
      assert s[..|s| - 1] == [];
      assert DigitsValue(s) == 0 * 10 + n % 10;
    } else {
      ParseDecimalRoundTrip(n / 10);
      assert s[..|s| - 1] == Decimal(n / 10);
      assert DigitsValue(s) == (n / 10) * 10 + n % 10;
    }
  }

  /** The first position of `c` in `s`. */
  function IndexOf(s: string, c: char): (r: Option<nat>)
    ensures r.Some? ==> r.value < |s| && s[r.value] == c
    ensures r.Some? ==> forall j :: 0 <= j < r.value ==> s[j] != c
    ensures r.None? ==> forall j :: 0 <= j < |s| ==> s[j] != c
  {
    if s == [] then None
    else if s[0] == c then Some(0)
    else match IndexOf(s[1..], c)
      case None => None
      case Some(i) => Some(i + 1)
  }

  const GeneratedPrefix: string := "gen_"

  datatype IdParts = IdParts(round: nat, index: nat)

  /** `gen_${round}_${index}`. */
  function GeneratedId(round: nat, index: nat): (id: string)
    ensures |id| == |GeneratedPrefix| + |Decimal(round)| + 1 + |Decimal(index)|
    ensures id[..|GeneratedPrefix|] == GeneratedPrefix
    ensures AllDigits(id[|GeneratedPrefix|..|GeneratedPrefix| + |Decimal(round)|])
    ensures id[|GeneratedPrefix| + |Decimal(round)|] == '_'
    ensures AllDigits(id[|GeneratedPrefix| + |Decimal(round)| + 1..])
  {
    GeneratedPrefix + Decimal(round) + "_" + Decimal(index)
  }

  /** Recovers round and index from an id of the generated shape; `None` for any other string. */
  function ParseGeneratedId(id: string): Option<IdParts> {
    if |id| < |GeneratedPrefix| || id[..|GeneratedPrefix|] != GeneratedPrefix then None
    else
      var rest := id[|GeneratedPrefix|..];
      match IndexOf(rest, '_')
      case None => None
      case Some(k) =>
        match (ParseDecimal(rest[..k]), ParseDecimal(rest[k + 1..]))
        case (Some(round), Some(index)) => Some(IdParts(round, index))
        case _ => None
  }

  lemma ParseGeneratedIdRoundTrip(round: nat, index: nat)
    ensures ParseGeneratedId(GeneratedId(round, index)) == Some(IdParts(round, index))
  {
    var a, b := Decimal(round), Decimal(index);
    var id := GeneratedId(round, index);
    var rest := a + "_" + b;
    assert id[..|GeneratedPrefix|] == GeneratedPrefix;
    assert id[|GeneratedPrefix|..] == rest;
    assert rest[|a|] == '_';
    forall j | 0 <= j < |a| ensures rest[j] != '_' {
      assert rest[j] == a[j] && IsDigit(a[j]);
    }
    assert IndexOf(rest, '_') == Some(|a|);
    assert rest[..|a|] == a;
    assert rest[|a| + 1..] == b;
    ParseDecimalRoundTrip(round);
    ParseDecimalRoundTrip(index);
  }

  /** Two generated ids are equal only when both their round and their index are. */
  lemma GeneratedIdInjective(r1: nat, i1: nat, r2: nat, i2: nat)
    requires GeneratedId(r1, i1) == GeneratedId(r2, i2)
    ensures r1 == r2 && i1 == i2
  {
    ParseGeneratedIdRoundTrip(r1, i1);
    ParseGeneratedIdRoundTrip(r2, i2);
  }
}
