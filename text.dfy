/**
 * The few string operations of the JavaScript runtime the data layer relies on:
 * `String(n)` for integers, `Number(s)` for strings of decimal digits, the first-occurrence
 * `String.prototype.replace` with a string pattern, and `Array.prototype.toString`
 * (elements joined by commas) together with its inverse, splitting on commas.
 */
module Text {
  import opened Wrappers

  predicate IsDigit(c: char) {
    '0' <= c <= '9'
  }

  predicate IsDigits(s: string) {
    forall i :: 0 <= i < |s| ==> IsDigit(s[i])
  }

  function DigitChar(d: nat): (c: char)
    requires d < 10
    ensures IsDigit(c) && c as int - '0' as int == d
  {
    (('0' as int) + d) as char
  }

  function DigitValue(c: char): (d: nat)
    requires IsDigit(c)
    ensures d < 10
  {
    c as int - '0' as int
  }

  /** `String(n)` for a non-negative integer: its decimal digits. */
  function NatToString(n: nat): (s: string)
    ensures |s| > 0 && IsDigits(s)
    ensures s[0] == '0' ==> n == 0
    decreases n
  {
    if n < 10 then [DigitChar(n)] else NatToString(n / 10) + [DigitChar(n % 10)]
  }

  /** `String(n)` for any integer. */
  function IntToString(n: int): (s: string)
    ensures |s| > 0
    ensures n >= 0 <==> IsDigits(s)
  {
    if n < 0 then
      var t := "-" + NatToString(-n);
      assert !IsDigit(t[0]);
      t
    else NatToString(n)
  }

  /** `Number(s)` for a string made only of decimal digits ("" reads as 0). */
  function ParseDecimal(s: string): (n: nat)
    requires IsDigits(s)
    decreases |s|
  {
    if s == [] then 0 else ParseDecimal(s[..|s| - 1]) * 10 + DigitValue(s[|s| - 1])
  }

  /** Reading back the digits `String` writes gives the number again. */
  lemma {:induction false} ParseNatToString(n: nat)
    ensures ParseDecimal(NatToString(n)) == n
    decreases n
  {
    var s := NatToString(n);
    if n >= 10 {
      ParseNatToString(n / 10);
      assert s[..|s| - 1] == NatToString(n / 10);
    }
  }

  /** `pat` occurs in `s` starting at index `i`. */
  predicate OccursAt(s: string, pat: string, i: nat) {
    i + |pat| <= |s| && s[i..i + |pat|] == pat
  }

  /** `s.indexOf(pat, from)`: the first index at or after `from` where `pat` occurs. */
  function IndexOf(s: string, pat: string, from: nat): (r: Option<nat>)
    ensures r.Some? ==> from <= r.value && OccursAt(s, pat, r.value)
    ensures r.Some? ==> forall j: nat :: from <= j < r.value ==> !OccursAt(s, pat, j)
    ensures r.None? ==> forall j: nat :: from <= j ==> !OccursAt(s, pat, j)
    decreases |s| - from
  {
    if from + |pat| > |s| then None
    else if OccursAt(s, pat, from) then Some(from)
    else IndexOf(s, pat, from + 1)
  }

  /** `s.replace(pat, "")`: the first occurrence of `pat` removed, or `s` when there is none. */
  function RemoveFirst(s: string, pat: string): (r: string)
    ensures (forall j: nat :: !OccursAt(s, pat, j)) ==> r == s
    ensures forall i: nat :: OccursAt(s, pat, i) && (forall j: nat :: j < i ==> !OccursAt(s, pat, j)) ==>
              r == s[..i] + s[i + |pat|..]
  {
    match IndexOf(s, pat, 0)
    case None => s
    case Some(i) => s[..i] + s[i + |pat|..]
  }

  /** Removing a prefix that `s` starts with leaves exactly the rest. */
  lemma RemoveLeadingPrefix(pat: string, rest: string)
    ensures RemoveFirst(pat + rest, pat) == rest
  {
    assert OccursAt(pat + rest, pat, 0);
    assert (pat + rest)[|pat|..] == rest;
  }

  /** `ids.toString()`: the elements joined by commas. */
  function JoinComma(ids: seq<string>): (s: string)
    ensures |ids| == 1 ==> s == ids[0]
  {
    if ids == [] then ""
    else if |ids| == 1 then ids[0]
    else ids[0] + "," + JoinComma(ids[1..])
  }

  /** `s.split(",")`: the comma-separated fields of `s` (one field when there is no comma). */
  function SplitComma(s: string): (fields: seq<string>)
    ensures |fields| > 0
    decreases |s|
  {
    match IndexOf(s, ",", 0)
    case None => [s]
    case Some(i) => [s[..i]] + SplitComma(s[i + 1..])
  }

  predicate NoComma(s: string) {
    forall i :: 0 <= i < |s| ==> s[i] != ','
  }

  /** Splitting the joined list gives the list back, when no element holds a comma. */
  lemma {:induction false} SplitJoinComma(ids: seq<string>)
    requires |ids| > 0
    requires forall k :: 0 <= k < |ids| ==> NoComma(ids[k])
    ensures SplitComma(JoinComma(ids)) == ids
    decreases |ids|
  {
    var s := JoinComma(ids);
    if |ids| == 1 {
      forall j: nat ensures !OccursAt(s, ",", j) {
        if j + 1 <= |s| {
          assert s[j..j + 1] == [s[j]];
        }
      }
    } else {
      var a, rest := ids[0], JoinComma(ids[1..]);
      assert s == a + "," + rest;
      assert OccursAt(s, ",", |a|);
      forall j: nat | j < |a| ensures !OccursAt(s, ",", j) {
        assert s[j] == a[j];
        assert s[j..j + 1] == [s[j]];
      }
      assert IndexOf(s, ",", 0) == Some(|a|);
      assert s[..|a|] == a;
      assert s[|a| + 1..] == rest;
      SplitJoinComma(ids[1..]);
    }
  }
}
