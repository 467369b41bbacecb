/** Values shared by the whole agent core: optional values, the dynamically typed
    values that tools take and return, and the few Python string operations the
    core relies on (prefix and suffix tests, substring test, lower-casing, `str`). */
module Common {

  datatype Option<+T> = None | Some(value: T)

  /** A Python value as the core passes it around: tool arguments and outputs,
      goal results and metadata. A division result is kept as the exact quotient. */
  datatype Value = Int(i: int) | Str(s: string) | Quotient(num: int, den: int)

  predicate StartsWith(s: string, prefix: string) {
    |prefix| <= |s| && s[..|prefix|] == prefix
  }

  predicate EndsWith(s: string, suffix: string) {
    |suffix| <= |s| && s[|s| - |suffix|..] == suffix
  }

  /** `needle` occurs in `hay` starting at position `i` */
  predicate OccursAt(hay: string, needle: string, i: int) {
    0 <= i && i + |needle| <= |hay| && hay[i..i + |needle|] == needle
  }

  /** Python's `needle in hay` on strings, scanning the start positions left to right */
  predicate Contains(hay: string, needle: string)
    decreases |hay|
  {
    StartsWith(hay, needle) || (|hay| > 0 && Contains(hay[1..], needle))
  }

  /** Every occurrence is found by the scan. */
  lemma {:induction false} OccurrenceIsContained(hay: string, needle: string, i: int)
    requires OccursAt(hay, needle, i)
    ensures Contains(hay, needle)
    decreases i
  {
    if i == 0 {
      assert hay[..|needle|] == hay[0..0 + |needle|];
    } else {
      assert hay[1..][i - 1..i - 1 + |needle|] == hay[i..i + |needle|];
      OccurrenceIsContained(hay[1..], needle, i - 1);
    }
  }

  /** The scan only succeeds on an actual occurrence. */
  lemma {:induction false} ContainedOccurs(hay: string, needle: string)
    requires Contains(hay, needle)
    ensures exists i :: OccursAt(hay, needle, i)
    decreases |hay|
  {
    if StartsWith(hay, needle) {
      assert OccursAt(hay, needle, 0);
    } else {
      ContainedOccurs(hay[1..], needle);
      var j :| OccursAt(hay[1..], needle, j);
      assert hay[1..][j..j + |needle|] == hay[j + 1..j + 1 + |needle|];
      assert OccursAt(hay, needle, j + 1);
    }
  }

  /** The scan agrees with the textbook definition of a substring, both ways. */
  lemma ContainsIffOccurs(hay: string, needle: string)
    ensures Contains(hay, needle) <==> exists i :: OccursAt(hay, needle, i)
  {
    if Contains(hay, needle) {
      ContainedOccurs(hay, needle);
    }
    forall i | OccursAt(hay, needle, i) ensures Contains(hay, needle) {
      OccurrenceIsContained(hay, needle, i);
    }
  }

  /** The empty string occurs in every string. */
  lemma EmptyIsContained(hay: string)
    ensures Contains(hay, "")
  {
    assert StartsWith(hay, "");
  }

  /** ASCII lower-casing; characters outside 'A'..'Z' are left as they are */
  function LowerChar(c: char): char {
    if 'A' <= c <= 'Z' then (c as int + 32) as char else c
  }

  function Lower(s: string): string {
    seq(|s|, i requires 0 <= i < |s| => LowerChar(s[i]))
  }

  function NatToString(n: nat): string
    decreases n
  {
    var digit := ['0' + (n % 10) as char];
    if n < 10 then digit else NatToString(n / 10) + digit
  }

  /** Python's `str` of an integer */
  function IntToString(i: int): string {
    if i < 0 then "-" + NatToString(-i) else NatToString(i)
  }

  /** Python's `str` of a value; a quotient is written as a fraction */
  function Show(v: Value): string {
    match v
    case Int(i) => IntToString(i)
    case Str(s) => s
    case Quotient(num, den) => IntToString(num) + "/" + IntToString(den)
  }

  /** Python's `str` of an optional value: `None` is written "None" */
  function ShowOption(v: Option<Value>): string {
    match v
    case None => "None"
    case Some(x) => Show(x)
  }
}
