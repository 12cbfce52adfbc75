/** The two string primitives the tenant logic is built from. */
module Strings {

  /**
   * `s.split(sep)[0]`: the text before the first `sep`, or all of `s` when it
   * contains none. JavaScript's split always yields at least one part, so
   * this is defined for every string, the empty one included.
   */
  function FirstLabel(s: string, sep: char): (head: string)
    ensures head <= s
    ensures sep !in head
    ensures |head| < |s| ==> s[|head|] == sep
  {
    if s == [] || s[0] == sep then [] else [s[0]] + FirstLabel(s[1..], sep)
  }

  /** The three facts FirstLabel ensures determine it: any prefix with them is the first label. */
  lemma {:induction false} FirstLabelUnique(s: string, sep: char, p: string)
    requires p <= s && sep !in p
    requires |p| < |s| ==> s[|p|] == sep
    ensures FirstLabel(s, sep) == p
  {
  }

  /** Prefixing a label that has no separator makes that label the first one. */
  lemma FirstLabelOfPrefixed(head: string, sep: char, rest: string)
    requires sep !in head
    ensures FirstLabel(head + [sep] + rest, sep) == head
  {
    var s := head + [sep] + rest;
    assert s[|head|] == sep;
    FirstLabelUnique(s, sep, head);
  }

  /** `part` occurs in `s` starting at index `i`. */
  predicate OccursAt(s: string, part: string, i: nat) {
    i + |part| <= |s| && s[i..i + |part|] == part
  }

  /** `s.includes(part)`: a substring test, true for the empty `part`. */
  predicate Includes(s: string, part: string) {
    exists i: nat | i <= |s| :: OccursAt(s, part, i)
  }

  /** Every string includes itself. */
  lemma IncludesItself(s: string)
    ensures Includes(s, s)
  {
    assert OccursAt(s, s, 0);
  }

  /** A string never includes a longer one. */
  lemma {:induction false} NotIncludesLonger(s: string, part: string)
    requires |s| < |part|
    ensures !Includes(s, part)
  {
  }
}
