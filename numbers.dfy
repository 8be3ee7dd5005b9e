/**
 * The recipient normalisation of the `/send` route: `to.replace('@c.us', '')`.
 * With a string pattern, JavaScript's `String.prototype.replace` replaces only
 * the FIRST occurrence of the pattern, and returns the string unchanged when the
 * pattern does not occur.
 */
module Numbers {
  import opened Wrappers

  /** The suffix of a contact chat id, stripped from the recipient before lookup. */
  const ContactSuffix: string := "@c.us"

  /** `p` occurs in `s` starting at index `i`. */
  predicate OccursAt(s: string, p: string, i: nat)
  {
    i + |p| <= |s| && s[i..i + |p|] == p
  }

  /** `p` is a substring of `s`. */
  predicate Contains(s: string, p: string)
  {
    exists i: nat | i <= |s| :: OccursAt(s, p, i)
  }

  /** Occurrences in a non-empty string, other than at 0, are those of its tail shifted by one. */
  lemma OccursAtTail(s: string, p: string)
    requires s != []
    ensures forall i: nat :: 0 < i ==> (OccursAt(s, p, i) <==> OccursAt(s[1..], p, i - 1))
  {
  }

  /** The index of the first occurrence of `p` in `s`, like `String.prototype.indexOf`. */
  function IndexOf(s: string, p: string): (r: Option<nat>)
    ensures r.Some? ==> OccursAt(s, p, r.value)
    ensures r.Some? ==> forall j: nat :: j < r.value ==> !OccursAt(s, p, j)
    ensures r.None? <==> !Contains(s, p)
    decreases |s|
  {
    if |p| <= |s| && s[..|p|] == p then
      assert OccursAt(s, p, 0);
      Some(0)
    else if s == [] then
      None
    else
      OccursAtTail(s, p);
      match IndexOf(s[1..], p)
      case None => None
      case Some(i) => Some(i + 1)
  }

  /** `s.replace(p, rep)` for a string pattern `p`: only the first occurrence is replaced. */
  function ReplaceFirst(s: string, p: string, rep: string): (r: string)
    ensures !Contains(s, p) ==> r == s
    ensures Contains(s, p) ==> |r| == |s| - |p| + |rep|
  {
    match IndexOf(s, p)
    case None => s
    case Some(i) => s[..i] + rep + s[i + |p|..]
  }

  /** The number handed to the provider's number lookup, `to.replace('@c.us', '')`. */
  function Normalise(to: string): string
  {
    ReplaceFirst(to, ContactSuffix, "")
  }

  /** A recipient without the suffix is passed on unchanged, and only such a recipient is. */
  lemma NormaliseFixedPoints(to: string)
    ensures Normalise(to) == to <==> !Contains(to, ContactSuffix)
  {
  }

  /** The result is five characters shorter when the suffix occurs, and of the same length otherwise. */
  lemma NormaliseLength(to: string)
    ensures Contains(to, ContactSuffix) ==> |Normalise(to)| == |to| - |ContactSuffix|
    ensures !Contains(to, ContactSuffix) ==> |Normalise(to)| == |to|
  {
  }

  /**
   * The first occurrence is the one replaced: when `a` is followed by `p` and no
   * occurrence of `p` starts inside `a`, the result is `a`, then `rep`, then the
   * rest, whatever the rest holds (later occurrences included).
   */
  lemma ReplaceFirstAtFirst(a: string, p: string, b: string, rep: string)
    requires forall j: nat :: j < |a| ==> !OccursAt(a + p + b, p, j)
    ensures ReplaceFirst(a + p + b, p, rep) == a + rep + b
  {
    var s := a + p + b;
    assert s[|a|..|a| + |p|] == p;
    assert OccursAt(s, p, |a|);
    var i := IndexOf(s, p).value;
    assert i == |a|;
    assert s[..i] == a;
    assert s[i + |p|..] == b;
  }

  /** The suffix case: `a + "@c.us" + b` becomes `a + b` when no occurrence starts inside `a`. */
  lemma NormaliseRemovesFirst(a: string, b: string)
    requires forall j: nat :: j < |a| ==> !OccursAt(a + ContactSuffix + b, ContactSuffix, j)
    ensures Normalise(a + ContactSuffix + b) == a + b
  {
    ReplaceFirstAtFirst(a, ContactSuffix, b, "");
    assert a + "" + b == a + b;
  }

  /**
   * A chat id of the form `<number>@c.us`, possibly followed by more text, loses
   * its first suffix only, given that the number holds no '@'.
   */
  lemma NormaliseChatId(number: string, rest: string)
    requires '@' !in number
    ensures Normalise(number + ContactSuffix + rest) == number + rest
  {
    var s := number + ContactSuffix + rest;
    forall j: nat | j < |number|
      ensures !OccursAt(s, ContactSuffix, j)
    {
      assert s[j] == number[j];
    }
    NormaliseRemovesFirst(number, rest);
  }

  /** A second suffix survives: normalising is not idempotent. */
  lemma NormaliseKeepsSecondSuffix(number: string)
    requires '@' !in number
    ensures Normalise(number + ContactSuffix + ContactSuffix) == number + ContactSuffix
    ensures Normalise(Normalise(number + ContactSuffix + ContactSuffix)) == number
  {
    NormaliseChatId(number, ContactSuffix);
    NormaliseChatId(number, "");
    assert number + ContactSuffix + "" == number + ContactSuffix;
  }
}
