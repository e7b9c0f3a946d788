/** String helpers shared by the renderers: Python's `sep.join(items)`, plain
    concatenation of a list of pieces, and "occurs as a substring". */
module Text {

  /** `sep.join(items)`: the items in order with `sep` between neighbours;
      the empty list joins to the empty string. */
  function Join(sep: string, items: seq<string>): string
  {
    if |items| == 0 then ""
    else if |items| == 1 then items[0]
    else items[0] + sep + Join(sep, items[1..])
  }

  /** `s` appears somewhere inside `t` (Python's `s in t`). */
  predicate Occurs(s: string, t: string)
  {
    exists k :: 0 <= k <= |t| && s <= t[k..]
  }

  /** Anything occurs in a string built around it. */
  lemma OccursBetween(a: string, s: string, b: string)
    ensures Occurs(s, a + s + b)
  {
    var t := a + s + b;
    assert t[|a|..] == s + b;
  }

  /** Occurrence survives putting more text on either side. */
  lemma OccursWithin(s: string, t: string, a: string, b: string)
    requires Occurs(s, t)
    ensures Occurs(s, a + t + b)
  {
    var k :| 0 <= k <= |t| && s <= t[k..];
    var u := a + t + b;
    assert u[|a| + k..] == t[k..] + b;
  }

  /** A prefix of a string occurs in it. */
  lemma OccursPrefix(s: string, t: string)
    requires s <= t
    ensures Occurs(s, t)
  {
    assert t[0..] == t;
  }

  /** Occurrence survives putting text in front. */
  lemma OccursAfter(s: string, t: string, a: string)
    requires Occurs(s, t)
    ensures Occurs(s, a + t)
  {
    var k :| 0 <= k <= |t| && s <= t[k..];
    assert (a + t)[|a| + k..] == t[k..];
  }

  /** Every item of a join occurs in the joined string, whatever the separator. */
  lemma {:induction false} JoinHasItem(sep: string, items: seq<string>, i: nat)
    requires i < |items|
    ensures Occurs(items[i], Join(sep, items))
  {
    if |items| == 1 {
      OccursPrefix(items[0], Join(sep, items));
    } else if i == 0 {
      assert Join(sep, items) == items[0] + (sep + Join(sep, items[1..]));
      OccursPrefix(items[0], Join(sep, items));
    } else {
      JoinHasItem(sep, items[1..], i - 1);
      assert Join(sep, items) == (items[0] + sep) + Join(sep, items[1..]);
      OccursAfter(items[i], Join(sep, items[1..]), items[0] + sep);
    }
  }
}
