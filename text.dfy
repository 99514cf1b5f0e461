/** String helpers: Ruby's Array#join, and the two cuts a reader of the generated SQL makes. */
module Text {
  import opened Wrappers

  /** Ruby's `Array#join(sep)`: the items in order, with `sep` between each adjacent pair
      and nothing before the first or after the last. */
  function Join(items: seq<string>, sep: string): string
  {
    if |items| == 0 then ""
    else if |items| == 1 then items[0]
    else items[0] + sep + Join(items[1..], sep)
  }

  /** Joining two non-empty lists puts exactly one separator between their joins. */
  lemma {:induction false} JoinAppend(a: seq<string>, b: seq<string>, sep: string)
    requires |a| > 0 && |b| > 0
    ensures Join(a + b, sep) == Join(a, sep) + sep + Join(b, sep)
  {
    if |a| == 1 {
      assert (a + b)[1..] == b;
    } else {
      assert (a + b)[1..] == a[1..] + b;
      JoinAppend(a[1..], b, sep);
    }
  }

  /** A join of items free of `c`, with a separator free of `c`, is free of `c`. */
  lemma {:induction false} JoinAvoids(items: seq<string>, sep: string, c: char)
    requires forall i :: 0 <= i < |items| ==> c !in items[i]
    requires c !in sep
    ensures c !in Join(items, sep)
  {
    if |items| > 1 {
      JoinAvoids(items[1..], sep, c);
    }
  }

  /** The rest of `s` after the prefix `p`, if `s` starts with `p`. */
  function StripPrefix(p: string, s: string): (r: Option<string>)
    ensures r.Some? <==> p <= s
    ensures r.Some? ==> s == p + r.value
  {
    if p <= s then Some(s[|p|..]) else None
  }

  lemma StripPrefixOf(p: string, rest: string)
    ensures StripPrefix(p, p + rest) == Some(rest)
  {
    assert (p + rest)[|p|..] == rest;
  }

  /** Cuts `s` at the first occurrence of `c`: the part before it and the part after it. */
  function SplitAt(c: char, s: string): (r: Option<(string, string)>)
    ensures r.None? <==> c !in s
    ensures r.Some? ==> c !in r.value.0 && s == r.value.0 + [c] + r.value.1
  {
    if s == [] then None
    else if s[0] == c then Some(([], s[1..]))
    else
      match SplitAt(c, s[1..])
      case None => None
      case Some(cut) => Some(([s[0]] + cut.0, cut.1))
  }

  /** The cut is at the first `c`: it gives back the text before and after it. */
  lemma {:induction false} SplitAtOf(c: char, before: string, after: string)
    requires c !in before
    ensures SplitAt(c, before + [c] + after) == Some((before, after))
  {
    var s := before + [c] + after;
    if before == [] {
      assert s[1..] == after;
    } else {
      assert s[0] == before[0];
      assert s[1..] == before[1..] + [c] + after;
      SplitAtOf(c, before[1..], after);
      assert [before[0]] + before[1..] == before;
    }
  }
}
