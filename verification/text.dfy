/** The string primitives of Python that the bot relies on: `str.strip()`,
    `str.lower()`, `sep.join(items)` and `str.startswith`. Strings are
    sequences of Unicode scalar values. */
module Text {

  /** The characters for which Python's `str.isspace()` holds, the ones
      `str.strip()` removes when called without arguments: tab to carriage
      return, the four separators 1C..1F, space, next line, no-break space,
      Ogham space mark, the spaces 2000..200A, line and paragraph separator,
      narrow no-break space, medium mathematical space, ideographic space. */
  predicate IsSpace(c: char) {
    || '\t' <= c <= '\r'
    || '\U{1C}' <= c <= ' '
    || c == '\U{85}' || c == '\U{A0}' || c == '\U{1680}'
    || '\U{2000}' <= c <= '\U{200A}'
    || c == '\U{2028}' || c == '\U{2029}' || c == '\U{202F}' || c == '\U{205F}' || c == '\U{3000}'
  }

  /** Neither the first nor the last character is whitespace. */
  predicate Trimmed(s: string) {
    |s| > 0 ==> !IsSpace(s[0]) && !IsSpace(s[|s| - 1])
  }

  /** All characters of `s[lo..hi]` are whitespace. */
  predicate AllSpace(s: string, lo: nat, hi: nat)
    requires lo <= hi <= |s|
  {
    forall k :: lo <= k < hi ==> IsSpace(s[k])
  }

  /** Drops leading whitespace. */
  function TrimStart(s: string): string {
    if |s| > 0 && IsSpace(s[0]) then TrimStart(s[1..]) else s
  }

  /** Drops trailing whitespace. */
  function TrimEnd(s: string): string {
    if |s| > 0 && IsSpace(s[|s| - 1]) then TrimEnd(s[..|s| - 1]) else s
  }

  /** `TrimStart` keeps a suffix, drops only whitespace and stops at a
      non-whitespace character. */
  lemma {:induction false} TrimStartShape(s: string)
    ensures var r := TrimStart(s);
      && |r| <= |s| && r == s[|s| - |r|..]
      && AllSpace(s, 0, |s| - |r|)
      && (|r| > 0 ==> !IsSpace(r[0]))
  {
    if |s| > 0 && IsSpace(s[0]) {
      TrimStartShape(s[1..]);
    }
  }

  /** `TrimEnd` keeps a prefix, drops only whitespace and stops at a
      non-whitespace character. */
  lemma {:induction false} TrimEndShape(s: string)
    ensures var r := TrimEnd(s);
      && |r| <= |s| && r == s[..|r|]
      && AllSpace(s, |r|, |s|)
      && (|r| > 0 ==> !IsSpace(r[|r| - 1]))
  {
    if |s| > 0 && IsSpace(s[|s| - 1]) {
      TrimEndShape(s[..|s| - 1]);
    }
  }

  /** Python's `s.strip()`: leading and trailing whitespace removed. */
  function Strip(s: string): string {
    TrimEnd(TrimStart(s))
  }

  /** The stripped string neither starts nor ends with whitespace, and it is
      the slice of `s` left once every leading and trailing whitespace
      character is removed. */
  lemma StripShape(s: string)
    ensures Trimmed(Strip(s))
    ensures var r := Strip(s);
      exists i :: 0 <= i <= |s| - |r| && r == s[i..i + |r|]
                  && AllSpace(s, 0, i) && AllSpace(s, i + |r|, |s|)
  {
    var t := TrimStart(s);
    var r := TrimEnd(t);
    TrimStartShape(s);
    TrimEndShape(t);
    var i := |s| - |t|;
    assert r == s[i..i + |r|];
    assert AllSpace(s, i + |r|, |s|) by {
      forall k | i + |r| <= k < |s| ensures IsSpace(s[k]) {
        assert s[k] == t[k - i];
      }
    }
  }

  /** Every character of the stripped string comes from `s`. */
  lemma StripChars(s: string, c: char)
    requires c in Strip(s)
    ensures c in s
  {
    StripShape(s);
  }

  /** Stripping a string that is already trimmed changes nothing, so
      `Strip` is idempotent. */
  lemma StripTrimmed(s: string)
    requires Trimmed(s)
    ensures Strip(s) == s
  {
    assert TrimStart(s) == s;
    assert TrimEnd(s) == s;
  }

  lemma StripIdempotent(s: string)
    ensures Strip(Strip(s)) == Strip(s)
  {
    StripShape(s);
    StripTrimmed(Strip(s));
  }

  /** A string free of whitespace comes back from `Strip` unchanged. */
  lemma StripNoSpace(s: string)
    requires forall k :: 0 <= k < |s| ==> !IsSpace(s[k])
    ensures Strip(s) == s
  {
    StripTrimmed(s);
  }

  /** Python's `sep.join(items)`: the items in order with `sep` between
      consecutive ones. */
  function Join(sep: string, items: seq<string>): (r: string)
    ensures |items| == 1 ==> r == items[0]
    ensures |items| == 0 ==> r == ""
  {
    if |items| == 0 then ""
    else if |items| == 1 then items[0]
    else items[0] + sep + Join(sep, items[1..])
  }

  /** Joining `a + b` puts one separator between the two joins. */
  lemma {:induction false} JoinAppend(sep: string, a: seq<string>, b: seq<string>)
    requires |a| > 0 && |b| > 0
    ensures Join(sep, a + b) == Join(sep, a) + sep + Join(sep, b)
  {
    if |a| == 1 {
      assert (a + b)[1..] == b;
    } else {
      assert (a + b)[1..] == a[1..] + b;
      JoinAppend(sep, a[1..], b);
    }
  }

  /** A join begins with its first item. */
  lemma JoinStartsWith(sep: string, items: seq<string>)
    requires |items| >= 1
    ensures StartsWith(Join(sep, items), items[0])
  {
    if |items| > 1 {
      assert Join(sep, items) == items[0] + (sep + Join(sep, items[1..]));
    }
  }

  /** `part in s`: `s` contains `part` somewhere. */
  ghost predicate Mentions(s: string, part: string) {
    exists pre: string, post: string :: s == pre + part + post
  }

  /** Python's `str.lower()` restricted to ASCII letters. */
  function Lower(s: string): (r: string)
    ensures |r| == |s|
    ensures forall k :: 0 <= k < |s| ==>
              r[k] == (if 'A' <= s[k] <= 'Z' then s[k] - 'A' + 'a' else s[k])
  {
    if |s| == 0 then ""
    else [if 'A' <= s[0] <= 'Z' then s[0] - 'A' + 'a' else s[0]] + Lower(s[1..])
  }

  /** `s.startswith(prefix)`, which is what an anchored `re.match` of a
      literal pattern decides. */
  predicate StartsWith(s: string, prefix: string) {
    |prefix| <= |s| && s[..|prefix|] == prefix
  }
}
