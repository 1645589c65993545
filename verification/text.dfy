/** Small facts about text (sequences of characters) used to read a chat message back. */
module Text {
  import opened Wrappers

  /** Splits `s` at its first line feed into the text before it and the text after it;
      `None` when `s` holds no line feed. */
  function SplitAtNewline(s: string): (r: Option<(string, string)>)
    ensures r.None? <==> '\n' !in s
    ensures r.Some? ==> s == r.value.0 + "\n" + r.value.1 && '\n' !in r.value.0
  {
    if |s| == 0 then None
    else if s[0] == '\n' then Some(([], s[1..]))
    else
      match SplitAtNewline(s[1..])
      case None => None
      case Some(parts) =>
        assert s == [s[0]] + s[1..];
        Some(([s[0]] + parts.0, parts.1))
  }

  /** A line that holds no line feed is split off exactly where it was joined. */
  lemma {:induction false} SplitAtNewlineOfJoin(line: string, rest: string)
    requires '\n' !in line
    ensures SplitAtNewline(line + "\n" + rest) == Some((line, rest))
  {
    var s := line + "\n" + rest;
    if |line| == 0 {
      assert s == "\n" + rest;
      assert s[1..] == rest;
    } else {
      assert s[1..] == line[1..] + "\n" + rest;
      SplitAtNewlineOfJoin(line[1..], rest);
      assert [line[0]] + line[1..] == line;
    }
  }

  /** `s` with `prefix` removed from its front; `None` when `s` does not start with `prefix`. */
  function StripPrefix(prefix: string, s: string): (r: Option<string>)
    ensures r.Some? <==> prefix <= s
    ensures r.Some? ==> s == prefix + r.value
  {
    if prefix <= s then
      assert s == s[..|prefix|] + s[|prefix|..];
      Some(s[|prefix|..])
    else None
  }

  /** Stripping a prefix from a text that was built from it gives back the rest. */
  lemma StripPrefixOfJoin(prefix: string, rest: string)
    ensures StripPrefix(prefix, prefix + rest) == Some(rest)
  {
    assert (prefix + rest)[..|prefix|] == prefix;
    assert (prefix + rest)[|prefix|..] == rest;
  }

  /** A text without line feeds has no line feed in its tail. */
  lemma NoNewlineInSuffix(a: string, b: string)
    requires '\n' !in a + b
    ensures '\n' !in b
  {
    assert forall k | 0 <= k < |b| :: b[k] == (a + b)[|a| + k];
  }

  /** A line feed in a joined text comes from one of its parts. */
  lemma NoNewlineInJoin(a: string, b: string)
    requires '\n' !in a && '\n' !in b
    ensures '\n' !in a + b
  {
  }
}
