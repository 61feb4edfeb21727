/** The string operations the relay relies on: `String.Split(params char[])`,
    and its inverse, joining tokens with separator characters. */
module Text {

  /** True when no character of `s` is one of `separators`. */
  predicate NoneOf(s: string, separators: string)
  {
    forall i :: 0 <= i < |s| ==> s[i] !in separators
  }

  /** `s.Split(separators)` for a non-empty set of separators (with none,
      .NET splits on white space instead): the maximal runs of `s` between
      separator characters, in order. Adjacent separators give empty tokens,
      and so do a leading or a trailing separator; the empty string gives one
      empty token. */
  function Split(s: string, separators: string): (parts: seq<string>)
    requires separators != []
    ensures |parts| >= 1
    ensures forall k :: 0 <= k < |parts| ==> NoneOf(parts[k], separators)
    decreases |s|
  {
    if s == [] then [[]]
    else
      var rest := Split(s[1..], separators);
      if s[0] in separators then [[]] + rest
      else [[s[0]] + rest[0]] + rest[1..]
  }

  /** The tokens of `parts` with one `sep` between each two of them. */
  function Join(parts: seq<string>, sep: char): string
    requires |parts| >= 1
    decreases |parts|
  {
    if |parts| == 1 then parts[0] else parts[0] + [sep] + Join(parts[1..], sep)
  }

  /** Joining what `Split` cut on one character gives back the text. */
  lemma {:induction false} JoinSplit(s: string, sep: char)
    ensures Join(Split(s, [sep]), sep) == s
    decreases |s|
  {
    if s != [] {
      JoinSplit(s[1..], sep);
      var rest := Split(s[1..], [sep]);
      if s[0] == sep {
        assert ([[]] + rest)[1..] == rest;
      } else {
        var parts := [[s[0]] + rest[0]] + rest[1..];
        assert parts[1..] == rest[1..];
        if |rest| > 1 {
          assert Join(rest, sep) == rest[0] + [sep] + Join(rest[1..], sep);
        }
      }
    }
  }

  /** Splitting tokens that were joined with a separator gives back exactly
      those tokens, empty ones included, when no token holds a separator. */
  lemma {:induction false} SplitJoin(parts: seq<string>, sep: char, separators: string)
    requires |parts| >= 1 && sep in separators
    requires forall k :: 0 <= k < |parts| ==> NoneOf(parts[k], separators)
    ensures Split(Join(parts, sep), separators) == parts
    decreases |parts|
  {
    if |parts| == 1 {
      SplitToken(parts[0], [], separators);
      assert parts[0] + [] == parts[0];
    } else {
      SplitJoin(parts[1..], sep, separators);
      var tail := [sep] + Join(parts[1..], sep);
      assert Join(parts, sep) == parts[0] + tail;
      assert tail[1..] == Join(parts[1..], sep);
      SplitToken(parts[0], tail, separators);
      assert [parts[0]] + parts[1..] == parts;
    }
  }

  /** Splitting a separator-free token followed by text that starts with a
      separator (or is empty) yields the token, then the rest's tokens. */
  lemma {:induction false} SplitToken(token: string, tail: string, separators: string)
    requires separators != [] && NoneOf(token, separators)
    requires tail == [] || tail[0] in separators
    ensures tail == [] ==> Split(token + tail, separators) == [token]
    ensures tail != [] ==> Split(token + tail, separators) == [token] + Split(tail[1..], separators)
    decreases |token|
  {
    if token == [] {
      assert token + tail == tail;
    } else {
      SplitToken(token[1..], tail, separators);
      assert (token + tail)[1..] == token[1..] + tail;
      assert [token[0]] + token[1..] == token;
    }
  }

  /** The first token is the text before the first separator, and there is a
      second token exactly when the text holds a separator. */
  lemma {:induction false} SplitFirst(s: string, separators: string)
    requires separators != []
    ensures var parts := Split(s, separators);
      && |parts[0]| <= |s| && parts[0] == s[..|parts[0]|]
      && (|parts| == 1 <==> |parts[0]| == |s|)
      && (|parts[0]| < |s| ==> s[|parts[0]|] in separators)
    decreases |s|
  {
    if s != [] {
      SplitFirst(s[1..], separators);
    }
  }

  /** The separator characters of `s`, in order. */
  function SeparatorsIn(s: string, separators: string): (seps: string)
    ensures forall i :: 0 <= i < |seps| ==> seps[i] in separators
    decreases |s|
  {
    if s == [] then []
    else (if s[0] in separators then [s[0]] else []) + SeparatorsIn(s[1..], separators)
  }

  /** The tokens of `parts` with `seps[i]` between token i and token i + 1. */
  function JoinWith(parts: seq<string>, seps: string): string
    requires |parts| >= 1 && |seps| == |parts| - 1
    decreases |parts|
  {
    if |parts| == 1 then parts[0] else parts[0] + [seps[0]] + JoinWith(parts[1..], seps[1..])
  }

  /** `Split` cuts the text at each of its separator characters, one token
      more than there are separators, and putting each separator back between
      its two tokens gives back the text. */
  lemma {:induction false} JoinSplitWith(s: string, separators: string)
    requires separators != []
    ensures |Split(s, separators)| == |SeparatorsIn(s, separators)| + 1
    ensures JoinWith(Split(s, separators), SeparatorsIn(s, separators)) == s
    decreases |s|
  {
    if s != [] {
      JoinSplitWith(s[1..], separators);
      var rest, restSeps := Split(s[1..], separators), SeparatorsIn(s[1..], separators);
      if s[0] in separators {
        assert ([[]] + rest)[1..] == rest;
        assert ([s[0]] + restSeps)[1..] == restSeps;
      } else {
        assert SeparatorsIn(s, separators) == restSeps;
        var parts := [[s[0]] + rest[0]] + rest[1..];
        assert parts[1..] == rest[1..];
        if |rest| > 1 {
          assert JoinWith(rest, restSeps) == rest[0] + [restSeps[0]] + JoinWith(rest[1..], restSeps[1..]);
        }
      }
    }
  }

  /** Splitting separator-free tokens joined by separator characters gives
      back exactly those tokens, empty ones included, whichever separator
      stands between each two of them. */
  lemma {:induction false} SplitJoinWith(parts: seq<string>, seps: string, separators: string)
    requires separators != [] && |parts| >= 1 && |seps| == |parts| - 1
    requires forall i :: 0 <= i < |seps| ==> seps[i] in separators
    requires forall k :: 0 <= k < |parts| ==> NoneOf(parts[k], separators)
    ensures Split(JoinWith(parts, seps), separators) == parts
    decreases |parts|
  {
    if |parts| == 1 {
      SplitToken(parts[0], [], separators);
      assert parts[0] + [] == parts[0];
    } else {
      SplitJoinWith(parts[1..], seps[1..], separators);
      var tail := [seps[0]] + JoinWith(parts[1..], seps[1..]);
      assert JoinWith(parts, seps) == parts[0] + tail;
      assert tail[1..] == JoinWith(parts[1..], seps[1..]);
      SplitToken(parts[0], tail, separators);
      assert [parts[0]] + parts[1..] == parts;
    }
  }

  /** Splitting on the two characters of a Windows line break treats each of
      them as a separator of its own: two lines separated by "\r\n" give
      three tokens, the middle one empty. */
  lemma {:induction false} SplitCrLf(first: string, second: string)
    requires NoneOf(first, "\r\n") && NoneOf(second, "\r\n")
    ensures Split(first + "\r\n" + second, "\r\n") == [first, [], second]
  {
    var parts: seq<string> := [first, [], second];
    var seps := ['\r', '\n'];
    assert seps == "\r\n" && seps[1..] == ['\n'] && seps[1..][1..] == [];
    assert parts[1..] == [[], second] && parts[1..][1..] == [second];
    assert JoinWith(parts[1..], seps[1..]) == [] + ['\n'] + second;
    assert JoinWith(parts, seps) == first + ['\r'] + ([] + ['\n'] + second);
    assert first + ['\r'] + ([] + ['\n'] + second) == first + "\r\n" + second;
    SplitJoinWith(parts, "\r\n", "\r\n");
  }
}
