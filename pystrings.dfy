/**
 * The three Python string operations the request builder relies on:
 * `s.split(sep)`, `sep.join(parts)` and `s.format(arg)` with one positional
 * argument.
 */
module PyStrings {

  /**
   * `s.split(sep)` for a one-character separator: the maximal separator-free
   * runs of `s`, including empty ones at either end and between two adjacent
   * separators; never an empty list.
   */
  function Split(s: string, sep: char): (parts: seq<string>)
    ensures |parts| >= 1
    ensures forall p | p in parts :: sep !in p
    decreases |s|
  {
    if s == [] then [""]
    else
      var rest := Split(s[1..], sep);
      if s[0] == sep then [""] + rest
      else [[s[0]] + rest[0]] + rest[1..]
  }

  /** `sep.join(parts)`. */
  function Join(parts: seq<string>, sep: char): string
  {
    if parts == [] then ""
    else if |parts| == 1 then parts[0]
    else parts[0] + [sep] + Join(parts[1..], sep)
  }

  /** Joining the pieces of a split gives back the string that was split. */
  lemma {:induction false} JoinSplit(s: string, sep: char)
    ensures Join(Split(s, sep), sep) == s
  {
    if s != [] {
      var rest := Split(s[1..], sep);
      JoinSplit(s[1..], sep);
      if s[0] == sep {
        assert Join([""] + rest, sep) == "" + [sep] + Join(rest, sep);
      } else if |rest| == 1 {
        assert Join(rest, sep) == rest[0];
      } else {
        assert Join(rest, sep) == rest[0] + [sep] + Join(rest[1..], sep);
        assert ([[s[0]] + rest[0]] + rest[1..])[1..] == rest[1..];
      }
    }
  }

  lemma {:induction false} SplitFree(a: string, sep: char)
    requires sep !in a
    ensures Split(a, sep) == [a]
  {
    if a != [] {
      assert a[0] in a;
      SplitFree(a[1..], sep);
      assert [a[0]] + a[1..] == a;
    }
  }

  lemma {:induction false} SplitAtSeparator(a: string, b: string, sep: char)
    requires sep !in a
    ensures Split(a + [sep] + b, sep) == [a] + Split(b, sep)
  {
    var s := a + [sep] + b;
    if a == [] {
      assert s[1..] == b;
    } else {
      assert s[1..] == a[1..] + [sep] + b;
      SplitAtSeparator(a[1..], b, sep);
      assert [a[0]] + a[1..] == a;
    }
  }

  /**
   * Splitting a join of separator-free pieces gives back the pieces: with
   * JoinSplit, `Split` and `Join` are inverse bijections between strings and
   * non-empty lists of separator-free strings.
   */
  lemma {:induction false} SplitJoin(parts: seq<string>, sep: char)
    requires |parts| >= 1
    requires forall p | p in parts :: sep !in p
    ensures Split(Join(parts, sep), sep) == parts
  {
    if |parts| == 1 {
      SplitFree(parts[0], sep);
    } else {
      assert parts[0] in parts;
      assert forall p | p in parts[1..] :: p in parts;
      SplitJoin(parts[1..], sep);
      SplitAtSeparator(parts[0], Join(parts[1..], sep), sep);
    }
  }

  /**
   * `s.format(arg)`: every replacement field `{0}` becomes `arg`, the other
   * characters are copied. Python's handling of other braces (`{{`, `}}`,
   * named fields, a lone `}`) is not modelled.
   */
  function Format(s: string, arg: string): string
    decreases |s|
  {
    if |s| >= 3 && s[..3] == "{0}" then arg + Format(s[3..], arg)
    else if s == [] then ""
    else [s[0]] + Format(s[1..], arg)
  }

  /** A brace-free prefix is copied unchanged by `Format`. */
  lemma {:induction false} FormatBraceFreePrefix(a: string, b: string, arg: string)
    requires '{' !in a
    ensures Format(a + b, arg) == a + Format(b, arg)
  {
    if a != [] {
      var s := a + b;
      assert a[0] in a;
      assert s[0] == a[0] != '{';
      assert |s| >= 3 ==> s[..3] != "{0}" by {
        if |s| >= 3 {
          assert s[..3][0] == s[0];
        }
      }
      assert s[1..] == a[1..] + b;
      FormatBraceFreePrefix(a[1..], b, arg);
      calc {
        Format(s, arg);
        [s[0]] + Format(s[1..], arg);
        [a[0]] + (a[1..] + Format(b, arg));
        { assert [a[0]] + a[1..] == a; }
        a + Format(b, arg);
      }
    } else {
      assert a + b == b;
    }
  }

  /** Formatting `prefix + "{0}"` puts `arg` in place of the field. */
  lemma FormatTrailingField(prefix: string, arg: string)
    requires '{' !in prefix && '}' !in prefix
    ensures Format(prefix + "{0}", arg) == prefix + arg
  {
    FormatBraceFreePrefix(prefix, "{0}", arg);
    assert Format("{0}", arg) == arg + Format("", arg);
  }
}
