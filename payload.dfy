/** Callback payloads such as `date_today` and `type_love`, and Python's
    `str.split(sep)`, which the handlers use to take the value after the
    prefix. */
module Payload {

  /** `s.split(sep)`: the pieces between occurrences of `sep`, empty pieces
      included, at least one piece. */
  function Split(s: string, sep: char): (parts: seq<string>)
    ensures |parts| >= 1
    ensures |parts| >= 2 <==> sep in s
    ensures forall i :: 0 <= i < |parts| ==> sep !in parts[i]
    decreases |s|
  {
    if |s| == 0 then [""]
    else if s[0] == sep then [""] + Split(s[1..], sep)
    else
      var rest := Split(s[1..], sep);
      [[s[0]] + rest[0]] + rest[1..]
  }

  /** `sep.join(parts)`. */
  function Join(parts: seq<string>, sep: char): string
    requires |parts| >= 1
    decreases |parts|
  {
    if |parts| == 1 then parts[0] else parts[0] + [sep] + Join(parts[1..], sep)
  }

  /** Joining the pieces back gives the original text. */
  lemma {:induction false} JoinSplit(s: string, sep: char)
    ensures Join(Split(s, sep), sep) == s
    decreases |s|
  {
    if |s| == 0 {
    } else if s[0] == sep {
      JoinSplit(s[1..], sep);
      assert s == [sep] + s[1..];
    } else {
      var rest := Split(s[1..], sep);
      JoinSplit(s[1..], sep);
      JoinExtendsFirst(s[0], rest, sep);
      assert s == [s[0]] + s[1..];
    }
  }

  /** Putting a character in front of the first piece puts it in front of
      the joined text. */
  lemma JoinExtendsFirst(c: char, parts: seq<string>, sep: char)
    requires |parts| >= 1
    ensures Join([[c] + parts[0]] + parts[1..], sep) == [c] + Join(parts, sep)
  {
    var q := [[c] + parts[0]] + parts[1..];
    if |parts| > 1 {
      assert q[1..] == parts[1..];
    }
  }

  /** Splitting a piece that holds no separator, followed by a separator,
      yields that piece and then the rest's pieces. */
  lemma {:induction false} SplitAfterPiece(a: string, sep: char, rest: string)
    requires sep !in a
    ensures Split(a + [sep] + rest, sep) == [a] + Split(rest, sep)
    decreases |a|
  {
    var s := a + [sep] + rest;
    if |a| == 0 {
      assert s == [sep] + rest;
      assert s[1..] == rest;
    } else {
      assert s[0] == a[0] && s[0] != sep;
      assert s[1..] == a[1..] + [sep] + rest;
      SplitAfterPiece(a[1..], sep, rest);
      var r := Split(s[1..], sep);
      assert r == [a[1..]] + Split(rest, sep);
      assert Split(s, sep) == [[a[0]] + r[0]] + r[1..];
      assert [a[0]] + a[1..] == a;
      assert r[1..] == Split(rest, sep);
    }
  }

  /** Splitting joined pieces that hold no separator gives the pieces back. */
  lemma {:induction false} SplitJoin(parts: seq<string>, sep: char)
    requires |parts| >= 1
    requires forall i :: 0 <= i < |parts| ==> sep !in parts[i]
    ensures Split(Join(parts, sep), sep) == parts
    decreases |parts|
  {
    if |parts| == 1 {
      SplitNoSeparator(parts[0], sep);
    } else {
      SplitJoin(parts[1..], sep);
      SplitAfterPiece(parts[0], sep, Join(parts[1..], sep));
    }
  }

  /** A text without the separator is one piece. */
  lemma {:induction false} SplitNoSeparator(s: string, sep: char)
    requires sep !in s
    ensures Split(s, sep) == [s]
    decreases |s|
  {
    if |s| > 0 {
      SplitNoSeparator(s[1..], sep);
      assert [s[0]] + s[1..] == s;
    }
  }

  predicate StartsWith(s: string, prefix: string) {
    |prefix| <= |s| && s[..|prefix|] == prefix
  }

  /** `data.split("_")[1]`, defined whenever the payload holds an underscore. */
  function SecondField(data: string): (v: string)
    requires '_' in data
    ensures '_' !in v
  {
    Split(data, '_')[1]
  }

  /** The first piece of a text that starts with a piece without separator
      and then either ends or continues with the separator. */
  lemma FirstPiece(value: string, sep: char, tail: string)
    requires sep !in value && (tail == [] || tail[0] == sep)
    ensures Split(value + tail, sep)[0] == value
  {
    if tail == [] {
      assert value + tail == value;
      SplitNoSeparator(value, sep);
    } else {
      assert value + tail == value + [sep] + tail[1..];
      SplitAfterPiece(value, sep, tail[1..]);
    }
  }

  /** A payload built as `<prefix>_<value>`, with no underscore in either part,
      yields its value; extra `_`-separated fields after it are dropped. */
  lemma SecondFieldOfPayload(prefix: string, value: string, tail: string)
    requires '_' !in prefix && '_' !in value
    requires tail == [] || tail[0] == '_'
    ensures '_' in prefix + "_" + value + tail
    ensures SecondField(prefix + "_" + value + tail) == value
  {
    var data := prefix + "_" + value + tail;
    assert data == prefix + ['_'] + (value + tail);
    assert data[|prefix|] == '_';
    SplitAfterPiece(prefix, '_', value + tail);
    FirstPiece(value, '_', tail);
  }
}
