/**
 * Dotted node paths: str.split('.') and its inverse '.'.join, over plain strings.
 * A path 'a.b.c' names the components a, b and c; an empty string and consecutive dots
 * give empty components, exactly as Python's split does.
 */
module DottedPath {

  /** s.split('.'): the maximal dot-free pieces of s, left to right (at least one). */
  function Split(s: string): (parts: seq<string>)
    ensures |parts| >= 1
    ensures forall i :: 0 <= i < |parts| ==> '.' !in parts[i]
  {
    if |s| == 0 then [""] else Prepend(s[0], Split(s[1..]))
  }

  /** The pieces of [c] + t from the pieces of t: a dot opens a new empty piece, any other character joins the first. */
  function Prepend(c: char, parts: seq<string>): (r: seq<string>)
    requires |parts| >= 1
    ensures |r| >= 1
    ensures c == '.' ==> |r| == |parts| + 1 && r[0] == "" && r[1..] == parts
    ensures c != '.' ==> |r| == |parts| && r[0] == [c] + parts[0] && r[1..] == parts[1..]
  {
    if c == '.' then [""] + parts else [[c] + parts[0]] + parts[1..]
  }

  /** '.'.join(parts). */
  function Join(parts: seq<string>): (name: string)
    requires |parts| >= 1
  {
    if |parts| == 1 then parts[0] else parts[0] + "." + Join(parts[1..])
  }

  /** Prepending a character only touches the first piece, so it commutes with appending pieces. */
  lemma PrependAppend(c: char, r: seq<string>, ys: seq<string>)
    requires |r| >= 1
    ensures Prepend(c, r + ys) == Prepend(c, r) + ys
  {
    if c != '.' {
      assert (r + ys)[1..] == r[1..] + ys;
    }
  }

  /** Splitting [c] + t prepends c to the pieces of t. */
  lemma SplitCons(c: char, t: string)
    ensures Split([c] + t) == Prepend(c, Split(t))
  {
    assert ([c] + t)[1..] == t;
  }

  /** Joining the pieces of a split gives the string back. */
  lemma {:induction false} JoinSplit(s: string)
    ensures Join(Split(s)) == s
  {
    if |s| > 0 {
      var rest := Split(s[1..]);
      JoinSplit(s[1..]);
      assert s == [s[0]] + s[1..];
      if s[0] == '.' {
        assert Split(s) == [""] + rest;
      } else if |rest| > 1 {
        assert Join(rest) == rest[0] + "." + Join(rest[1..]);
      }
    }
  }

  /** A dot between two strings separates their pieces: 'x.y'.split == x.split + y.split. */
  lemma {:induction false} SplitDotted(x: string, y: string)
    ensures Split(x + "." + y) == Split(x) + Split(y)
  {
    if |x| == 0 {
      assert x + "." + y == ['.'] + y;
      SplitCons('.', y);
    } else {
      var t := x[1..];
      SplitDotted(t, y);
      assert x + "." + y == [x[0]] + (t + "." + y);
      assert x == [x[0]] + t;
      SplitCons(x[0], t + "." + y);
      SplitCons(x[0], t);
      PrependAppend(x[0], Split(t), Split(y));
    }
  }

  /** Splitting a dot-free name gives the name alone. */
  lemma {:induction false} SplitPlain(x: string)
    requires '.' !in x
    ensures Split(x) == [x]
  {
    if |x| > 0 {
      assert '.' !in x[1..] by {
        assert forall k :: 0 <= k < |x[1..]| ==> x[1..][k] == x[k + 1];
      }
      SplitPlain(x[1..]);
      assert x == [x[0]] + x[1..];
    }
  }

  /** Splitting a join of dot-free pieces gives the pieces back. */
  lemma {:induction false} SplitJoin(parts: seq<string>)
    requires |parts| >= 1
    requires forall i :: 0 <= i < |parts| ==> '.' !in parts[i]
    ensures Split(Join(parts)) == parts
  {
    SplitPlain(parts[0]);
    if |parts| > 1 {
      SplitJoin(parts[1..]);
      SplitDotted(parts[0], Join(parts[1..]));
      assert parts == [parts[0]] + parts[1..];
    }
  }
}
