/**
 * The pieces of Swift's standard library the persisted-string codecs rely on:
 * `split(separator:)`, which drops empty pieces, `joined(separator:)` and `compactMap`.
 */
module Text {
  import opened Wrappers

  /** All pieces of `s` between occurrences of `sep`, empty ones included. */
  function Pieces(s: string, sep: char): (pieces: seq<string>)
    ensures |pieces| >= 1
    ensures forall p <- pieces :: sep !in p
    decreases |s|
  {
    if s == [] then [[]]
    else
      var rest := Pieces(s[1..], sep);
      if s[0] == sep then [[]] + rest
      else [[s[0]] + rest[0]] + rest[1..]
  }

  /** The non-empty elements of `pieces`, in order. */
  function NonEmpty(pieces: seq<string>): (kept: seq<string>)
    ensures |kept| <= |pieces|
    ensures forall p <- kept :: p != [] && p in pieces
  {
    if pieces == [] then []
    else if pieces[0] == [] then NonEmpty(pieces[1..])
    else [pieces[0]] + NonEmpty(pieces[1..])
  }

  /** `s.split(separator: sep)`: the maximal non-empty runs of `s` without `sep`, in order. */
  function Split(s: string, sep: char): (parts: seq<string>)
    ensures forall p <- parts :: p != [] && sep !in p
  {
    NonEmpty(Pieces(s, sep))
  }

  /** `parts.joined(separator: String(sep))`. */
  function Join(parts: seq<string>, sep: char): (s: string)
    ensures |parts| == 0 ==> s == []
    ensures |parts| == 1 ==> s == parts[0]
  {
    if |parts| == 0 then []
    else if |parts| == 1 then parts[0]
    else parts[0] + [sep] + Join(parts[1..], sep)
  }

  /** `xs.compactMap(f)`: the defined results of `f`, in the order of `xs`. */
  function CompactMap<A, B>(xs: seq<A>, f: A -> Option<B>): (ys: seq<B>)
    ensures |ys| <= |xs|
  {
    if xs == [] then []
    else if f(xs[0]).Some? then [f(xs[0]).value] + CompactMap(xs[1..], f)
    else CompactMap(xs[1..], f)
  }

  /** `xs.map(f)`. */
  function MapSeq<A, B>(xs: seq<A>, f: A -> B): (ys: seq<B>)
    ensures |ys| == |xs| && forall i :: 0 <= i < |xs| ==> ys[i] == f(xs[i])
  {
    seq(|xs|, i requires 0 <= i < |xs| => f(xs[i]))
  }

  /** A text without the separator is one piece. */
  lemma {:induction false} PiecesWithoutSeparator(p: string, sep: char)
    requires sep !in p
    ensures Pieces(p, sep) == [p]
    decreases |p|
  {
    if p != [] {
      PiecesWithoutSeparator(p[1..], sep);
      assert [p[0]] + p[1..] == p;
    }
  }

  /** A separator-free prefix followed by the separator becomes the first piece. */
  lemma {:induction false} PiecesOfPrefix(p: string, sep: char, rest: string)
    requires sep !in p
    ensures Pieces(p + [sep] + rest, sep) == [p] + Pieces(rest, sep)
    decreases |p|
  {
    var s := p + [sep] + rest;
    if p == [] {
      assert s[1..] == rest;
    } else {
      assert s[1..] == p[1..] + [sep] + rest;
      PiecesOfPrefix(p[1..], sep, rest);
      assert [p[0]] + p[1..] == p;
    }
  }

  /** Splitting a join, keeping empty pieces, gives back the joined parts. */
  lemma {:induction false} PiecesOfJoin(parts: seq<string>, sep: char)
    requires |parts| >= 1
    requires forall p <- parts :: sep !in p
    ensures Pieces(Join(parts, sep), sep) == parts
  {
    if |parts| == 1 {
      PiecesWithoutSeparator(parts[0], sep);
    } else {
      PiecesOfJoin(parts[1..], sep);
      PiecesOfPrefix(parts[0], sep, Join(parts[1..], sep));
      assert [parts[0]] + parts[1..] == parts;
    }
  }

  /** Dropping empty pieces keeps a list that has none. */
  lemma {:induction false} NonEmptyKeepsAll(pieces: seq<string>)
    requires forall p <- pieces :: p != []
    ensures NonEmpty(pieces) == pieces
  {
    if pieces != [] {
      assert pieces[0] in pieces;
      assert forall p <- pieces[1..] :: p in pieces;
      NonEmptyKeepsAll(pieces[1..]);
      assert [pieces[0]] + pieces[1..] == pieces;
    }
  }

  /**
   * Round trip of `joined` and `split`: non-empty, separator-free parts are recovered
   * exactly, in order; the empty list joins to "" and splits back to the empty list.
   */
  lemma SplitJoin(parts: seq<string>, sep: char)
    requires forall p <- parts :: p != [] && sep !in p
    ensures Split(Join(parts, sep), sep) == parts
  {
    if parts == [] {
      assert Pieces([], sep) == [[]];
    } else {
      PiecesOfJoin(parts, sep);
      NonEmptyKeepsAll(parts);
    }
  }
}
