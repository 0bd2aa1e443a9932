/** Splitting SQL text on a one-character separator, as Go's `regexp.Split(query, -1)`
    does for the pattern `\?`, and counting the separators. The mock driver derives a
    statement's input count from the number of pieces. */
module Placeholders {

  /** The placeholder marker of the driver shim. */
  const Marker: char := '?'

  /** Number of occurrences of `c` in `s`. */
  function Count(s: string, c: char): nat
    decreases |s|
  {
    if s == [] then 0 else (if s[0] == c then 1 else 0) + Count(s[1..], c)
  }

  /** The pieces of `s` between occurrences of `sep`, in order, empty pieces included.
      The empty text yields one empty piece, as Go's Split does. */
  function Split(s: string, sep: char): (pieces: seq<string>)
    ensures |pieces| >= 1
    decreases |s|
  {
    if s == [] then [""]
    else
      var rest := Split(s[1..], sep);
      if s[0] == sep then [""] + rest
      else [[s[0]] + rest[0]] + rest[1..]
  }

  /** The pieces put back together with `sep` between neighbours. */
  function Join(pieces: seq<string>, sep: char): string
    requires |pieces| >= 1
    decreases |pieces|
  {
    if |pieces| == 1 then pieces[0] else pieces[0] + [sep] + Join(pieces[1..], sep)
  }

  /** Splitting yields one piece more than there are separators. */
  lemma {:induction false} SplitLength(s: string, sep: char)
    ensures |Split(s, sep)| == Count(s, sep) + 1
    decreases |s|
  {
    if s != [] {
      SplitLength(s[1..], sep);
    }
  }

  /** No piece contains the separator. */
  lemma {:induction false} SplitPiecesFree(s: string, sep: char)
    ensures forall k :: 0 <= k < |Split(s, sep)| ==> sep !in Split(s, sep)[k]
    decreases |s|
  {
    if s != [] {
      SplitPiecesFree(s[1..], sep);
      var rest := Split(s[1..], sep);
      if s[0] != sep {
        assert sep !in rest[0];
        assert [s[0]] + rest[0] == Split(s, sep)[0];
      }
    }
  }

  /** Joining the pieces gives back the text: splitting loses nothing. */
  lemma {:induction false} JoinSplit(s: string, sep: char)
    ensures Join(Split(s, sep), sep) == s
    decreases |s|
  {
    if s != [] {
      JoinSplit(s[1..], sep);
      var rest := Split(s[1..], sep);
      if s[0] == sep {
        assert Split(s, sep) == [""] + rest;
        assert (([""] + rest)[1..]) == rest;
      } else {
        var p := Split(s, sep);
        assert p[0] == [s[0]] + rest[0] && p[1..] == rest[1..];
        if |rest| == 1 {
          assert s == [s[0]] + s[1..];
        } else {
          assert Join(rest, sep) == rest[0] + [sep] + Join(rest[1..], sep);
          assert s == [s[0]] + s[1..];
        }
      }
    }
  }

  /** Splitting the join of separator-free pieces recovers exactly those pieces. */
  lemma {:induction false} SplitJoin(pieces: seq<string>, sep: char)
    requires |pieces| >= 1
    requires forall k :: 0 <= k < |pieces| ==> sep !in pieces[k]
    ensures Split(Join(pieces, sep), sep) == pieces
    decreases |pieces|, |pieces[0]|
  {
    var p := pieces[0];
    if p == [] {
      if |pieces| > 1 {
        SplitJoin(pieces[1..], sep);
        assert Join(pieces, sep) == [sep] + Join(pieces[1..], sep);
      }
    } else {
      var shorter := [p[1..]] + pieces[1..];
      assert sep !in shorter[0];
      SplitJoin(shorter, sep);
      assert Join(pieces, sep) == [p[0]] + Join(shorter, sep);
      var text := Join(pieces, sep);
      assert text[1..] == Join(shorter, sep);
      assert p == [p[0]] + p[1..];
    }
  }

  /** The count agrees with the multiset view of the text. */
  lemma {:induction false} CountIsMultiplicity(s: string, c: char)
    ensures Count(s, c) == multiset(s)[c]
    decreases |s|
  {
    if s != [] {
      CountIsMultiplicity(s[1..], c);
      assert s == [s[0]] + s[1..];
      assert multiset(s) == multiset{s[0]} + multiset(s[1..]);
    }
  }

  /** The number of positional inputs of a query: pieces minus one. */
  function InputCount(query: string): (n: nat)
    ensures n == Count(query, Marker)
    ensures n == multiset(query)[Marker]
  {
    SplitLength(query, Marker);
    CountIsMultiplicity(query, Marker);
    |Split(query, Marker)| - 1
  }
}
