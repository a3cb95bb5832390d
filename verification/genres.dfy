/**
 * The main genre of a film: the text before the first '|' of its
 * pipe-delimited genre list, as Python's `str.split('|')[0]` computes it.
 */
module Genres {

  const Separator: char := '|'

  /** A cell of the genres column: a string, or another value shown through `str()`. */
  datatype GenreCell = Text(s: string) | NonText(shown: string)

  /** Python's `s.split('|')`: the maximal separator-free pieces, empty ones included. */
  function Split(s: string): (parts: seq<string>)
    ensures |parts| >= 1
    ensures forall i :: 0 <= i < |parts| ==> Separator !in parts[i]
    decreases |s|
  {
    if |s| == 0 then [""]
    else
      var rest := Split(s[1..]);
      if s[0] == Separator then [""] + rest
      else [[s[0]] + rest[0]] + rest[1..]
  }

  /** Python's `'|'.join(parts)`. */
  function Join(parts: seq<string>): string
    requires |parts| >= 1
  {
    if |parts| == 1 then parts[0]
    else parts[0] + [Separator] + Join(parts[1..])
  }

  /** Splitting loses nothing: joining the pieces gives back the string. */
  lemma {:induction false} JoinSplit(s: string)
    ensures Join(Split(s)) == s
    decreases |s|
  {
    if |s| > 0 {
      var rest := Split(s[1..]);
      JoinSplit(s[1..]);
      if s[0] == Separator {
        assert Split(s)[1..] == rest;
      } else {
        var parts := Split(s);
        assert parts[0] == [s[0]] + rest[0];
        if |rest| == 1 {
          assert |parts| == 1;
        } else {
          assert parts[1..] == rest[1..];
          assert Join(rest) == rest[0] + [Separator] + Join(rest[1..]);
        }
        assert s == [s[0]] + s[1..];
      }
    }
  }

  /** Joining separator-free pieces and splitting again gives back the pieces. */
  lemma {:induction false} SplitJoin(parts: seq<string>)
    requires |parts| >= 1
    requires forall i :: 0 <= i < |parts| ==> Separator !in parts[i]
    ensures Split(Join(parts)) == parts
    decreases |parts|, |parts[0]|
  {
    if |parts[0]| > 0 {
      var p := parts[0];
      var tail := [p[1..]] + parts[1..];
      assert Separator !in tail[0];
      assert forall i :: 1 <= i < |tail| ==> tail[i] == parts[i];
      SplitJoin(tail);
      assert Join(parts) == [p[0]] + Join(tail) by {
        if |parts| == 1 {
          assert p == [p[0]] + p[1..];
        } else {
          assert tail[1..] == parts[1..];
          assert p == [p[0]] + p[1..];
        }
      }
      assert Join(parts)[1..] == Join(tail);
      assert Join(parts)[0] == p[0] && p[0] != Separator;
      assert [p[0]] + p[1..] == p;
      assert parts == [p] + parts[1..];
    } else if |parts| > 1 {
      var tail := parts[1..];
      SplitJoin(tail);
      assert Join(parts) == [Separator] + Join(tail);
      assert Join(parts)[1..] == Join(tail);
      assert parts == [""] + tail;
    }
  }

  /** The first piece of a split: the prefix before the first separator. */
  function FirstToken(s: string): string
  {
    Split(s)[0]
  }

  /**
   * The first piece is a separator-free prefix of the string that stops at a
   * separator or at the end; without a separator it is the whole string.
   */
  lemma {:induction false} FirstTokenIsPrefix(s: string)
    ensures |FirstToken(s)| <= |s|
    ensures FirstToken(s) == s[..|FirstToken(s)|]
    ensures Separator !in FirstToken(s)
    ensures |FirstToken(s)| < |s| ==> s[|FirstToken(s)|] == Separator
    ensures Separator !in s ==> FirstToken(s) == s
    decreases |s|
  {
    if |s| > 0 && s[0] != Separator {
      FirstTokenIsPrefix(s[1..]);
      assert FirstToken(s) == [s[0]] + FirstToken(s[1..]);
    }
  }

  /** The main-genre column: first piece of a string cell, `str()` of anything else. */
  function MainGenre(cell: GenreCell): (g: string)
    ensures cell.Text? ==> Separator !in g
  {
    match cell
    case Text(s) => FirstToken(s)
    case NonText(shown) => shown
  }

  /** A genre list that starts with a separator-free name has that name as its main genre. */
  lemma MainGenreOfList(first: string, rest: string)
    requires Separator !in first
    ensures MainGenre(Text(first + [Separator] + rest)) == first
  {
    var s := first + [Separator] + rest;
    FirstTokenIsPrefix(s);
    var t := FirstToken(s);
    var k := |first|;
    assert s[k] == Separator;
    assert forall i :: 0 <= i < k ==> s[i] == first[i];
    assert t == s[..k] == first;
  }
}
