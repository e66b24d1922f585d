/**
  Go's `strings.Split` and `strings.Join` for the case the query parser uses:
  a separator of exactly one character. Strings are sequences of characters.
*/
module GoStrings {

  /** `strings.Split(s, sep)`: the maximal pieces of `s` between occurrences of
      `sep`. Empty pieces are kept (two adjacent separators give an empty piece),
      and the result is never empty: splitting "" gives [""]. */
  function Split(s: string, sep: char): (terms: seq<string>)
    ensures |terms| >= 1
    ensures forall i :: 0 <= i < |terms| ==> sep !in terms[i]
    decreases |s|
  {
    if s == [] then [""]
    else
      var rest := Split(s[1..], sep);
      if s[0] == sep then [""] + rest
      else [[s[0]] + rest[0]] + rest[1..]
  }

  /** A string without the separator is its own only piece; a string with it
      splits into two or more pieces. */
  lemma {:induction false} SplitSeparatorCases(s: string, sep: char)
    ensures sep !in s <==> Split(s, sep) == [s]
    ensures sep in s <==> |Split(s, sep)| >= 2
    decreases |s|
  {
    if s != [] {
      SplitSeparatorCases(s[1..], sep);
      assert [s[0]] + s[1..] == s;
    }
  }

  /** `strings.Join(parts, sep)`: the parts with one `sep` between neighbours;
      no parts give "", one part gives that part. */
  function Join(parts: seq<string>, sep: char): (s: string)
    ensures |s| + 1 >= |parts|
    decreases |parts|
  {
    if |parts| == 0 then ""
    else if |parts| == 1 then parts[0]
    else parts[0] + [sep] + Join(parts[1..], sep)
  }

  /** Join after Split gives back the original string: no character is lost,
      consecutive separators included. */
  lemma {:induction false} JoinSplit(s: string, sep: char)
    ensures Join(Split(s, sep), sep) == s
    decreases |s|
  {
    if s != [] {
      var rest := Split(s[1..], sep);
      JoinSplit(s[1..], sep);
      var terms := Split(s, sep);
      if s[0] == sep {
        assert terms[1..] == rest;
        assert Join(terms, sep) == "" + [sep] + Join(rest, sep);
      } else if |rest| == 1 {
        assert terms == [[s[0]] + rest[0]];
      } else {
        assert terms[1..] == rest[1..];
        calc {
          Join(terms, sep);
          ([s[0]] + rest[0]) + [sep] + Join(rest[1..], sep);
          [s[0]] + (rest[0] + [sep] + Join(rest[1..], sep));
          [s[0]] + Join(rest, sep);
          [s[0]] + s[1..];
        }
      }
    }
  }

  /** Splitting a string that starts with a separator-free piece followed by a
      separator yields that piece, then the pieces of the remainder. */
  lemma {:induction false} SplitAfterPiece(piece: string, rest: string, sep: char)
    requires sep !in piece
    ensures Split(piece + [sep] + rest, sep) == [piece] + Split(rest, sep)
    decreases |piece|
  {
    var s := piece + [sep] + rest;
    if piece == [] {
      assert s[1..] == rest;
    } else {
      assert s[1..] == piece[1..] + [sep] + rest;
      SplitAfterPiece(piece[1..], rest, sep);
      assert [piece[0]] + piece[1..] == piece;
    }
  }

  /** Split after Join gives back the parts, provided there is at least one
      part and no part contains the separator. */
  lemma {:induction false} SplitJoin(parts: seq<string>, sep: char)
    requires |parts| >= 1
    requires forall i :: 0 <= i < |parts| ==> sep !in parts[i]
    ensures Split(Join(parts, sep), sep) == parts
    decreases |parts|
  {
    if |parts| == 1 {
      SplitSeparatorCases(parts[0], sep);
    } else {
      SplitAfterPiece(parts[0], Join(parts[1..], sep), sep);
      SplitJoin(parts[1..], sep);
      assert [parts[0]] + parts[1..] == parts;
    }
  }

  /** A string containing the separator is its first piece, the separator,
      and the join of the remaining pieces. */
  lemma SplitFirstAndRest(s: string, sep: char)
    requires sep in s
    ensures var terms := Split(s, sep);
      s == terms[0] + [sep] + Join(terms[1..], sep)
  {
    SplitSeparatorCases(s, sep);
    JoinSplit(s, sep);
  }
}
