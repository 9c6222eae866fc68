/** The character substitution applied to generated resource names. */
module Strings {

  /** `s.replace(c, v)` for a one-character pattern `c`. */
  function ReplaceChar(s: string, c: char, v: string): (r: string)
  {
    if s == [] then []
    else (if s[0] == c then v else [s[0]]) + ReplaceChar(s[1..], c, v)
  }

  /** After replacing `c` by a text free of `c`, no `c` is left. */
  lemma {:induction false} ReplaceCharRemoves(s: string, c: char, v: string)
    requires c !in v
    ensures c !in ReplaceChar(s, c, v)
  {
    if s != [] {
      ReplaceCharRemoves(s[1..], c, v);
    }
  }

  /** A text without `c` is left as it is. */
  lemma {:induction false} ReplaceCharIdentity(s: string, c: char, v: string)
    requires c !in s
    ensures ReplaceChar(s, c, v) == s
  {
    if s != [] {
      ReplaceCharIdentity(s[1..], c, v);
      assert s == [s[0]] + s[1..];
    }
  }

  /** Replacement works piecewise on a concatenation. */
  lemma {:induction false} ReplaceCharAppend(a: string, b: string, c: char, v: string)
    ensures ReplaceChar(a + b, c, v) == ReplaceChar(a, c, v) + ReplaceChar(b, c, v)
  {
    if a != [] {
      assert (a + b)[1..] == a[1..] + b;
      ReplaceCharAppend(a[1..], b, c, v);
    } else {
      assert a + b == b;
    }
  }

  /** Applies the replacement pairs of a table, first pair first. */
  function Substitute(table: seq<(char, string)>, s: string): (r: string)
  {
    if table == [] then s
    else Substitute(table[1..], ReplaceChar(s, table[0].0, table[0].1))
  }

  /** One more pair of the table is one more replacement. */
  lemma {:induction false} SubstituteSnoc(table: seq<(char, string)>, s: string, p: (char, string))
    ensures Substitute(table + [p], s) == ReplaceChar(Substitute(table, s), p.0, p.1)
  {
    if table != [] {
      assert (table + [p])[1..] == table[1..] + [p];
      SubstituteSnoc(table[1..], ReplaceChar(s, table[0].0, table[0].1), p);
    } else {
      assert [p][1..] == [];
    }
  }
}
