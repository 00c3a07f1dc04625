/** Splitting and joining text at a separator. */
module Strings {

  /** The pieces of `s` between the separators, at least one. */
  function Split(s: string, sep: char): (pieces: seq<string>)
    ensures |pieces| >= 1
    ensures forall i | 0 <= i < |pieces| :: Free(pieces[i], sep)
  {
    if s == "" then [""]
    else
      var rest := Split(s[1..], sep);
      if s[0] == sep then [""] + rest else rest[0 := [s[0]] + rest[0]]
  }

  predicate Free(s: string, c: char) {
    c !in s
  }

  function Join(pieces: seq<string>, sep: char): string {
    if pieces == [] then ""
    else if |pieces| == 1 then pieces[0]
    else pieces[0] + [sep] + Join(pieces[1..], sep)
  }

  lemma {:induction false} SplitOne(s: string, sep: char)
    requires sep !in s
    ensures Split(s, sep) == [s]
  {
    if s != "" {
      SplitOne(s[1..], sep);
      assert [s[0]] + s[1..] == s;
    }
  }

  lemma {:induction false} SplitFirst(a: string, b: string, sep: char)
    requires sep !in a
    ensures Split(a + [sep] + b, sep) == [a] + Split(b, sep)
  {
    if a == "" {
      assert (a + [sep] + b)[1..] == b;
    } else {
      SplitFirst(a[1..], b, sep);
      assert (a + [sep] + b)[1..] == a[1..] + [sep] + b;
      assert [a[0]] + a[1..] == a;
    }
  }

  /** Splitting at one separator splits both sides. */
  lemma {:induction false} SplitConcat(a: string, b: string, sep: char)
    ensures Split(a + [sep] + b, sep) == Split(a, sep) + Split(b, sep)
  {
    if a == "" {
      assert (a + [sep] + b)[1..] == b;
    } else {
      SplitConcat(a[1..], b, sep);
      assert (a + [sep] + b)[1..] == a[1..] + [sep] + b;
    }
  }

  /** Splitting undoes joining. */
  lemma {:induction false} SplitJoin(pieces: seq<string>, sep: char)
    requires pieces != [] && forall p | p in pieces :: sep !in p
    ensures Split(Join(pieces, sep), sep) == pieces
  {
    if |pieces| == 1 {
      SplitOne(pieces[0], sep);
    } else {
      SplitFirst(pieces[0], Join(pieces[1..], sep), sep);
      SplitJoin(pieces[1..], sep);
    }
  }

  /** Joining undoes splitting. */
  lemma {:induction false} JoinSplit(s: string, sep: char)
    ensures Join(Split(s, sep), sep) == s
  {
    if s != "" {
      JoinSplit(s[1..], sep);
      var rest := Split(s[1..], sep);
      if s[0] == sep {
        assert ([""] + rest)[1..] == rest;
        assert "" + [sep] + Join(rest, sep) == s;
      } else {
        assert rest[0 := [s[0]] + rest[0]][1..] == rest[1..];
        if |rest| == 1 {
          assert [s[0]] + rest[0] == s;
        } else {
          assert [s[0]] + rest[0] + [sep] + Join(rest[1..], sep) == [s[0]] + (rest[0] + [sep] + Join(rest[1..], sep));
        }
      }
    }
  }

  /** Pieces contain nothing the whole does not. */
  lemma {:induction false} SplitKeepsFree(s: string, sep: char, c: char)
    requires Free(s, c)
    ensures forall i | 0 <= i < |Split(s, sep)| :: Free(Split(s, sep)[i], c)
  {
    if s != "" {
      SplitKeepsFree(s[1..], sep, c);
    }
  }

  lemma {:induction false} JoinSnoc(pieces: seq<string>, last: string, sep: char)
    ensures Join(pieces + [last], sep) == if pieces == [] then last else Join(pieces, sep) + [sep] + last
  {
    if |pieces| == 0 {
      assert pieces + [last] == [last];
    } else if |pieces| == 1 {
      assert (pieces + [last])[1..] == [last];
    } else {
      JoinSnoc(pieces[1..], last, sep);
      assert (pieces + [last])[1..] == pieces[1..] + [last];
      assert pieces[0] + [sep] + (Join(pieces[1..], sep) + [sep] + last)
          == pieces[0] + [sep] + Join(pieces[1..], sep) + [sep] + last;
    }
  }
}
