/** `str.split` on one character, and its inverse. */
module Splitting {

  function Split(s: string, sep: char): (parts: seq<string>)
    ensures parts != []
  {
    if s == "" then [""]
    else
      var rest := Split(s[1..], sep);
      if s[0] == sep then [""] + rest else [[s[0]] + rest[0]] + rest[1..]
  }

  function Join(parts: seq<string>, sep: char): string
    requires parts != []
  {
    if |parts| == 1 then parts[0] else parts[0] + [sep] + Join(parts[1..], sep)
  }

  predicate Free(s: string, c: char) { forall i :: 0 <= i < |s| ==> s[i] != c }

  predicate AllFree(parts: seq<string>, c: char) { forall i :: 0 <= i < |parts| ==> Free(parts[i], c) }

  /** `s.split(sep, 1)[0]` */
  function Head(s: string, sep: char): (r: string)
    ensures |r| <= |s|
  {
    if s == "" || s[0] == sep then "" else [s[0]] + Head(s[1..], sep)
  }

  lemma {:induction false} SplitJoins(s: string, sep: char)
    ensures Join(Split(s, sep), sep) == s && AllFree(Split(s, sep), sep) && Split(s, sep)[0] == Head(s, sep)
  {
    if s != "" {
      SplitJoins(s[1..], sep);
      var rest := Split(s[1..], sep);
      assert s == [s[0]] + s[1..];
      if s[0] == sep {
        assert ([""] + rest)[1..] == rest;
      } else {
        assert ([[s[0]] + rest[0]] + rest[1..])[1..] == rest[1..];
      }
    }
  }

  lemma {:induction false} SplitFree(s: string, sep: char)
    requires Free(s, sep)
    ensures Split(s, sep) == [s]
  {
    if s != "" {
      SplitFree(s[1..], sep);
      assert [s[0]] + s[1..] == s;
    }
  }

  lemma {:induction false} SplitCons(a: string, sep: char, rest: string)
    requires Free(a, sep)
    ensures Split(a + [sep] + rest, sep) == [a] + Split(rest, sep)
  {
    var s := a + [sep] + rest;
    if a == "" {
      assert s[1..] == rest;
    } else {
      SplitCons(a[1..], sep, rest);
      assert s[1..] == a[1..] + [sep] + rest && [a[0]] + a[1..] == a;
      assert ([a[1..]] + Split(rest, sep))[1..] == Split(rest, sep);
    }
  }

  /** Splitting undoes joining when no part holds the separator. */
  lemma {:induction false} JoinSplits(parts: seq<string>, sep: char)
    requires parts != [] && AllFree(parts, sep)
    ensures Split(Join(parts, sep), sep) == parts
  {
    if |parts| == 1 {
      SplitFree(parts[0], sep);
    } else {
      JoinSplits(parts[1..], sep);
      SplitCons(parts[0], sep, Join(parts[1..], sep));
    }
  }

  lemma {:induction false} JoinFree(parts: seq<string>, sep: char, c: char)
    requires parts != [] && c != sep
    ensures Free(Join(parts, sep), c) <==> AllFree(parts, c)
  {
    if |parts| > 1 {
      JoinFree(parts[1..], sep, c);
      var tail := Join(parts[1..], sep);
      var s := Join(parts, sep);
      assert s == parts[0] + ([sep] + tail);
      if Free(s, c) {
        forall i | 0 <= i < |tail| ensures tail[i] != c { assert s[|parts[0]| + 1 + i] == tail[i]; }
        forall i | 0 <= i < |parts[0]| ensures parts[0][i] != c { assert s[i] == parts[0][i]; }
        assert forall i :: 1 <= i < |parts| ==> parts[i] == parts[1..][i - 1];
      }
      if AllFree(parts, c) {
        assert AllFree(parts[1..], c);
      }
    }
  }

  /** The head is the text before the first separator. */
  lemma {:induction false} HeadCuts(s: string, sep: char)
    ensures Head(s, sep) <= s && Free(Head(s, sep), sep)
    ensures |Head(s, sep)| < |s| ==> s[|Head(s, sep)|] == sep && s == Head(s, sep) + [sep] + s[|Head(s, sep)| + 1..]
    ensures |Head(s, sep)| == |s| <==> Free(s, sep)
  {
    if s != "" && s[0] != sep {
      HeadCuts(s[1..], sep);
    }
  }

  lemma {:induction false} HeadOf(a: string, sep: char, rest: string)
    requires Free(a, sep)
    ensures Head(a + [sep] + rest, sep) == a && Head(a, sep) == a
  {
    if a != "" {
      HeadOf(a[1..], sep, rest);
      assert (a + [sep] + rest)[1..] == a[1..] + [sep] + rest;
    }
  }

  lemma {:induction false} JoinSnoc(parts: seq<string>, sep: char, last: string)
    requires parts != []
    ensures Join(parts + [last], sep) == Join(parts, sep) + [sep] + last
  {
    if |parts| > 1 {
      JoinSnoc(parts[1..], sep, last);
      assert (parts + [last])[1..] == parts[1..] + [last];
    } else {
      assert (parts + [last])[1..] == [last];
    }
  }

  /** The text before the first character of `stops`. */
  function Until(s: string, stops: set<char>): string {
    if s == "" || s[0] in stops then "" else [s[0]] + Until(s[1..], stops)
  }

  /** Cutting at one more separator. */
  lemma {:induction false} HeadOfUntil(s: string, stops: set<char>, sep: char)
    ensures Head(Until(s, stops), sep) == Until(s, stops + {sep})
  {
    if s != "" && s[0] !in stops && s[0] != sep {
      HeadOfUntil(s[1..], stops, sep);
    }
  }

  lemma {:induction false} UntilOf(a: string, stops: set<char>, rest: string)
    requires forall i :: 0 <= i < |a| ==> a[i] !in stops
    requires rest == "" || rest[0] in stops
    ensures Until(a + rest, stops) == a
  {
    if a == "" {
      assert a + rest == rest;
    } else {
      UntilOf(a[1..], stops, rest);
      assert (a + rest)[1..] == a[1..] + rest;
    }
  }
}
