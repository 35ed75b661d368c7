/**
 * String helpers with JavaScript's meaning: `Array.prototype.join`,
 * `String.prototype.split` on one character, and ASCII `toUpperCase`;
 * plus `Marks`, the number of `?` placeholders in an SQL text.
 */
module Text {

  /** Number of `?` placeholders in `s`. */
  function Marks(s: string): nat {
    if |s| == 0 then 0 else Marks(s[..|s| - 1]) + (if s[|s| - 1] == '?' then 1 else 0)
  }

  lemma {:induction false} MarksAppend(a: string, b: string)
    ensures Marks(a + b) == Marks(a) + Marks(b)
    decreases |b|
  {
    if |b| > 0 {
      assert (a + b)[..|a + b| - 1] == a + b[..|b| - 1];
      MarksAppend(a, b[..|b| - 1]);
    } else {
      assert a + b == a;
    }
  }

  lemma {:induction false} NoMarks(s: string)
    requires '?' !in s
    ensures Marks(s) == 0
  {
    if |s| > 0 {
      assert s[|s| - 1] in s;
      NoMarks(s[..|s| - 1]);
    }
  }

  /** A fragment that ends in its one placeholder: `"price >= ?"` is `Bind("price >= ")`. */
  function Bind(prefix: string): string {
    prefix + "?"
  }

  lemma BindMarks(prefix: string)
    requires '?' !in prefix
    ensures Marks(Bind(prefix)) == 1
  {
    NoMarks(prefix);
    MarksAppend(prefix, "?");
    assert Marks("?") == 1 by { assert "?"[..0] == ""; }
  }

  /** Sum of the placeholders of every string in `xs`. */
  function MarksIn(xs: seq<string>): nat {
    if |xs| == 0 then 0 else MarksIn(xs[..|xs| - 1]) + Marks(xs[|xs| - 1])
  }

  lemma {:induction false} MarksInAppend(xs: seq<string>, ys: seq<string>)
    ensures MarksIn(xs + ys) == MarksIn(xs) + MarksIn(ys)
    decreases |ys|
  {
    if |ys| > 0 {
      assert (xs + ys)[..|xs + ys| - 1] == xs + ys[..|ys| - 1];
      MarksInAppend(xs, ys[..|ys| - 1]);
    } else {
      assert xs + ys == xs;
    }
  }

  /** `xs.join(sep)`. */
  function Join(xs: seq<string>, sep: string): string {
    if |xs| == 0 then ""
    else if |xs| == 1 then xs[0]
    else Join(xs[..|xs| - 1], sep) + sep + xs[|xs| - 1]
  }

  /** A separator without placeholders adds none: the joined text has exactly the parts' placeholders. */
  lemma {:induction false} MarksOfJoin(xs: seq<string>, sep: string)
    requires Marks(sep) == 0
    ensures Marks(Join(xs, sep)) == MarksIn(xs)
  {
    if |xs| == 1 {
      assert xs[..0] == [];
    } else if |xs| > 1 {
      MarksOfJoin(xs[..|xs| - 1], sep);
      MarksAppend(Join(xs[..|xs| - 1], sep), sep);
      MarksAppend(Join(xs[..|xs| - 1], sep) + sep, xs[|xs| - 1]);
    }
  }

  /** `values.map(() => "?")` for n values. */
  function QuestionMarks(n: nat): (qs: seq<string>)
    ensures |qs| == n
    ensures MarksIn(qs) == n
  {
    if n == 0 then [] else
      assert "?"[..0] == "";
      assert (QuestionMarks(n - 1) + ["?"])[..n - 1] == QuestionMarks(n - 1);
      QuestionMarks(n - 1) + ["?"]
  }

  /** `values.map(() => "?").join(",")`: one placeholder per value. */
  function Placeholders(n: nat): (r: string)
    ensures Marks(r) == n
  {
    NoMarks(",");
    MarksOfJoin(QuestionMarks(n), ",");
    Join(QuestionMarks(n), ",")
  }

  /** `s.split(c)` for a one-character separator: "" splits into [""], "a,,b" into ["a", "", "b"]. */
  function Split(s: string, c: char): (r: seq<string>)
    ensures |r| >= 1
    ensures forall i :: 0 <= i < |r| ==> c !in r[i]
  {
    if |s| == 0 then [""]
    else
      var rest := Split(s[1..], c);
      if s[0] == c then [""] + rest else [[s[0]] + rest[0]] + rest[1..]
  }

  /** Splitting inverts joining: the pieces joined by the separator give back the text. */
  lemma {:induction false} JoinSplit(s: string, c: char)
    ensures Join(Split(s, c), [c]) == s
  {
    if |s| > 0 {
      JoinSplit(s[1..], c);
      if s[0] == c {
        JoinEmptyFront(Split(s[1..], c), [c]);
      } else {
        JoinCharFront(Split(s[1..], c), [c], s[0]);
      }
    }
  }

  /** Joining after putting an empty piece in front of the pieces. */
  lemma {:induction false} JoinEmptyFront(rest: seq<string>, sep: string)
    requires |rest| >= 1
    ensures Join([""] + rest, sep) == sep + Join(rest, sep)
    decreases |rest|
  {
    if |rest| == 1 {
      assert ([""] + rest)[..1] == [""];
    } else {
      var init := rest[..|rest| - 1];
      JoinEmptyFront(init, sep);
      assert ([""] + rest)[..|rest|] == [""] + init;
    }
  }

  /** Joining after putting a character in front of the first piece. */
  lemma {:induction false} JoinCharFront(rest: seq<string>, sep: string, x: char)
    requires |rest| >= 1
    ensures Join([[x] + rest[0]] + rest[1..], sep) == [x] + Join(rest, sep)
    decreases |rest|
  {
    var ys := [[x] + rest[0]] + rest[1..];
    var n := |rest|;
    if n == 1 {
      assert ys == [[x] + rest[0]];
    } else {
      var init := rest[..n - 1];
      JoinCharFront(init, sep, x);
      assert ys[..n - 1] == [[x] + init[0]] + init[1..];
      assert ys[n - 1] == rest[n - 1];
      calc {
        Join(ys, sep);
        Join(ys[..n - 1], sep) + sep + ys[n - 1];
        ([x] + Join(init, sep)) + sep + rest[n - 1];
        [x] + (Join(init, sep) + sep + rest[n - 1]);
        [x] + Join(rest, sep);
      }
    }
  }

  /** The text on either side of a separator is split independently. */
  lemma {:induction false} SplitAround(a: string, b: string, c: char)
    ensures Split(a + [c] + b, c) == Split(a, c) + Split(b, c)
  {
    if |a| == 0 {
      assert a + [c] + b == [c] + b;
      assert ([c] + b)[1..] == b;
    } else {
      assert (a + [c] + b)[1..] == a[1..] + [c] + b;
      SplitAround(a[1..], b, c);
    }
  }

  /** A text without the separator is one piece. */
  lemma {:induction false} SplitWhole(s: string, c: char)
    requires c !in s
    ensures Split(s, c) == [s]
  {
    if |s| > 0 {
      SplitWhole(s[1..], c);
      assert [s[0]] + s[1..] == s;
    }
  }

  /** Joining then splitting gives the parts back when no part holds the separator. */
  lemma {:induction false} SplitJoin(xs: seq<string>, c: char)
    requires |xs| >= 1
    requires forall i :: 0 <= i < |xs| ==> c !in xs[i]
    ensures Split(Join(xs, [c]), c) == xs
  {
    if |xs| == 1 {
      SplitWhole(xs[0], c);
    } else {
      var init := xs[..|xs| - 1];
      SplitJoin(init, c);
      SplitAround(Join(init, [c]), xs[|xs| - 1], c);
      SplitWhole(xs[|xs| - 1], c);
      assert xs == init + [xs[|xs| - 1]];
    }
  }

  /** `pieces.filter(Boolean)` on strings: drop the empty ones. */
  function DropEmpty(xs: seq<string>): (r: seq<string>)
    ensures |r| <= |xs|
    ensures forall i :: 0 <= i < |r| ==> r[i] != "" && r[i] in xs
  {
    if |xs| == 0 then [] else (if xs[0] == "" then [] else [xs[0]]) + DropEmpty(xs[1..])
  }

  /** Every non-empty piece survives the filter. */
  lemma {:induction false} DropEmptyComplete(xs: seq<string>)
    ensures forall x :: x in xs && x != "" ==> x in DropEmpty(xs)
  {
    if |xs| > 0 {
      DropEmptyComplete(xs[1..]);
      assert forall x :: x in xs ==> x == xs[0] || x in xs[1..];
    }
  }

  /** The filter keeps the input's order: it works piece by piece from the front. */
  lemma {:induction false} DropEmptyAppend(a: seq<string>, b: seq<string>)
    ensures DropEmpty(a + b) == DropEmpty(a) + DropEmpty(b)
  {
    if |a| == 0 {
      assert a + b == b;
    } else {
      var head := if a[0] == "" then [] else [a[0]];
      assert (a + b)[0] == a[0] && (a + b)[1..] == a[1..] + b;
      calc {
        DropEmpty(a + b);
        head + DropEmpty(a[1..] + b);
        { DropEmptyAppend(a[1..], b); }
        head + (DropEmpty(a[1..]) + DropEmpty(b));
        (head + DropEmpty(a[1..])) + DropEmpty(b);
        DropEmpty(a) + DropEmpty(b);
      }
    }
  }

  /** `"a,,b".split(",").filter(Boolean)` gives `a` and `b`. */
  lemma SplitGap()
    ensures DropEmpty(Split("a,,b", ',')) == ["a", "b"]
  {
    var pieces := ["a", "", "b"];
    assert Split("a,,b", ',') == pieces by {
      SplitJoin(pieces, ',');
      assert Join(pieces, [',']) == "a,,b" by {
        assert pieces[..2] == ["a", ""] && ["a", ""][..1] == ["a"];
      }
    }
    assert DropEmpty(pieces) == ["a", "b"] by {
      assert pieces[1..] == ["", "b"] && ["", "b"][1..] == ["b"] && ["b"][1..] == [];
    }
  }

  lemma {:induction false} DropEmptyKeeps(xs: seq<string>)
    requires forall i :: 0 <= i < |xs| ==> xs[i] != ""
    ensures DropEmpty(xs) == xs
  {
    if |xs| > 0 {
      DropEmptyKeeps(xs[1..]);
    }
  }

  /** ASCII upper-casing of one character. */
  function UpperChar(ch: char): char {
    if 'a' <= ch <= 'z' then (ch as int - 'a' as int + 'A' as int) as char else ch
  }

  /** `s.toUpperCase()` restricted to ASCII letters. */
  function Upper(s: string): (r: string)
    ensures |r| == |s|
    ensures forall i :: 0 <= i < |s| ==> r[i] == UpperChar(s[i])
  {
    if |s| == 0 then [] else [UpperChar(s[0])] + Upper(s[1..])
  }
}
