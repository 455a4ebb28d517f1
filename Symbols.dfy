/** Comma-separated symbol lists: how the web front end joins symbols into one
    `q` parameter, and how the quotes service takes `q` apart again with Java's
    `String.split(",")`. */
module Symbols {

  /** True when no element of `xs` contains a comma. */
  predicate CommaFree(xs: seq<string>)
  {
    forall i :: 0 <= i < |xs| ==> ',' !in xs[i]
  }

  /** True when `suffix` is a suffix of `s`. */
  predicate EndsWith(s: string, suffix: string)
  {
    |suffix| <= |s| && s[|s| - |suffix|..] == suffix
  }

  /** The elements of `xs` in order, each pair separated by exactly one comma:
      the empty list joins to "", a one-element list to its element. */
  function Join(xs: seq<string>): (r: string)
    ensures |xs| == 0 ==> r == ""
    ensures |xs| == 1 ==> r == xs[0]
  {
    if |xs| == 0 then ""
    else if |xs| == 1 then xs[0]
    else xs[0] + "," + Join(xs[1..])
  }

  /** A join starts with the first element and ends with the last one, so there
      is no comma before the first or after the last. */
  lemma {:induction false} JoinEnds(xs: seq<string>)
    requires |xs| >= 1
    ensures xs[0] <= Join(xs) && EndsWith(Join(xs), xs[|xs| - 1])
  {
    if |xs| >= 2 {
      JoinEnds(xs[1..]);
      var j := Join(xs[1..]);
      assert Join(xs) == (xs[0] + ",") + j;
      assert xs[1..][|xs[1..]| - 1] == xs[|xs| - 1];
    }
  }

  /** Appending one more element appends one comma and that element. */
  lemma {:induction false} JoinSnoc(xs: seq<string>, x: string)
    requires |xs| >= 1
    ensures Join(xs + [x]) == Join(xs) + "," + x
  {
    if |xs| == 1 {
      assert xs + [x] == [xs[0], x];
      assert [xs[0], x][1..] == [x];
    } else {
      assert (xs + [x])[1..] == xs[1..] + [x];
      JoinSnoc(xs[1..], x);
    }
  }

  /** The number of commas in `s`. */
  function CommaCount(s: string): nat
  {
    if |s| == 0 then 0 else (if s[0] == ',' then 1 else 0) + CommaCount(s[1..])
  }

  /** Every piece of `s` between commas, the empty ones included (what
      `String.split(",", -1)` returns): n commas give n + 1 pieces. */
  function Fields(s: string): (r: seq<string>)
    ensures |r| >= 1
    ensures |r| == CommaCount(s) + 1
    ensures CommaFree(r)
    ensures ',' !in s ==> r == [s]
    ensures ',' in s <==> |r| >= 2
    decreases |s|
  {
    if |s| == 0 then [""]
    else if s[0] == ',' then [""] + Fields(s[1..])
    else
      var rest := Fields(s[1..]);
      assert s == [s[0]] + s[1..];
      [[s[0]] + rest[0]] + rest[1..]
  }

  /** A comma-free first piece followed by a comma is split off as one field. */
  lemma {:induction false} FieldsCons(x: string, rest: string)
    requires ',' !in x
    ensures Fields(x + "," + rest) == [x] + Fields(rest)
    decreases |x|
  {
    var s := x + "," + rest;
    if |x| == 0 {
      assert s == "," + rest;
      assert s[1..] == rest;
    } else {
      assert s[0] == x[0];
      assert s[1..] == x[1..] + "," + rest;
      FieldsCons(x[1..], rest);
      assert [x[0]] + x[1..] == x;
    }
  }

  /** Splitting a join of comma-free elements gives the elements back. */
  lemma {:induction false} FieldsOfJoin(xs: seq<string>)
    requires |xs| >= 1 && CommaFree(xs)
    ensures Fields(Join(xs)) == xs
  {
    if |xs| >= 2 {
      assert CommaFree(xs[1..]) by {
        forall i | 0 <= i < |xs[1..]| ensures ',' !in xs[1..][i] {
          assert xs[1..][i] == xs[i + 1];
        }
      }
      FieldsOfJoin(xs[1..]);
      FieldsCons(xs[0], Join(xs[1..]));
      assert [xs[0]] + xs[1..] == xs;
    }
  }

  /** A head followed by a non-empty tail joins with one comma between them. */
  lemma JoinCons(head: string, tail: seq<string>)
    requires |tail| >= 1
    ensures Join([head] + tail) == head + "," + Join(tail)
  {
    assert ([head] + tail)[1..] == tail;
  }

  /** A character put in front of the first piece goes in front of the join. */
  lemma JoinPrepend(c: char, xs: seq<string>)
    requires |xs| >= 1
    ensures Join([[c] + xs[0]] + xs[1..]) == [c] + Join(xs)
  {
    if |xs| >= 2 {
      JoinCons([c] + xs[0], xs[1..]);
      JoinCons(xs[0], xs[1..]);
      assert [xs[0]] + xs[1..] == xs;
      PrependAssoc(c, xs[0], Join(xs[1..]));
    }
  }

  lemma PrependAssoc(c: char, h: string, j: string)
    ensures ([c] + h) + "," + j == [c] + (h + "," + j)
  {
  }

  /** Joining the pieces of any string gives the string back. */
  lemma {:induction false} JoinOfFields(s: string)
    ensures Join(Fields(s)) == s
    decreases |s|
  {
    if |s| > 0 {
      JoinOfFields(s[1..]);
      assert s == [s[0]] + s[1..];
      if s[0] == ',' {
        JoinCons("", Fields(s[1..]));
      } else {
        JoinPrepend(s[0], Fields(s[1..]));
      }
    }
  }

  /** `xs` without its trailing empty strings: what `String.split` with limit 0
      discards. The result is a prefix of `xs`, everything cut off is empty, and
      the last element kept is not. */
  function TrimTrailingEmpty(xs: seq<string>): (r: seq<string>)
    ensures r <= xs
    ensures forall i :: |r| <= i < |xs| ==> xs[i] == ""
    ensures |r| > 0 ==> r[|r| - 1] != ""
    decreases |xs|
  {
    if |xs| > 0 && xs[|xs| - 1] == "" then
      var r := TrimTrailingEmpty(xs[..|xs| - 1]);
      assert forall i :: |r| <= i < |xs| - 1 ==> xs[..|xs| - 1][i] == xs[i];
      r
    else xs
  }

  /** `s.split(",")` in Java: a string without a comma is returned whole (so ""
      gives [""]); otherwise its pieces between commas, with trailing empty pieces
      removed (so "ABC," gives ["ABC"], ",ABC" gives ["", "ABC"] and "," gives []).
      The tokens are a prefix of the pieces, the pieces dropped are empty, and the
      last token is non-empty unless `s` has no comma. */
  function Split(s: string): (r: seq<string>)
    ensures CommaFree(r)
    ensures r <= Fields(s)
    ensures forall i :: |r| <= i < |Fields(s)| ==> Fields(s)[i] == ""
    ensures ',' in s && |r| > 0 ==> r[|r| - 1] != ""
    ensures ',' !in s ==> r == [s]
  {
    if ',' !in s then [s] else TrimTrailingEmpty(Fields(s))
  }

  /** Splitting the join of two or more comma-free elements gives the elements
      back, less the trailing empty ones. */
  lemma SplitOfJoin(xs: seq<string>)
    requires |xs| >= 2 && CommaFree(xs)
    ensures Split(Join(xs)) == TrimTrailingEmpty(xs)
  {
    FieldsOfJoin(xs);
  }

  /** A single comma-free symbol splits to itself, even the empty one. */
  lemma SplitOfSymbol(x: string)
    requires ',' !in x
    ensures Split(Join([x])) == [x]
  {
  }

  /** Every piece of `s` is empty exactly when `s` consists of commas only. */
  lemma {:induction false} FieldsAllEmpty(s: string)
    ensures (forall i :: 0 <= i < |Fields(s)| ==> Fields(s)[i] == "")
        <==> (forall j :: 0 <= j < |s| ==> s[j] == ',')
    decreases |s|
  {
    if |s| > 0 {
      FieldsAllEmpty(s[1..]);
      var tail := Fields(s[1..]);
      if s[0] == ',' {
        var f := Fields(s);
        assert f == [""] + tail;
        assert (forall i :: 0 <= i < |f| ==> f[i] == "") <==> (forall i :: 0 <= i < |tail| ==> tail[i] == "") by {
          if forall i :: 0 <= i < |tail| ==> tail[i] == "" {
            forall i | 0 <= i < |f| ensures f[i] == "" {
              if i > 0 { assert f[i] == tail[i - 1]; }
            }
          }
          if forall i :: 0 <= i < |f| ==> f[i] == "" {
            forall i | 0 <= i < |tail| ensures tail[i] == "" {
              assert f[i + 1] == tail[i];
            }
          }
        }
        assert (forall j :: 0 <= j < |s| ==> s[j] == ',') <==> (forall j :: 0 <= j < |s[1..]| ==> s[1..][j] == ',') by {
          if forall j :: 0 <= j < |s[1..]| ==> s[1..][j] == ',' {
            forall j | 0 <= j < |s| ensures s[j] == ',' {
              if j > 0 { assert s[j] == s[1..][j - 1]; }
            }
          }
        }
      } else {
        assert Fields(s)[0] == [s[0]] + tail[0];
        assert Fields(s)[0] != "";
      }
    }
  }

  /** `Split` yields no token at all exactly when `s` is a non-empty run of commas. */
  lemma SplitEmptyIff(s: string)
    ensures |Split(s)| == 0 <==> (|s| > 0 && forall j :: 0 <= j < |s| ==> s[j] == ',')
  {
    FieldsAllEmpty(s);
    if |s| > 0 && forall j :: 0 <= j < |s| ==> s[j] == ',' {
      assert s[0] == ',';
    }
  }

  /** A trailing comma after a non-empty comma-free symbol leaves one token. */
  lemma SplitTrailingComma(x: string)
    requires x != "" && ',' !in x
    ensures Split(x + ",") == [x]
  {
    assert Join([x, ""]) == x + ",";
    SplitOfJoin([x, ""]);
  }

  /** A leading comma before a non-empty comma-free symbol keeps an empty first token. */
  lemma SplitLeadingComma(x: string)
    requires x != "" && ',' !in x
    ensures Split("," + x) == ["", x]
  {
    assert Join(["", x]) == "" + "," + x == "," + x;
    SplitOfJoin(["", x]);
  }
}
