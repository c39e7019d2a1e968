/**
 * The JavaScript string operations the extractor applies to a procedure's
 * dotted key: `replace(/<c>/g, <d>)`, `split(<c>)` and `join(<c>)`, all with
 * a one-character separator.
 */
module Paths {

  /** Every occurrence of `from` in `s` replaced by `to` (a global, one-character `replace`). */
  function ReplaceAll(s: string, from: char, to: char): (r: string)
    ensures |r| == |s|
    ensures forall i :: 0 <= i < |s| ==> r[i] == (if s[i] == from then to else s[i])
    ensures from != to ==> from !in r
  {
    if |s| == 0 then ""
    else [if s[0] == from then to else s[0]] + ReplaceAll(s[1..], from, to)
  }

  /**
   * `s.split(sep)`: the maximal runs of `s` between separators, in order.
   * As in JavaScript, the empty string splits into one empty part and two
   * adjacent separators give an empty part between them.
   */
  function Split(s: string, sep: char): (parts: seq<string>)
    ensures |parts| == multiset(s)[sep] + 1
    ensures forall i :: 0 <= i < |parts| ==> sep !in parts[i]
  {
    if |s| == 0 then [""]
    else
      var rest := Split(s[1..], sep);
      assert s == [s[0]] + s[1..];
      if s[0] == sep then [""] + rest
      else [[s[0]] + rest[0]] + rest[1..]
  }

  /** `parts.join(sep)`: the parts with one separator between neighbours. */
  function Join(parts: seq<string>, sep: char): string
  {
    if |parts| == 0 then ""
    else if |parts| == 1 then parts[0]
    else parts[0] + [sep] + Join(parts[1..], sep)
  }

  /** Splitting on `sep` and gluing back with `glue` replaces every `sep` by `glue`. */
  lemma {:induction false} JoinSplitReplaces(s: string, sep: char, glue: char)
    ensures Join(Split(s, sep), glue) == ReplaceAll(s, sep, glue)
  {
    if |s| == 0 {
      assert Split(s, sep) == [""];
    } else {
      JoinSplitReplaces(s[1..], sep, glue);
      JoinSplitStep(s, sep, glue);
    }
  }

  /** The inductive step of `JoinSplitReplaces`: one more leading character. */
  lemma JoinSplitStep(s: string, sep: char, glue: char)
    requires |s| > 0
    requires Join(Split(s[1..], sep), glue) == ReplaceAll(s[1..], sep, glue)
    ensures Join(Split(s, sep), glue) == ReplaceAll(s, sep, glue)
  {
    var rest := Split(s[1..], sep);
    assert ReplaceAll(s, sep, glue) == [if s[0] == sep then glue else s[0]] + ReplaceAll(s[1..], sep, glue);
    if s[0] == sep {
      LeadingSeparator(s, sep, glue, rest);
    } else {
      LeadingOther(s, sep, glue, rest);
    }
  }

  /** A leading separator splits off an empty first part, which the join turns into a leading `glue`. */
  lemma LeadingSeparator(s: string, sep: char, glue: char, rest: seq<string>)
    requires |s| > 0 && s[0] == sep && rest == Split(s[1..], sep)
    ensures Join(Split(s, sep), glue) == [glue] + Join(rest, glue)
  {
    assert Split(s, sep) == [""] + rest;
    JoinCons("", rest, glue);
  }

  /** Any other leading character starts the first part, and so the join. */
  lemma LeadingOther(s: string, sep: char, glue: char, rest: seq<string>)
    requires |s| > 0 && s[0] != sep && rest == Split(s[1..], sep)
    ensures Join(Split(s, sep), glue) == [s[0]] + Join(rest, glue)
  {
    assert Split(s, sep) == [[s[0]] + rest[0]] + rest[1..];
    JoinGrowsFirst(s[0], rest, glue);
  }

  /** Putting a character in front of the first part puts it in front of the join. */
  lemma JoinGrowsFirst(c: char, parts: seq<string>, glue: char)
    requires |parts| >= 1
    ensures Join([[c] + parts[0]] + parts[1..], glue) == [c] + Join(parts, glue)
  {
    if |parts| >= 2 {
      JoinCons(parts[0], parts[1..], glue);
      assert [parts[0]] + parts[1..] == parts;
      JoinCons([c] + parts[0], parts[1..], glue);
    }
  }

  /** Joining a non-empty tail puts one separator after the first part. */
  lemma JoinCons(head: string, tail: seq<string>, sep: char)
    requires |tail| >= 1
    ensures Join([head] + tail, sep) == head + [sep] + Join(tail, sep)
  {
    assert ([head] + tail)[1..] == tail;
  }

  /** Round trip one way: joining the parts of a split with the same separator gives back the string. */
  lemma JoinSplit(s: string, sep: char)
    ensures Join(Split(s, sep), sep) == s
  {
    JoinSplitReplaces(s, sep, sep);
    assert ReplaceAll(s, sep, sep) == s;
  }

  /** A string free of the separator splits into itself alone. */
  lemma {:induction false} SplitWithoutSeparator(a: string, sep: char)
    requires sep !in a
    ensures Split(a, sep) == [a]
  {
    if |a| > 0 {
      assert sep !in a[1..] by {
        forall i | 0 <= i < |a[1..]| ensures a[1..][i] != sep {
          assert a[1..][i] == a[i + 1];
        }
      }
      SplitWithoutSeparator(a[1..], sep);
      assert [a[0]] + a[1..] == a;
    }
  }

  /** A separator-free first part splits off as the first element. */
  lemma {:induction false} SplitFirstPart(a: string, t: string, sep: char)
    requires sep !in a
    ensures Split(a + [sep] + t, sep) == [a] + Split(t, sep)
  {
    var s := a + [sep] + t;
    if |a| == 0 {
      assert s[1..] == t;
    } else {
      assert sep !in a[1..] by {
        forall i | 0 <= i < |a[1..]| ensures a[1..][i] != sep {
          assert a[1..][i] == a[i + 1];
        }
      }
      assert s[0] == a[0];
      assert s[1..] == a[1..] + [sep] + t;
      SplitFirstPart(a[1..], t, sep);
      assert [a[0]] + a[1..] == a;
    }
  }

  /** Round trip the other way: separator-free parts survive a join followed by a split. */
  lemma {:induction false} SplitJoin(parts: seq<string>, sep: char)
    requires |parts| >= 1
    requires forall i :: 0 <= i < |parts| ==> sep !in parts[i]
    ensures Split(Join(parts, sep), sep) == parts
  {
    if |parts| == 1 {
      SplitWithoutSeparator(parts[0], sep);
    } else {
      SplitJoin(parts[1..], sep);
      SplitFirstPart(parts[0], Join(parts[1..], sep), sep);
      assert [parts[0]] + parts[1..] == parts;
    }
  }
}
