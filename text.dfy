/**
 * Character classes and the string operations the controller uses: joining with a
 * separator (Collectors.joining), splitting at a separator (its inverse, used to state
 * round trips), newline-terminated lines (the exec script), and the concatenation of
 * a sequence of sequences (lists appended to one after another).
 */
module Text {

  predicate IsDigit(c: char) { '0' <= c <= '9' }

  predicate IsAlphanumeric(c: char) { IsDigit(c) || 'a' <= c <= 'z' || 'A' <= c <= 'Z' }

  /** Only the characters RandomStringUtils.randomNumeric draws from. */
  predicate IsNumeric(s: string) { forall i :: 0 <= i < |s| ==> IsDigit(s[i]) }

  /** Only the characters RandomStringUtils.randomAlphanumeric draws from. */
  predicate IsAlphanumericString(s: string) { forall i :: 0 <= i < |s| ==> IsAlphanumeric(s[i]) }

  /** A value of RandomStringUtils.randomNumeric(3). */
  type Discriminator = s: string | |s| == 3 && IsNumeric(s) witness "000"

  /** A value of RandomStringUtils.randomAlphanumeric(10). */
  type Password = s: string | |s| == 10 && IsAlphanumericString(s) witness "0000000000"

  /** The pieces separated by one `sep` each, as Collectors.joining builds them. */
  function Join(xs: seq<string>, sep: char): string
  {
    if |xs| == 0 then ""
    else if |xs| == 1 then xs[0]
    else xs[0] + [sep] + Join(xs[1..], sep)
  }

  /** The pieces between the occurrences of `sep`: always one more piece than occurrences. */
  function Split(s: string, sep: char): (r: seq<string>)
    ensures |r| >= 1
  {
    if |s| == 0 then [""]
    else
      var rest := Split(s[1..], sep);
      if s[0] == sep then [""] + rest
      else [[s[0]] + rest[0]] + rest[1..]
  }

  predicate NoneContains(xs: seq<string>, sep: char)
  {
    forall i :: 0 <= i < |xs| ==> sep !in xs[i]
  }

  lemma {:induction false} SplitWithoutSeparator(a: string, sep: char)
    requires sep !in a
    ensures Split(a, sep) == [a]
  {
    if |a| > 0 {
      SplitWithoutSeparator(a[1..], sep);
      assert [a[0]] + a[1..] == a;
    }
  }

  lemma {:induction false} SplitAtFirstSeparator(a: string, b: string, sep: char)
    requires sep !in a
    ensures Split(a + [sep] + b, sep) == [a] + Split(b, sep)
  {
    var s := a + [sep] + b;
    if |a| == 0 {
      assert s[1..] == b;
    } else {
      assert s[1..] == a[1..] + [sep] + b;
      SplitAtFirstSeparator(a[1..], b, sep);
      assert [a[0]] + a[1..] == a;
    }
  }

  /** Splitting undoes joining when no piece contains the separator. */
  lemma {:induction false} SplitJoin(xs: seq<string>, sep: char)
    requires |xs| >= 1 && NoneContains(xs, sep)
    ensures Split(Join(xs, sep), sep) == xs
  {
    assert sep !in xs[0];
    if |xs| == 1 {
      SplitWithoutSeparator(xs[0], sep);
    } else {
      SplitJoin(xs[1..], sep);
      SplitAtFirstSeparator(xs[0], Join(xs[1..], sep), sep);
      assert [xs[0]] + xs[1..] == xs;
    }
  }

  /** Each string followed by a newline, in order. */
  function Lines(xs: seq<string>): string
  {
    if |xs| == 0 then "" else xs[0] + "\n" + Lines(xs[1..])
  }

  lemma {:induction false} LinesSnoc(xs: seq<string>, x: string)
    ensures Lines(xs + [x]) == Lines(xs) + x + "\n"
  {
    if |xs| == 0 {
      assert xs + [x] == [x];
    } else {
      assert (xs + [x])[1..] == xs[1..] + [x];
      LinesSnoc(xs[1..], x);
    }
  }

  /** Newline-terminated lines followed by a last piece are those pieces joined by newlines. */
  lemma {:induction false} LinesJoin(xs: seq<string>, last: string)
    ensures Lines(xs) + last == Join(xs + [last], '\n')
  {
    if |xs| == 0 {
      assert xs + [last] == [last];
    } else {
      assert (xs + [last])[1..] == xs[1..] + [last];
      LinesJoin(xs[1..], last);
    }
  }

  /** Total length of the strings, each counted with one terminator. */
  function TerminatedLength(xs: seq<string>): nat
  {
    if |xs| == 0 then 0 else |xs[0]| + 1 + TerminatedLength(xs[1..])
  }

  lemma {:induction false} LinesLength(xs: seq<string>)
    ensures |Lines(xs)| == TerminatedLength(xs)
  {
    if |xs| > 0 {
      LinesLength(xs[1..]);
    }
  }

  /** A join starts with its first piece. */
  lemma JoinStartsWithFirst(xs: seq<string>, sep: char)
    requires |xs| > 0
    ensures |Join(xs, sep)| >= |xs[0]| && Join(xs, sep)[..|xs[0]|] == xs[0]
  {
  }

  /** The sequences one after another. */
  function Flatten<T>(xss: seq<seq<T>>): seq<T>
  {
    if |xss| == 0 then [] else Flatten(xss[..|xss| - 1]) + xss[|xss| - 1]
  }

  lemma FlattenSnoc<T>(xss: seq<seq<T>>, xs: seq<T>)
    ensures Flatten(xss + [xs]) == Flatten(xss) + xs
  {
    assert (xss + [xs])[..|xss|] == xss;
  }

  lemma {:induction false} FlattenAppend<T>(a: seq<seq<T>>, b: seq<seq<T>>)
    ensures Flatten(a + b) == Flatten(a) + Flatten(b)
  {
    if |b| == 0 {
      assert a + b == a;
      assert Flatten(b) == [];
    } else {
      var init, last := b[..|b| - 1], b[|b| - 1];
      assert b == init + [last];
      assert a + b == (a + init) + [last];
      FlattenAppend(a, init);
      FlattenSnoc(a + init, last);
      FlattenSnoc(init, last);
    }
  }

  lemma {:induction false} FlattenMember<T>(xss: seq<seq<T>>, x: T)
    ensures x in Flatten(xss) <==> exists i :: 0 <= i < |xss| && x in xss[i]
  {
    if |xss| > 0 {
      var init, last := xss[..|xss| - 1], xss[|xss| - 1];
      FlattenMember(init, x);
      assert xss == init + [last];
      if x in Flatten(xss) && x !in last {
        var i :| 0 <= i < |init| && x in init[i];
        assert xss[i] == init[i];
      }
      if x !in last && exists i :: 0 <= i < |xss| && x in xss[i] {
        var i :| 0 <= i < |xss| && x in xss[i];
        assert i < |init| && init[i] == xss[i];
      }
    }
  }

  lemma FlattenMembers<T>(xss: seq<seq<T>>)
    ensures forall x :: x in Flatten(xss) <==> exists i :: 0 <= i < |xss| && x in xss[i]
  {
    forall x ensures x in Flatten(xss) <==> exists i :: 0 <= i < |xss| && x in xss[i] {
      FlattenMember(xss, x);
    }
  }
}
