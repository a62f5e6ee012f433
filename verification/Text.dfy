/** The string operations the storage adapter and the memcached client rely on. */
module Text {
  /** strings.Split with a one-character separator: always at least one part. */
  function Split(s: string, sep: char): (parts: seq<string>)
    ensures |parts| == Count(s, sep) + 1
  {
    if s == "" then [""]
    else
      var rest := Split(s[1..], sep);
      if s[0] == sep then [""] + rest else [[s[0]] + rest[0]] + rest[1..]
  }

  function Join(parts: seq<string>, sep: char): string {
    if parts == [] then ""
    else if |parts| == 1 then parts[0]
    else parts[0] + [sep] + Join(parts[1..], sep)
  }

  function Count(s: string, c: char): nat {
    if s == "" then 0 else (if s[0] == c then 1 else 0) + Count(s[1..], c)
  }

  /** strings.Contains */
  predicate Contains(s: string, sub: string) {
    sub <= s || (s != "" && Contains(s[1..], sub))
  }

  predicate At(s: string, sub: string, i: nat) {
    i + |sub| <= |s| && s[i..i + |sub|] == sub
  }

  lemma {:induction false} ContainsMeans(s: string, sub: string)
    ensures Contains(s, sub) <==> exists i: nat :: At(s, sub, i)
  {
    if sub <= s {
      assert At(s, sub, 0);
    } else if s != "" {
      ContainsMeans(s[1..], sub);
      if Contains(s[1..], sub) {
        var j: nat :| At(s[1..], sub, j);
        assert s[1..][j..j + |sub|] == s[j + 1..j + 1 + |sub|];
        assert At(s, sub, j + 1);
      }
      forall i: nat | At(s, sub, i)
        ensures Contains(s, sub)
      {
        assert i != 0;
        assert s[1..][i - 1..i - 1 + |sub|] == s[i..i + |sub|];
        assert At(s[1..], sub, i - 1);
      }
    }
  }

  /** Splitting loses nothing. */
  lemma {:induction false} JoinOfSplit(s: string, sep: char)
    ensures Join(Split(s, sep), sep) == s
  {
    if s != "" {
      JoinOfSplit(s[1..], sep);
      var rest := Split(s[1..], sep);
      if s[0] == sep {
        assert Split(s, sep)[1..] == rest;
      } else {
        var parts := Split(s, sep);
        assert parts[1..] == rest[1..];
        assert s == [s[0]] + s[1..];
        if |rest| > 1 {
          assert Join(parts, sep) == [s[0]] + (rest[0] + [sep] + Join(rest[1..], sep));
        }
      }
    }
  }

  /** The parts are exactly the separator-free strings that rejoin to the text. */
  lemma {:induction false} SplitOfJoin(parts: seq<string>, sep: char)
    requires parts != [] && forall i :: 0 <= i < |parts| ==> sep !in parts[i]
    ensures Split(Join(parts, sep), sep) == parts
  {
    var head := parts[0];
    if |parts| == 1 {
      NoSeparator(head, sep);
    } else {
      SplitOfJoin(parts[1..], sep);
      SplitAtFirst(head, Join(parts[1..], sep), sep);
      assert parts == [head] + parts[1..];
    }
  }

  lemma {:induction false} NoSeparator(s: string, sep: char)
    requires sep !in s
    ensures Split(s, sep) == [s] && Count(s, sep) == 0
  {
    if s != "" {
      NoSeparator(s[1..], sep);
      assert s == [s[0]] + s[1..];
    }
  }

  lemma {:induction false} SplitAtFirst(head: string, tail: string, sep: char)
    requires sep !in head
    ensures Split(head + [sep] + tail, sep) == [head] + Split(tail, sep)
  {
    var s := head + [sep] + tail;
    if head == "" {
      assert s[1..] == tail;
    } else {
      assert s[1..] == head[1..] + [sep] + tail;
      SplitAtFirst(head[1..], tail, sep);
      assert head == [head[0]] + head[1..];
    }
  }

  /** Cutting a text at its first separator. */
  lemma {:induction false} FirstSeparator(s: string, sep: char) returns (head: string, tail: string)
    requires Count(s, sep) > 0
    ensures sep !in head && s == head + [sep] + tail && Count(tail, sep) == Count(s, sep) - 1
  {
    if s[0] == sep {
      head, tail := "", s[1..];
    } else {
      var h, t := FirstSeparator(s[1..], sep);
      head, tail := [s[0]] + h, t;
      assert s == [s[0]] + s[1..];
    }
  }

  lemma {:induction false} CountOfJoin(a: string, b: string, c: char)
    ensures Count(a + b, c) == Count(a, c) + Count(b, c)
  {
    if a == "" {
      assert a + b == b;
    } else {
      assert (a + b)[1..] == a[1..] + b;
      CountOfJoin(a[1..], b, c);
    }
  }

  lemma {:induction false} CountZero(s: string, c: char)
    ensures Count(s, c) == 0 <==> c !in s
  {
    if s != "" {
      CountZero(s[1..], c);
      assert s == [s[0]] + s[1..];
    }
  }
}
