/** The handful of Python `str` operations the middleware relies on:
    `find`, `split` with a one-character separator, `replace` of one character,
    and `upper`. */
module Text {
  import opened Wrappers

  /** Index of the first `c` in `s` (Python's `s.find(c)`, absent instead of -1). */
  function IndexOf(s: string, c: char): (r: Option<nat>)
    ensures r.None? <==> c !in s
    ensures r.Some? ==> r.value < |s| && s[r.value] == c && c !in s[..r.value]
  {
    if |s| == 0 then None
    else if s[0] == c then Some(0)
    else
      match IndexOf(s[1..], c)
      case None => None
      case Some(k) =>
        assert s[..k + 1] == [s[0]] + s[1..][..k];
        Some(k + 1)
  }

  /** The longest prefix of `s` that contains no character of `stops`. */
  function TakeUntil(s: string, stops: set<char>): (r: string)
    ensures r <= s
    ensures forall i :: 0 <= i < |r| ==> r[i] !in stops
    ensures |r| < |s| ==> s[|r|] in stops
  {
    if |s| == 0 || s[0] in stops then ""
    else [s[0]] + TakeUntil(s[1..], stops)
  }

  /** Python's `s.split(sep)` for a one-character separator: the pieces between
      separators, always at least one of them (possibly empty). */
  function Split(s: string, sep: char): (parts: seq<string>)
    ensures |parts| >= 1
    ensures forall i :: 0 <= i < |parts| ==> sep !in parts[i]
    decreases |s|
  {
    match IndexOf(s, sep)
    case None => [s]
    case Some(k) => [s[..k]] + Split(s[k + 1..], sep)
  }

  /** Python's `sep.join(parts)`. */
  function Join(parts: seq<string>, sep: char): string
  {
    if |parts| == 0 then ""
    else if |parts| == 1 then parts[0]
    else parts[0] + [sep] + Join(parts[1..], sep)
  }

  /** Joining a piece in front of at least one other adds one separator. */
  lemma JoinCons(p: string, tail: seq<string>, sep: char)
    requires |tail| >= 1
    ensures Join([p] + tail, sep) == p + [sep] + Join(tail, sep)
  {
    assert ([p] + tail)[1..] == tail;
  }

  /** Splitting at a first separator at `k` puts the text before it first. */
  lemma SplitAt(s: string, sep: char, k: nat)
    requires k < |s| && s[k] == sep && sep !in s[..k]
    ensures Split(s, sep) == [s[..k]] + Split(s[k + 1..], sep)
  {
    var i := IndexOf(s, sep);
    assert forall j :: 0 <= j < k ==> s[j] != sep by {
      forall j | 0 <= j < k ensures s[j] != sep {
        assert s[..k][j] == s[j];
      }
    }
    assert forall j :: 0 <= j < i.value ==> s[j] != sep by {
      forall j | 0 <= j < i.value ensures s[j] != sep {
        assert s[..i.value][j] == s[j];
      }
    }
  }

  /** Joining the pieces of a split gives back the original text. */
  lemma {:induction false} JoinSplit(s: string, sep: char)
    ensures Join(Split(s, sep), sep) == s
    decreases |s|
  {
    if sep in s {
      var k := IndexOf(s, sep).value;
      var before, rest := s[..k], s[k + 1..];
      SplitAt(s, sep, k);
      JoinSplit(rest, sep);
      JoinCons(before, Split(rest, sep), sep);
      assert s == before + [sep] + rest;
    }
  }

  /** Splitting a join of separator-free pieces gives back the pieces. */
  lemma {:induction false} SplitJoin(parts: seq<string>, sep: char)
    requires |parts| >= 1
    requires forall i :: 0 <= i < |parts| ==> sep !in parts[i]
    ensures Split(Join(parts, sep), sep) == parts
    decreases |parts|
  {
    if |parts| == 1 {
      assert IndexOf(parts[0], sep).None?;
    } else {
      var head, tail := parts[0], Join(parts[1..], sep);
      var s := head + [sep] + tail;
      assert s[..|head|] == head;
      assert s[|head| + 1..] == tail;
      SplitAt(s, sep, |head|);
      SplitJoin(parts[1..], sep);
      assert parts == [head] + parts[1..];
    }
  }

  /** The first piece is the text before the first separator. */
  lemma {:induction false} SplitHead(s: string, sep: char)
    ensures Split(s, sep)[0] == TakeUntil(s, {sep})
  {
    var t := TakeUntil(s, {sep});
    match IndexOf(s, sep)
    case None =>
    case Some(k) =>
      assert forall j :: 0 <= j < k ==> s[j] != sep by {
        forall j | 0 <= j < k ensures s[j] != sep {
          assert s[..k][j] == s[j];
        }
      }
      assert forall j :: 0 <= j < |t| ==> s[j] != sep by {
        forall j | 0 <= j < |t| ensures s[j] != sep {
          assert t[j] == s[j];
        }
      }
      assert |t| == k;
  }

  /** There is more than one piece exactly when the separator occurs. */
  lemma SplitMany(s: string, sep: char)
    ensures |Split(s, sep)| > 1 <==> sep in s
  {
    match IndexOf(s, sep)
    case None =>
    case Some(k) =>
  }

  /** When the separator occurs, the second piece is the text after the first
      separator, up to the next one. */
  lemma {:induction false} SplitSecond(s: string, sep: char)
    requires sep in s
    ensures |Split(s, sep)| > 1
    ensures Split(s, sep)[1] == TakeUntil(s[|TakeUntil(s, {sep})| + 1..], {sep})
  {
    SplitMany(s, sep);
    SplitHead(s, sep);
    var k := IndexOf(s, sep).value;
    var rest := s[k + 1..];
    assert Split(s, sep) == [s[..k]] + Split(rest, sep);
    SplitHead(rest, sep);
  }

  /** Cutting at `a` and then at `b` is the same as cutting at either. */
  lemma {:induction false} TakeUntilTwice(s: string, a: set<char>, b: set<char>)
    ensures TakeUntil(TakeUntil(s, a), b) == TakeUntil(s, a + b)
    decreases |s|
  {
    if |s| == 0 || s[0] in a {
    } else {
      var t := TakeUntil(s[1..], a);
      assert TakeUntil(s, a) == [s[0]] + t;
      assert ([s[0]] + t)[1..] == t;
      TakeUntilTwice(s[1..], a, b);
    }
  }

  /** Cutting a text whose first stop follows `a` gives back `a`. */
  lemma {:induction false} TakeUntilConcat(a: string, b: string, stops: set<char>)
    requires forall i :: 0 <= i < |a| ==> a[i] !in stops
    requires |b| > 0 && b[0] in stops
    ensures TakeUntil(a + b, stops) == a
    decreases |a|
  {
    if |a| > 0 {
      assert (a + b)[1..] == a[1..] + b;
      TakeUntilConcat(a[1..], b, stops);
      assert a == [a[0]] + a[1..];
    }
  }

  /** A text without stops is kept whole. */
  lemma {:induction false} TakeUntilWhole(s: string, stops: set<char>)
    requires forall i :: 0 <= i < |s| ==> s[i] !in stops
    ensures TakeUntil(s, stops) == s
    decreases |s|
  {
    if |s| > 0 {
      TakeUntilWhole(s[1..], stops);
      assert s == [s[0]] + s[1..];
    }
  }

  /** Python's `c.upper()` restricted to ASCII: `a`..`z` become `A`..`Z`. */
  function UpperChar(c: char): char
  {
    if 'a' <= c <= 'z' then (c as int - 32) as char else c
  }

  /** Python's `s.upper()` on ASCII text. */
  function Upper(s: string): (r: string)
    ensures |r| == |s|
    ensures forall i :: 0 <= i < |s| ==> r[i] == UpperChar(s[i])
  {
    seq(|s|, i requires 0 <= i < |s| => UpperChar(s[i]))
  }

  /** Python's `s.replace(from, to)` for one-character `from` and `to`. */
  function ReplaceChar(s: string, from: char, to: char): (r: string)
    ensures |r| == |s|
    ensures forall i :: 0 <= i < |s| ==> r[i] == (if s[i] == from then to else s[i])
  {
    seq(|s|, i requires 0 <= i < |s| => if s[i] == from then to else s[i])
  }
}
