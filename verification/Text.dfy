/** Splitting and joining strings on a one-character separator, as Rust's `split` and `splitn` do. */
module Text {

  function IndexOf(s: string, sep: char): (i: nat)
    requires sep in s
    ensures i < |s| && s[i] == sep && sep !in s[..i]
  {
    if s[0] == sep then 0
    else
      var j := IndexOf(s[1..], sep);
      assert s[..j + 1] == [s[0]] + s[1..][..j];
      j + 1
  }

  function Join(parts: seq<string>, sep: char): string
    requires parts != []
  {
    if |parts| == 1 then parts[0] else parts[0] + [sep] + Join(parts[1..], sep)
  }

  /** `str::split`: at least one part, none of which holds the separator. */
  function Split(s: string, sep: char): (parts: seq<string>)
    ensures parts != []
    ensures forall p :: p in parts ==> sep !in p
    decreases |s|
  {
    if sep !in s then [s]
    else
      var i := IndexOf(s, sep);
      [s[..i]] + Split(s[i + 1..], sep)
  }

  /** `str::splitn`: at most `n` parts; only the last of exactly `n` may hold the separator. */
  function SplitN(s: string, n: nat, sep: char): (parts: seq<string>)
    requires n >= 1
    ensures 1 <= |parts| <= n
    ensures forall k :: 0 <= k < |parts| && k < n - 1 ==> sep !in parts[k]
    decreases n
  {
    if n == 1 || sep !in s then [s]
    else
      var i := IndexOf(s, sep);
      [s[..i]] + SplitN(s[i + 1..], n - 1, sep)
  }

  lemma FirstSeparator(a: string, sep: char, b: string)
    requires sep !in a
    ensures sep in a + [sep] + b && IndexOf(a + [sep] + b, sep) == |a|
    ensures (a + [sep] + b)[..|a|] == a && (a + [sep] + b)[|a| + 1..] == b
  {
    var s := a + [sep] + b;
    assert s[|a|] == sep;
    var i := IndexOf(s, sep);
    assert forall k :: 0 <= k < |a| ==> s[k] == a[k];
    assert forall k :: 0 <= k < i ==> s[..i][k] == s[k];
  }

  lemma SplitFront(a: string, sep: char, b: string)
    requires sep !in a
    ensures Split(a + [sep] + b, sep) == [a] + Split(b, sep)
  {
    FirstSeparator(a, sep, b);
  }

  lemma SplitNFront(a: string, n: nat, sep: char, b: string)
    requires sep !in a && n > 1
    ensures SplitN(a + [sep] + b, n, sep) == [a] + SplitN(b, n - 1, sep)
  {
    FirstSeparator(a, sep, b);
  }

  /** `Split` is the inverse of `Join` on separator-free parts. */
  lemma {:induction false} SplitJoin(parts: seq<string>, sep: char)
    requires parts != [] && forall p :: p in parts ==> sep !in p
    ensures Split(Join(parts, sep), sep) == parts
  {
    if |parts| > 1 {
      SplitFront(parts[0], sep, Join(parts[1..], sep));
      SplitJoin(parts[1..], sep);
      assert parts == [parts[0]] + parts[1..];
    }
  }

  /** Every string is the join of its parts. */
  lemma {:induction false} JoinSplit(s: string, sep: char)
    ensures Join(Split(s, sep), sep) == s
    decreases |s|
  {
    if sep in s {
      var i := IndexOf(s, sep);
      JoinSplit(s[i + 1..], sep);
      var parts := Split(s, sep);
      assert parts[1..] == Split(s[i + 1..], sep);
      assert s == s[..i] + [sep] + s[i + 1..];
    }
  }

  /** Splitting distributes over a separator wherever it stands. */
  lemma {:induction false} SplitAppend(a: string, sep: char, b: string)
    ensures Split(a + [sep] + b, sep) == Split(a, sep) + Split(b, sep)
    decreases |a|
  {
    if sep in a {
      var i := IndexOf(a, sep);
      var head, tail := a[..i], a[i + 1..];
      calc {
        Split(a + [sep] + b, sep);
        { assert a + [sep] + b == head + [sep] + (tail + [sep] + b); }
        Split(head + [sep] + (tail + [sep] + b), sep);
        { SplitFront(head, sep, tail + [sep] + b); }
        [head] + Split(tail + [sep] + b, sep);
        { SplitAppend(tail, sep, b); }
        [head] + (Split(tail, sep) + Split(b, sep));
        { assert Split(a, sep) == [head] + Split(tail, sep); }
        Split(a, sep) + Split(b, sep);
      }
    } else {
      SplitFront(a, sep, b);
    }
  }

  function Resize<T>(s: seq<T>, n: nat, fill: T): (r: seq<T>)
    ensures |r| == n
    ensures forall k :: 0 <= k < n ==> r[k] == if k < |s| then s[k] else fill
  {
    seq(n, k requires 0 <= k < n => if k < |s| then s[k] else fill)
  }

  function JoinOrEmpty(parts: seq<string>, sep: char): string { if parts == [] then "" else Join(parts, sep) }
}
