/**
 * `str::split(' ')` and `[&str]::join(" ")` as used by the excerpt
 * computation in src/models/post.rs. The separator is the single character
 * `' '`: runs of spaces give empty pieces and no other whitespace separates.
 */
module Words {

  const Space: char := ' '

  /** Index of the first occurrence of `c` in `s`. */
  function IndexOf(s: string, c: char): (i: nat)
    requires c in s
    ensures i < |s| && s[i] == c && c !in s[..i]
  {
    if s[0] == c then 0 else 1 + IndexOf(s[1..], c)
  }

  /** `s.split(' ')`: always at least one piece, and no piece contains the separator. */
  function Split(s: string): (pieces: seq<string>)
    ensures |pieces| >= 1
    ensures forall k :: 0 <= k < |pieces| ==> Space !in pieces[k]
    decreases |s|
  {
    if Space !in s then [s]
    else
      var i := IndexOf(s, Space);
      [s[..i]] + Split(s[i + 1..])
  }

  /** `pieces.join(" ")`: the first piece, then each further one after a single separator. */
  function Join(pieces: seq<string>): (s: string)
    ensures |pieces| == 0 ==> s == ""
    ensures |pieces| >= 1 ==> pieces[0] <= s
    ensures |pieces| >= 2 ==> |s| > |pieces[0]| && s[|pieces[0]|] == Space
  {
    if |pieces| == 0 then ""
    else if |pieces| == 1 then pieces[0]
    else pieces[0] + [Space] + Join(pieces[1..])
  }

  /** Iterator `take(n)`: the first `n` items, or all of them when there are fewer. */
  function Take<T>(xs: seq<T>, n: nat): (ys: seq<T>)
    ensures ys <= xs && |ys| == if |xs| <= n then |xs| else n
  {
    if |xs| <= n then xs else xs[..n]
  }

  /** Joining the pieces of a split gives back the original string. */
  lemma {:induction false} JoinSplit(s: string)
    ensures Join(Split(s)) == s
    decreases |s|
  {
    if Space in s {
      var i := IndexOf(s, Space);
      var rest := s[i + 1..];
      JoinSplit(rest);
      assert Split(s) == [s[..i]] + Split(rest);
      assert s == s[..i] + [Space] + rest;
    }
  }

  /** Splitting a join of separator-free pieces gives back the pieces. */
  lemma {:induction false} SplitJoin(pieces: seq<string>)
    requires |pieces| >= 1
    requires forall k :: 0 <= k < |pieces| ==> Space !in pieces[k]
    ensures Split(Join(pieces)) == pieces
  {
    if |pieces| > 1 {
      var tail := pieces[1..];
      SplitJoin(tail);
      var s := Join(pieces);
      assert s == pieces[0] + [Space] + Join(tail);
      var i := |pieces[0]|;
      assert s[i] == Space;
      assert s[..i] == pieces[0];
      assert IndexOf(s, Space) == i by {
        IndexOfFirst(s, Space, i);
      }
      assert s[i + 1..] == Join(tail);
    } else {
      assert Join(pieces) == pieces[0];
    }
  }

  lemma IndexOfFirst(s: string, c: char, i: nat)
    requires i < |s| && s[i] == c && c !in s[..i]
    ensures IndexOf(s, c) == i
  {
  }

  /** Joining a prefix of the pieces gives a prefix of the joined string. */
  lemma {:induction false} JoinPrefix(pieces: seq<string>, n: nat)
    requires n <= |pieces|
    ensures Join(pieces[..n]) <= Join(pieces)
  {
    if n == 0 {
    } else if n == |pieces| {
      assert pieces[..n] == pieces;
    } else {
      assert |pieces| >= 2;
      if n == 1 {
        assert pieces[..1] == [pieces[0]];
      } else {
        JoinPrefix(pieces[1..], n - 1);
        assert pieces[..n][1..] == pieces[1..][..n - 1];
        assert Join(pieces[..n]) == pieces[0] + [Space] + Join(pieces[1..][..n - 1]);
      }
    }
  }
}
