/** The key-matching rule of the easy-mode typing session and the per-character
    "typed correctly" flags that the session keeps beside the current word. */
module Matcher {
  import opened Wrappers

  /** The key name a browser reports for the character-deletion key. */
  const Backspace: string := "Backspace"

  /** `word[index]` as JavaScript evaluates it: a one-character string inside
      the word, `undefined` (None) outside it. */
  function CharAt(word: string, index: int): Option<string>
  {
    if 0 <= index < |word| then Some([word[index]]) else None
  }

  /** A key matches when its name is strictly equal to the expected character.
      Past the end of the word nothing matches, and the deletion key never does. */
  function Matches(key: string, word: string, index: int): (m: bool)
    ensures m <==> 0 <= index < |word| && key == [word[index]]
    ensures m ==> |key| == 1 && key != Backspace
  {
    CharAt(word, index) == Some(key)
  }

  /** `new Array(n).fill(null)`: n positions, none of them typed yet. */
  function Unset(n: nat): (f: seq<bool>)
    ensures |f| == n
    ensures forall i :: 0 <= i < n ==> !f[i]
  {
    seq(n, _ => false)
  }

  /** The number of positions marked as typed correctly. */
  function CountTyped(f: seq<bool>): nat
  {
    if f == [] then 0 else (if f[0] then 1 else 0) + CountTyped(f[1..])
  }

  /** The flags are set on exactly the first k positions. */
  ghost predicate TypedPrefix(f: seq<bool>, k: int)
  {
    0 <= k <= |f| && forall i :: 0 <= i < |f| ==> f[i] == (i < k)
  }

  /** Marking one untyped position adds exactly one to the count. */
  lemma {:induction false} CountTypedMark(f: seq<bool>, i: nat)
    requires i < |f| && !f[i]
    ensures CountTyped(f[i := true]) == CountTyped(f) + 1
  {
    if i == 0 {
      assert f[i := true][1..] == f[1..];
    } else {
      assert f[i := true][1..] == f[1..][i - 1 := true];
      CountTypedMark(f[1..], i - 1);
    }
  }

  /** Flags set on exactly the first k positions count k; in particular fresh
      flags count 0. */
  lemma {:induction false} CountTypedPrefix(f: seq<bool>, k: int)
    requires TypedPrefix(f, k)
    ensures CountTyped(f) == k
  {
    if f != [] {
      var rest := if k > 0 then k - 1 else 0;
      forall i | 0 <= i < |f[1..]|
        ensures f[1..][i] == (i < rest)
      {
        assert f[1..][i] == f[i + 1];
      }
      CountTypedPrefix(f[1..], rest);
    }
  }
}
