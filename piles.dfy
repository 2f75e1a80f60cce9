/** Piles of cards. A card is its unit kind, so every pile (deck, graveyard,
    hand, board) is a sequence of kinds; the top of a pile is its last element.
    This module holds the array operations the game applies to piles. */
module Piles {
  import opened Units

  /** The value `splice(..)[0]` produces: an element, or `undefined`. */
  datatype Option<T> = None | Some(value: T)

  /** The text of a pile as the log shows it: the labels joined by commas. */
  function Show(s: seq<Unit>): string
  {
    if s == [] then ""
    else if |s| == 1 then Name(s[0])
    else Name(s[0]) + "," + Show(s[1..])
  }

  /** `Array.prototype.indexOf`: the position of the first `x` in `s`, or -1
      when `s` holds no `x`. */
  function IndexOf(s: seq<Unit>, x: Unit): (i: int)
    ensures -1 <= i < |s|
    ensures i == -1 <==> x !in s
    ensures 0 <= i ==> s[i] == x && x !in s[..i]
  {
    if s == [] then -1
    else if s[0] == x then 0
    else
      var k := IndexOf(s[1..], x);
      if k == -1 then -1
      else
        assert s[..k + 1] == [s[0]] + s[1..][..k];
        k + 1
  }

  /** `s.splice(start, 1)` on an array holding `s`: the array left behind and
      the first element of the returned array. As in JavaScript, a negative
      `start` counts from the end of the array and a start past the end
      removes nothing. */
  function SpliceOne(s: seq<Unit>, start: int): (r: (seq<Unit>, Option<Unit>))
    ensures r.1 == None <==> s == [] || start >= |s|
    ensures r.1 == None ==> r.0 == s
    ensures r.1 != None ==> |r.0| == |s| - 1 && multiset(r.0) + multiset{r.1.value} == multiset(s)
  {
    var at := if start < 0 then (if |s| + start < 0 then 0 else |s| + start)
              else (if start > |s| then |s| else start);
    if at < |s| then
      assert s == s[..at] + [s[at]] + s[at + 1..];
      (s[..at] + s[at + 1..], Some(s[at]))
    else (s, None)
  }

  /** The pile left after taking away the first `x`, defined element by
      element: one card fewer, every other card kept in order. */
  function RemoveFirst(s: seq<Unit>, x: Unit): (r: seq<Unit>)
    requires x in s
    ensures |r| == |s| - 1
  {
    if s[0] == x then s[1..]
    else
      assert x in s[1..] by { assert s == [s[0]] + s[1..]; }
      [s[0]] + RemoveFirst(s[1..], x)
  }

  /** Removing the first `x` takes exactly one `x` out of the pile and keeps
      every other card. */
  lemma {:induction false} RemoveFirstCounts(s: seq<Unit>, x: Unit)
    requires x in s
    ensures multiset(RemoveFirst(s, x)) == multiset(s) - multiset{x}
  {
    assert s == [s[0]] + s[1..];
    if s[0] != x {
      RemoveFirstCounts(s[1..], x);
    }
  }

  /** Removing the first `x`, when it stands at position `i`, leaves the
      cards before and after position `i`. */
  lemma {:induction false} RemoveFirstAt(s: seq<Unit>, x: Unit, i: nat)
    requires i < |s| && s[i] == x && x !in s[..i]
    ensures RemoveFirst(s, x) == s[..i] + s[i + 1..]
  {
    if i == 0 {
      assert s[..0] + s[1..] == s[1..];
    } else {
      var t := s[1..];
      assert s[0] != x by { assert s[0] in s[..i]; }
      calc {
        RemoveFirst(s, x);
        [s[0]] + RemoveFirst(t, x);
        { assert t[..i - 1] == s[1..i]; RemoveFirstAt(t, x, i - 1); }
        [s[0]] + (t[..i - 1] + t[i..]);
        { assert s[..i] == [s[0]] + t[..i - 1]; assert s[i + 1..] == t[i..]; }
        s[..i] + s[i + 1..];
      }
    }
  }

  /** When the pile holds `x`, `splice(indexOf(x), 1)` takes out exactly the
      first `x` and hands it back. */
  lemma SpliceOnPresentIsRemoveFirst(s: seq<Unit>, x: Unit)
    requires x in s
    ensures SpliceOne(s, IndexOf(s, x)) == (RemoveFirst(s, x), Some(x))
  {
    RemoveFirstAt(s, x, IndexOf(s, x));
  }

  /** When the pile holds no `x`, `indexOf` yields -1 and `splice(-1, 1)`
      takes the LAST card instead, whatever its kind. */
  lemma SpliceOnMissingTakesLast(s: seq<Unit>, x: Unit)
    requires x !in s && s != []
    ensures SpliceOne(s, IndexOf(s, x)) == (s[..|s| - 1], Some(s[|s| - 1]))
    ensures s[|s| - 1] != x
  {
    assert IndexOf(s, x) == -1;
    assert s[..|s| - 1] + s[|s|..] == s[..|s| - 1];
  }

  /** A concrete instance: removing a horseman from a board holding one
      soldier destroys the soldier. */
  lemma SpliceOnMissingExample()
    ensures SpliceOne([Soldier], IndexOf([Soldier], Horseman)) == ([], Some(Soldier))
  {
    SpliceOnMissingTakesLast([Soldier], Horseman);
  }

  /** `Array(n).fill(x)`. */
  function Repeat(x: Unit, n: nat): (r: seq<Unit>)
    ensures |r| == n
    ensures forall i :: 0 <= i < n ==> r[i] == x
  {
    if n == 0 then [] else Repeat(x, n - 1) + [x]
  }

  /** `Array(n).fill(x)` holds `n` copies of `x` and nothing else. */
  lemma {:induction false} RepeatCounts(x: Unit, n: nat)
    ensures multiset(Repeat(x, n)) == multiset{}[x := n]
  {
    if n > 0 {
      var r := Repeat(x, n - 1);
      calc {
        multiset(Repeat(x, n));
        multiset(r + [x]);
        multiset(r) + multiset{x};
        { RepeatCounts(x, n - 1); }
        multiset{}[x := n - 1] + multiset{x};
        { assert multiset{x} == multiset{}[x := 1]; }
        multiset{}[x := n];
      }
    }
  }

  /** The starting deck: ten soldiers, then ten horsemen, then ten canons. */
  function InitialDeck(): seq<Unit>
  {
    Repeat(Soldier, 10) + Repeat(Horseman, 10) + Repeat(Canon, 10)
  }

  /** The starting deck has 30 cards, ten of each kind. */
  lemma InitialDeckCounts()
    ensures |InitialDeck()| == 30
    ensures multiset(InitialDeck()) == multiset{}[Soldier := 10][Horseman := 10][Canon := 10]
  {
    RepeatCounts(Soldier, 10);
    RepeatCounts(Horseman, 10);
    RepeatCounts(Canon, 10);
  }
}
