/** Stable sorting of sequences by a total preorder. */
module Sorting {
  ghost predicate TotalPreorder<T(!new)>(le: (T, T) -> bool) {
    && (forall x, y :: le(x, y) || le(y, x))
    && (forall x, y, z :: le(x, y) && le(y, z) ==> le(x, z))
  }

  ghost predicate Sorted<T>(le: (T, T) -> bool, s: seq<T>) {
    forall i, j :: 0 <= i < j < |s| ==> le(s[i], s[j])
  }

  /** `x` occurs in `s` somewhere before `y`. */
  ghost predicate Precedes<T>(s: seq<T>, x: T, y: T) {
    exists i, j :: 0 <= i < j < |s| && s[i] == x && s[j] == y
  }

  /** Puts `x` in front of everything it may stand in front of. */
  function Insert<T>(le: (T, T) -> bool, x: T, s: seq<T>): seq<T> {
    if s == [] then [x]
    else if le(x, s[0]) then [x] + s
    else [s[0]] + Insert(le, x, s[1..])
  }

  function Sort<T>(le: (T, T) -> bool, s: seq<T>): seq<T> {
    if s == [] then [] else Insert(le, s[0], Sort(le, s[1..]))
  }

  lemma {:induction false} InsertContents<T>(le: (T, T) -> bool, x: T, s: seq<T>)
    ensures multiset(Insert(le, x, s)) == multiset(s) + multiset{x}
  {
    if s != [] && !le(x, s[0]) {
      InsertContents(le, x, s[1..]);
      assert s == [s[0]] + s[1..];
    }
  }

  lemma {:induction false} InsertKeepsSorted<T(!new)>(le: (T, T) -> bool, x: T, s: seq<T>)
    requires TotalPreorder(le) && Sorted(le, s)
    ensures Sorted(le, Insert(le, x, s))
  {
    if s != [] {
      if le(x, s[0]) {
        var r := [x] + s;
        forall i, j | 0 <= i < j < |r| ensures le(r[i], r[j]) {
          if i == 0 { assert le(s[0], s[j - 1]) || j == 1; }
        }
      } else {
        var t := Insert(le, x, s[1..]);
        InsertKeepsSorted(le, x, s[1..]);
        InsertContents(le, x, s[1..]);
        forall j | 0 <= j < |t| ensures le(s[0], t[j]) {
          assert t[j] in multiset(t);
        }
      }
    }
  }

  lemma PrecedesTail<T>(s: seq<T>, x: T, y: T)
    requires s != [] && Precedes(s[1..], x, y)
    ensures Precedes(s, x, y)
  {
    var i, j :| 0 <= i < j < |s[1..]| && s[1..][i] == x && s[1..][j] == y;
    assert s[i + 1] == x && s[j + 1] == y;
  }

  lemma PrecedesHead<T>(s: seq<T>, y: T)
    requires s != [] && y in s[1..]
    ensures Precedes(s, s[0], y)
  {
    var j :| 0 <= j < |s[1..]| && s[1..][j] == y;
    assert s[j + 1] == y;
  }

  lemma {:induction false} InsertMember<T>(le: (T, T) -> bool, x: T, s: seq<T>, e: T)
    ensures e in Insert(le, x, s) ==> e == x || e in s
  {
    if s != [] && !le(x, s[0]) {
      InsertMember(le, x, s[1..], e);
    }
  }

  /** Inserting keeps the order of the others, and `x` lands in front of everything it ties with. */
  lemma {:induction false} InsertStable<T(!new)>(le: (T, T) -> bool, x: T, s: seq<T>, i: nat, j: nat)
    requires i < j < |Insert(le, x, s)|
    ensures var r := Insert(le, x, s);
            || Precedes(s, r[i], r[j])
            || (r[i] == x && r[j] in s)
            || (r[j] == x && !le(x, r[i]) && r[i] in s)
  {
    var r := Insert(le, x, s);
    if s == [] {
    } else if le(x, s[0]) {
      if i > 0 { assert s[i - 1] == r[i] && s[j - 1] == r[j]; }
    } else if i > 0 {
      var t := Insert(le, x, s[1..]);
      assert t[i - 1] == r[i] && t[j - 1] == r[j];
      InsertStable(le, x, s[1..], i - 1, j - 1);
      if Precedes(s[1..], r[i], r[j]) { PrecedesTail(s, r[i], r[j]); }
    } else {
      assert Insert(le, x, s[1..])[j - 1] == r[j];
      InsertMember(le, x, s[1..], r[j]);
      if r[j] in s[1..] { PrecedesHead(s, r[j]); }
    }
  }

  /** `Sort` is a permutation, sorted, and stable: it only swaps elements that are strictly out of order. */
  lemma {:induction false} SortCorrect<T(!new)>(le: (T, T) -> bool, s: seq<T>)
    requires TotalPreorder(le)
    ensures multiset(Sort(le, s)) == multiset(s)
    ensures Sorted(le, Sort(le, s))
    ensures forall i, j :: 0 <= i < j < |Sort(le, s)| ==>
              Precedes(s, Sort(le, s)[i], Sort(le, s)[j]) || !le(Sort(le, s)[j], Sort(le, s)[i])
  {
    if s != [] {
      var rest := Sort(le, s[1..]);
      SortCorrect(le, s[1..]);
      InsertContents(le, s[0], rest);
      InsertKeepsSorted(le, s[0], rest);
      assert s == [s[0]] + s[1..];
      var r := Sort(le, s);
      forall i, j | 0 <= i < j < |r| ensures Precedes(s, r[i], r[j]) || !le(r[j], r[i]) {
        InsertStable(le, s[0], rest, i, j);
        SortStep(le, s, rest, r[i], r[j]);
      }
    }
  }

  lemma SortStep<T(!new)>(le: (T, T) -> bool, s: seq<T>, rest: seq<T>, x: T, y: T)
    requires s != [] && multiset(rest) == multiset(s[1..])
    requires forall i, j :: 0 <= i < j < |rest| ==> Precedes(s[1..], rest[i], rest[j]) || !le(rest[j], rest[i])
    requires Precedes(rest, x, y) || (x == s[0] && y in rest) || (y == s[0] && !le(s[0], x) && x in rest)
    ensures Precedes(s, x, y) || !le(y, x)
  {
    if Precedes(rest, x, y) {
      if Precedes(s[1..], x, y) { PrecedesTail(s, x, y); }
    } else if x == s[0] && y in rest {
      assert y in multiset(rest);
      PrecedesHead(s, y);
    }
  }
}
