/** The restricted-room list (RESTRICTED_AREAS, scripts/impersonate.js,
    line 39) and the list operations the script applies to it. */
module Rooms {
  import opened Types

  /** No room occurs twice. */
  ghost predicate NoDuplicates(s: seq<Room>)
  {
    forall i, j :: 0 <= i < j < |s| ==> s[i] != s[j]
  }

  /** `_.without(s, r)`: `s` with every occurrence of `r` taken out, the
      other rooms kept in their order. */
  function Without(s: seq<Room>, r: Room): (t: seq<Room>)
    ensures forall x :: x in t <==> x in s && x != r
    ensures |t| <= |s|
    ensures r !in s ==> t == s
    ensures NoDuplicates(s) ==> NoDuplicates(t)
  {
    if s == [] then []
    else if s[0] == r then Without(s[1..], r)
    else
      var t := Without(s[1..], r);
      assert NoDuplicates(s) ==> s[0] !in s[1..] by {
        if NoDuplicates(s) {
          forall k | 0 <= k < |s[1..]| ensures s[1..][k] != s[0] {
            assert s[1..][k] == s[k + 1];
          }
        }
      }
      [s[0]] + t
  }

  /** Removing a room that was just appended to a list that did not hold it
      gives back the list. */
  lemma {:induction false} WithoutAppended(s: seq<Room>, r: Room)
    requires r !in s
    ensures Without(s + [r], r) == s
  {
    if s != [] {
      assert (s + [r])[0] == s[0];
      assert (s + [r])[1..] == s[1..] + [r];
      WithoutAppended(s[1..], r);
    }
  }

  /** Removing a room from a list without duplicates shortens it by one when
      the room is there. */
  lemma {:induction false} WithoutLength(s: seq<Room>, r: Room)
    requires NoDuplicates(s) && r in s
    ensures |Without(s, r)| == |s| - 1
  {
    if s[0] == r {
      assert r !in s[1..];
    } else {
      WithoutLength(s[1..], r);
    }
  }

  /** `_.without` keeps the order of the remaining rooms: it works piece by
      piece over a concatenation. */
  lemma {:induction false} WithoutConcat(a: seq<Room>, b: seq<Room>, r: Room)
    ensures Without(a + b, r) == Without(a, r) + Without(b, r)
  {
    if a == [] {
      assert a + b == b;
    } else {
      assert (a + b)[0] == a[0];
      assert (a + b)[1..] == a[1..] + b;
      WithoutConcat(a[1..], b, r);
    }
  }

  /** On a single room, `_.without` keeps it unless it is the one removed. */
  lemma WithoutSingle(x: Room, r: Room)
    ensures Without([x], r) == if x == r then [] else [x]
  {
    assert [x][1..] == [];
  }

  /** For instance, removing the middle room keeps the outer two in order. */
  lemma WithoutMiddle(a: Room, b: Room, c: Room)
    requires a != b && c != b
    ensures Without([a, b, c], b) == [a, c]
  {
    assert [a, b, c] == [a] + [b] + [c];
    WithoutConcat([a] + [b], [c], b);
    WithoutConcat([a], [b], b);
    WithoutSingle(a, b);
    WithoutSingle(b, b);
    WithoutSingle(c, b);
  }

  /** Appending a room the list lacks keeps it free of duplicates. */
  lemma AppendFresh(s: seq<Room>, r: Room)
    requires NoDuplicates(s) && r !in s
    ensures NoDuplicates(s + [r])
  {
  }
}
