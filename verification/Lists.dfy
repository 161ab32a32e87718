/** Lists of names: distinctness, and removing a name. */
module Lists {

  predicate Distinct<T(==)>(s: seq<T>) {
    forall i, j :: 0 <= i < j < |s| ==> s[i] != s[j]
  }

  /** The list with every occurrence of the name filtered out. */
  function Without(s: seq<string>, id: string): (rest: seq<string>)
    ensures forall x :: x in rest <==> x in s && x != id
    ensures |rest| <= |s|
  {
    if s == [] then []
    else if s[0] == id then Without(s[1..], id)
    else [s[0]] + Without(s[1..], id)
  }

  lemma {:induction false} WithoutDistinct(s: seq<string>, id: string)
    requires Distinct(s)
    ensures Distinct(Without(s, id))
  {
    if s != [] {
      WithoutDistinct(s[1..], id);
      assert s[0] !in s[1..];
      var rest := Without(s[1..], id);
      assert s[0] !in rest;
    }
  }

  lemma {:induction false} WithoutJoined(s: seq<string>, t: seq<string>, id: string)
    ensures Without(s + t, id) == Without(s, id) + Without(t, id)
  {
    if s == [] {
      assert s + t == t;
    } else {
      assert (s + t)[1..] == s[1..] + t;
      WithoutJoined(s[1..], t, id);
    }
  }

  lemma {:induction false} WithoutNothing(s: seq<string>, id: string)
    requires id !in s
    ensures Without(s, id) == s
  {
    if s != [] {
      WithoutNothing(s[1..], id);
    }
  }

  lemma WithoutAppended(s: seq<string>, id: string)
    requires id !in s
    ensures Without(s + [id], id) == s
  {
    WithoutJoined(s, [id], id);
    WithoutNothing(s, id);
  }

  /** One name comes before another somewhere in the list. */
  predicate Precedes(s: seq<string>, x: string, y: string) {
    exists i, j :: 0 <= i < j < |s| && s[i] == x && s[j] == y
  }

  lemma PrecedesLater(s: seq<string>, x: string, y: string)
    requires s != [] && Precedes(s[1..], x, y)
    ensures Precedes(s, x, y)
  {
    var i, j :| 0 <= i < j < |s[1..]| && s[1..][i] == x && s[1..][j] == y;
    assert s[i + 1] == x && s[j + 1] == y;
  }

  lemma {:induction false} WithoutKeepsOrder(s: seq<string>, id: string, x: string, y: string)
    requires Precedes(Without(s, id), x, y)
    ensures Precedes(s, x, y)
  {
    var rest := Without(s, id);
    var i, j :| 0 <= i < j < |rest| && rest[i] == x && rest[j] == y;
    var tail := Without(s[1..], id);
    if s[0] == id {
      WithoutKeepsOrder(s[1..], id, x, y);
      PrecedesLater(s, x, y);
    } else if i == 0 {
      assert tail[j - 1] == y && y in tail && y in s[1..];
      var k :| 0 <= k < |s[1..]| && s[1..][k] == y;
      assert s[0] == x && s[k + 1] == y;
    } else {
      assert tail[i - 1] == x && tail[j - 1] == y;
      WithoutKeepsOrder(s[1..], id, x, y);
      PrecedesLater(s, x, y);
    }
  }
}
