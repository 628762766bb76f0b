/** A java.util.TreeSet<Integer> seen as a value: the sequence of its elements in
    ascending order, each once. */
module TreeSets {

  /** s is sorted ascending with no element repeated. */
  predicate StrictlyIncreasing(s: seq<int>)
  {
    forall i, j :: 0 <= i < j < |s| ==> s[i] < s[j]
  }

  /** Adds x to the sorted set s (TreeSet.add): the result is still sorted and
      duplicate-free, and holds exactly the elements of s and x. */
  function Insert(x: int, s: seq<int>): (r: seq<int>)
    requires StrictlyIncreasing(s)
    ensures StrictlyIncreasing(r)
    ensures forall y :: y in r <==> y == x || y in s
    ensures |r| == if x in s then |s| else |s| + 1
  {
    if s == [] then [x]
    else if x < s[0] then [x] + s
    else if x == s[0] then s
    else
      var t := Insert(x, s[1..]);
      assert forall k :: 0 <= k < |t| ==> s[0] < t[k] by {
        forall k | 0 <= k < |t| ensures s[0] < t[k] {
          assert t[k] in t;
        }
      }
      [s[0]] + t
  }

  /** new TreeSet<>(s): the elements of s, sorted ascending, duplicates removed. */
  function FromSeq(s: seq<int>): (r: seq<int>)
    ensures StrictlyIncreasing(r)
    ensures forall y :: y in r <==> y in s
    ensures |r| <= |s|
  {
    if s == [] then [] else Insert(s[|s| - 1], FromSeq(s[..|s| - 1]))
  }

  /** A sorted duplicate-free sequence is determined by its elements, so the
      sequence view of a TreeSet loses nothing and adds nothing. */
  lemma {:induction false} Canonical(a: seq<int>, b: seq<int>)
    requires StrictlyIncreasing(a) && StrictlyIncreasing(b)
    requires forall y :: y in a <==> y in b
    ensures a == b
  {
    assert a != [] ==> a[0] in a && a[0] in b;
    assert b != [] ==> b[0] in b && b[0] in a;
    if a != [] && b != [] {
      assert a[0] == b[0] by {
        assert a[0] in a && b[0] in b;
        var i :| 0 <= i < |b| && b[i] == a[0];
        var j :| 0 <= j < |a| && a[j] == b[0];
        assert b[0] <= b[i] && a[0] <= a[j];
      }
      forall y
        ensures y in a[1..] <==> y in b[1..]
      {
        if y in a[1..] {
          var i :| 0 <= i < |a[1..]| && a[1..][i] == y;
          assert a[0] < a[i + 1] && y in a;
          var k :| 0 <= k < |b| && b[k] == y;
          assert b[1..][k - 1] == y;
        }
        if y in b[1..] {
          var i :| 0 <= i < |b[1..]| && b[1..][i] == y;
          assert b[0] < b[i + 1] && y in b;
          var k :| 0 <= k < |a| && a[k] == y;
          assert a[1..][k - 1] == y;
        }
      }
      Canonical(a[1..], b[1..]);
      assert a == [a[0]] + a[1..];
      assert b == [b[0]] + b[1..];
    }
  }
}
