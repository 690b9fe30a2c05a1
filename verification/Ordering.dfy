/** Iteration order of std::map and std::set: keys are visited in ascending order. */
module Ordering {

  ghost predicate TotalOrder<T(!new)>(leq: (T, T) -> bool) {
    && (forall x, y :: leq(x, y) || leq(y, x))
    && (forall x, y :: leq(x, y) && leq(y, x) ==> x == y)
    && (forall x, y, z :: leq(x, y) && leq(y, z) ==> leq(x, z))
  }

  ghost predicate Least<T>(leq: (T, T) -> bool, m: T, ks: set<T>) {
    m in ks && forall k | k in ks :: leq(m, k)
  }

  lemma {:induction false} LeastExists<T(!new)>(leq: (T, T) -> bool, ks: set<T>)
    requires TotalOrder(leq) && ks != {}
    ensures exists m :: Least(leq, m, ks)
    decreases |ks|
  {
    var m :| m in ks;
    if ks == {m} {
      assert Least(leq, m, ks);
    } else {
      assert ks == (ks - {m}) + {m};
      LeastExists(leq, ks - {m});
      var r :| Least(leq, r, ks - {m});
      assert Least(leq, if leq(r, m) then r else m, ks);
    }
  }

  function LeastOf<T(==, !new)>(leq: (T, T) -> bool, ks: set<T>): (m: T)
    requires TotalOrder(leq) && ks != {}
    ensures m in ks && forall k | k in ks :: leq(m, k)
  {
    LeastExists(leq, ks);
    var m :| m in ks && forall k | k in ks :: leq(m, k);
    m
  }

  /** The keys in the order a std::map iterator visits them. */
  function Ascending<T(==, !new)>(leq: (T, T) -> bool, ks: set<T>): (r: seq<T>)
    requires TotalOrder(leq)
    ensures forall k :: k in r <==> k in ks
    ensures forall i | 0 <= i < |r| :: r[i] in ks
    ensures forall i, j | 0 <= i < j < |r| :: leq(r[i], r[j]) && r[i] != r[j]
    ensures |r| == |ks|
    decreases |ks|
  {
    if ks == {} then
      []
    else
      var m := LeastOf(leq, ks);
      assert ks == (ks - {m}) + {m};
      [m] + Ascending(leq, ks - {m})
  }

  function IntLeq(a: int, b: int): bool { a <= b }

  /** std::string's operator<=: lexicographic on character codes. */
  function LexLeq(a: string, b: string): bool {
    if a == "" then true
    else if b == "" then false
    else if a[0] != b[0] then a[0] < b[0]
    else LexLeq(a[1..], b[1..])
  }

  lemma {:induction false} LexTotal(a: string, b: string)
    ensures LexLeq(a, b) || LexLeq(b, a)
    ensures LexLeq(a, b) && LexLeq(b, a) ==> a == b
  {
    if a != "" && b != "" && a[0] == b[0] {
      LexTotal(a[1..], b[1..]);
      assert a == [a[0]] + a[1..] && b == [b[0]] + b[1..];
    }
  }

  lemma {:induction false} LexTransitive(a: string, b: string, c: string)
    requires LexLeq(a, b) && LexLeq(b, c)
    ensures LexLeq(a, c)
  {
    if a != "" && b != "" && c != "" && a[0] == b[0] == c[0] {
      LexTransitive(a[1..], b[1..], c[1..]);
    }
  }

  lemma LexIsTotalOrder()
    ensures TotalOrder(LexLeq)
  {
    forall x, y ensures (LexLeq(x, y) || LexLeq(y, x)) && (LexLeq(x, y) && LexLeq(y, x) ==> x == y) {
      LexTotal(x, y);
    }
    forall x, y, z | LexLeq(x, y) && LexLeq(y, z) ensures LexLeq(x, z) {
      LexTransitive(x, y, z);
    }
  }

  /** Keys of a map keyed by nickname or channel name, in iteration order. */
  function SortedNames(ks: set<string>): (r: seq<string>)
    ensures forall k :: k in r <==> k in ks
    ensures forall i | 0 <= i < |r| :: r[i] in ks
    ensures |r| == |ks|
  {
    LexIsTotalOrder();
    Ascending(LexLeq, ks)
  }

  /** Iteration visits the names in strictly ascending order. */
  lemma SortedNamesAscend(ks: set<string>)
    ensures var r := SortedNames(ks); forall i, j | 0 <= i < j < |r| :: LexLeq(r[i], r[j]) && r[i] != r[j]
  {
  }

  /** Keys of a map keyed by file descriptor, in iteration order. */
  function SortedFds(ks: set<int>): (r: seq<int>)
    ensures forall k :: k in r <==> k in ks
    ensures forall i | 0 <= i < |r| :: r[i] in ks
    ensures |r| == |ks|
  {
    assert TotalOrder(IntLeq);
    Ascending(IntLeq, ks)
  }
}
