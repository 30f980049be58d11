/** Sequences without duplicates, sizes of sets and maps, and sums. */
module Lists {

  function One(b: bool): nat { if b then 1 else 0 }

  predicate NoDup<T(==)>(list: seq<T>)
  {
    forall i, j :: 0 <= i < j < |list| ==> list[i] != list[j]
  }

  function Without<T(==,!new)>(list: seq<T>, t: T): (r: seq<T>)
    ensures forall x :: x in r <==> x in list && x != t
  {
    if list == [] then []
    else if list[0] == t then Without(list[1..], t)
    else [list[0]] + Without(list[1..], t)
  }

  lemma {:induction false} WithoutNoDup<T(!new)>(list: seq<T>, t: T)
    requires NoDup(list)
    ensures NoDup(Without(list, t))
  {
    if list == [] {
    } else {
      WithoutNoDup(list[1..], t);
      assert list[0] !in Without(list[1..], t);
    }
  }

  /** `a` stands in front of `b`. */
  ghost predicate Before<T>(list: seq<T>, a: T, b: T)
  {
    exists i, j :: 0 <= i < j < |list| && list[i] == a && list[j] == b
  }

  lemma BeforeIn<T>(list: seq<T>, a: T, b: T)
    requires Before(list, a, b)
    ensures a in list && b in list
  {
  }

  lemma BeforeCons<T>(x: T, list: seq<T>, a: T, b: T)
    ensures Before([x] + list, a, b) <==> (a == x && b in list) || Before(list, a, b)
  {
    var l := [x] + list;
    if Before(l, a, b) {
      var i, j :| 0 <= i < j < |l| && l[i] == a && l[j] == b;
      assert l[j] == list[j - 1];
      if i > 0 { assert list[i - 1] == a && list[j - 1] == b; }
    }
    if a == x && b in list {
      var j :| 0 <= j < |list| && list[j] == b;
      assert l[0] == a && l[j + 1] == b;
    }
    if Before(list, a, b) {
      var i, j :| 0 <= i < j < |list| && list[i] == a && list[j] == b;
      assert l[i + 1] == a && l[j + 1] == b;
    }
  }

  lemma NotBeforeItself<T>(list: seq<T>, x: T)
    requires NoDup(list)
    ensures !Before(list, x, x)
  {
  }

  /** The second list is what is left of the first, in the same order. */
  ghost predicate Rest<T(!new)>(list: seq<T>, rest: seq<T>)
  {
    && (forall t :: t in rest ==> t in list)
    && (forall a, b :: Before(rest, a, b) ==> Before(list, a, b))
  }

  lemma RestDrop<T(!new)>(list: seq<T>, n: nat)
    requires n <= |list|
    ensures Rest(list, list[n..])
  {
    forall a, b | Before(list[n..], a, b) ensures Before(list, a, b) {
      var i, j :| 0 <= i < j < |list[n..]| && list[n..][i] == a && list[n..][j] == b;
      assert list[n + i] == a && list[n + j] == b;
    }
  }

  lemma {:induction false} RestWithout<T(!new)>(list: seq<T>, t: T)
    ensures Rest(list, Without(list, t))
  {
    if list == [] {
    } else {
      RestWithout(list[1..], t);
      assert list == [list[0]] + list[1..];
      forall a, b | Before(Without(list, t), a, b) ensures Before(list, a, b) {
        BeforeCons(list[0], list[1..], a, b);
        BeforeCons(list[0], Without(list[1..], t), a, b);
      }
    }
  }

  /** A list loses members, or gets one in front. */
  ghost predicate Stacks<T(!new)>(list: seq<T>, next: seq<T>)
  {
    Rest(list, next) || (next != [] && next[1..] == list && next[0] !in list)
  }

  /** Either both stood there before, or `a` has just gone in front. */
  lemma StackCases<T(!new)>(list: seq<T>, next: seq<T>, a: T, b: T)
    requires Stacks(list, next) && Before(next, a, b)
    ensures b in list && b in next && a in next && ((a in list && Before(list, a, b)) || a !in list)
  {
    BeforeIn(next, a, b);
    if Rest(list, next) {
      BeforeIn(list, a, b);
    } else {
      assert next == [next[0]] + list;
      BeforeCons(next[0], list, a, b);
      if Before(list, a, b) { BeforeIn(list, a, b); }
    }
  }

  lemma {:induction false} SubsetSize<T>(a: set<T>, b: set<T>)
    requires a <= b
    ensures |a| <= |b|
  {
    if a == {} {
    } else {
      var x :| x in a;
      SubsetSize(a - {x}, b - {x});
    }
  }

  lemma {:induction false} DistinctSize<T(!new)>(list: seq<T>, ts: set<T>)
    requires NoDup(list)
    requires forall t :: t in list ==> t in ts
    ensures |list| <= |ts|
  {
    if list == [] {
    } else {
      assert list[0] in list;
      assert forall t :: t in list[1..] ==> t in list && t != list[0];
      DistinctSize(list[1..], ts - {list[0]});
    }
  }

  lemma {:induction false} InjectiveSize<K, V>(m: map<K, V>)
    requires forall a, b :: a in m && b in m && m[a] == m[b] ==> a == b
    ensures |m.Keys| == |m.Values|
  {
    if m.Keys == {} {
      assert m.Values == {};
    } else {
      var a :| a in m;
      var n := m - {a};
      InjectiveSize(n);
      assert n.Keys == m.Keys - {a};
      assert n.Values == m.Values - {m[a]} by {
        forall v | v in m.Values && v != m[a] ensures v in n.Values {
          var k :| k in m && m[k] == v;
          assert k in n;
        }
      }
      assert m[a] in m.Values;
    }
  }

  /** There is always a number not yet used. */
  lemma {:induction false} Unused(used: set<nat>) returns (n: nat)
    ensures forall x :: x in used ==> x < n
  {
    if used == {} {
      n := 0;
    } else {
      var x :| x in used;
      var m := Unused(used - {x});
      n := if x < m then m else x + 1;
      assert forall y :: y in used ==> y == x || y in used - {x};
    }
  }

  ghost function Sum(m: map<nat, nat>): nat
  {
    if m == map[] then 0 else var k :| k in m; m[k] + Sum(m - {k})
  }

  lemma {:induction false} SumRemove(m: map<nat, nat>, k: nat)
    requires k in m
    ensures Sum(m) == m[k] + Sum(m - {k})
    decreases |m|
  {
    var j :| j in m && Sum(m) == m[j] + Sum(m - {j});
    if j != k {
      assert |m - {j}| < |m| && |m - {k}| < |m| by {
        assert (m - {j}).Keys == m.Keys - {j} && (m - {k}).Keys == m.Keys - {k};
      }
      SumRemove(m - {j}, k);
      SumRemove(m - {k}, j);
      assert m - {j} - {k} == m - {k} - {j};
    }
  }

  lemma {:induction false} SumAtMost(a: map<nat, nat>, b: map<nat, nat>)
    requires a.Keys == b.Keys && forall k :: k in a ==> a[k] <= b[k]
    ensures Sum(a) <= Sum(b)
    decreases |a|
  {
    if a == map[] {
      assert b == map[];
    } else {
      var k :| k in a;
      SumRemove(a, k);
      SumRemove(b, k);
      assert (a - {k}).Keys == a.Keys - {k};
      SumAtMost(a - {k}, b - {k});
    }
  }

  lemma SumLess(a: map<nat, nat>, b: map<nat, nat>, k: nat)
    requires a.Keys == b.Keys && (forall j :: j in a ==> a[j] <= b[j]) && k in a && a[k] < b[k]
    ensures Sum(a) < Sum(b)
  {
    SumRemove(a, k);
    SumRemove(b, k);
    SumAtMost(a - {k}, b - {k});
  }

  lemma SumOneMore(a: map<nat, nat>, b: map<nat, nat>, k: nat, d: nat)
    requires a.Keys == b.Keys && (forall j :: j in a && j != k ==> a[j] <= b[j]) && k in a && a[k] <= b[k] + d
    ensures Sum(a) <= Sum(b) + d
  {
    SumRemove(a, k);
    SumRemove(b, k);
    SumAtMost(a - {k}, b - {k});
  }
}
