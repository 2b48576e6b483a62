/**
 `SELECT id ... ORDER BY key, id LIMIT n` over a finite set of row ids. A row is
 selected exactly when fewer than `n` candidates come before it.
 */
module Ordering {
  import opened Results
  import opened Sets

  /** Rows by (key, id), or the reverse of that; a NULL key sorts first. */
  datatype Order = Order(keys: map<int, Option<int>>, newestFirst: bool)

  predicate KeyBelow(a: Option<int>, b: Option<int>) {
    b.Some? && (a.None? || a.value < b.value)
  }

  predicate Earlier(o: Order, x: int, y: int)
    requires x in o.keys && y in o.keys
  {
    KeyBelow(o.keys[x], o.keys[y]) || (o.keys[x] == o.keys[y] && x < y)
  }

  predicate Before(o: Order, x: int, y: int)
    requires x in o.keys && y in o.keys
  {
    if o.newestFirst then Earlier(o, y, x) else Earlier(o, x, y)
  }

  function Ahead(o: Order, s: set<int>, x: int): set<int>
    requires s <= o.keys.Keys && x in o.keys
  {
    set y | y in s && Before(o, y, x)
  }

  function Leading(o: Order, s: set<int>, n: nat): set<int>
    requires s <= o.keys.Keys
  {
    set x | x in s && |Ahead(o, s, x)| < n
  }

  ghost predicate IsLast(o: Order, s: set<int>, m: int)
    requires s <= o.keys.Keys
  {
    m in s && forall x | x in s :: x == m || Before(o, x, m)
  }

  lemma {:induction false} LastExists(o: Order, s: set<int>) returns (m: int)
    requires s != {} && s <= o.keys.Keys
    ensures IsLast(o, s, m)
    decreases s
  {
    var one := Member(s);
    var rest := s - {one};
    if rest == {} {
      assert s == {one};
      m := one;
    } else {
      var last := LastExists(o, rest);
      m := if Before(o, one, last) then last else one;
      assert s == rest + {one};
    }
  }

  /** Selection with a limit returns min(n, |s|) rows, and they precede all the others. */
  lemma {:induction false} LeadingSelects(o: Order, s: set<int>, n: nat)
    requires s <= o.keys.Keys
    ensures |Leading(o, s, n)| == Min(n, |s|)
    ensures forall x, y | x in Leading(o, s, n) && y in s - Leading(o, s, n) :: Before(o, x, y)
    decreases s
  {
    if s == {} {
      assert Leading(o, s, n) == {};
    } else {
      var m := LastExists(o, s);
      var rest := s - {m};
      LeadingSelects(o, rest, n);
      assert Ahead(o, s, m) == rest;
      assert |s| == |rest| + 1;
      forall x | x in rest
        ensures Ahead(o, s, x) == Ahead(o, rest, x)
      {
      }
      if n < |s| {
        assert Leading(o, s, n) == Leading(o, rest, n);
      } else {
        forall x | x in rest ensures |Ahead(o, rest, x)| < n {
          SubsetSize(Ahead(o, rest, x), rest);
        }
        assert Leading(o, s, n) == s;
      }
    }
  }

  /** A selected row stays selected when other candidates go away. */
  lemma LeadingSurvivesRemoval(o: Order, s: set<int>, smaller: set<int>, n: nat, x: int)
    requires smaller <= s <= o.keys.Keys
    requires x in smaller && x in Leading(o, s, n)
    ensures x in Leading(o, smaller, n)
  {
    SubsetSize(Ahead(o, smaller, x), Ahead(o, s, x));
  }

  /** Only the keys of the candidates matter. */
  lemma LeadingDependsOnKeys(o: Order, p: Order, s: set<int>, n: nat)
    requires s <= o.keys.Keys && s <= p.keys.Keys && o.newestFirst == p.newestFirst
    requires forall x | x in s :: o.keys[x] == p.keys[x]
    ensures Leading(o, s, n) == Leading(p, s, n)
  {
    forall x | x in s ensures Ahead(o, s, x) == Ahead(p, s, x) {
    }
  }

  /** A row that is not selected is preceded by a full selection. */
  lemma PassedOver(o: Order, s: set<int>, n: nat, x: int) returns (top: set<int>)
    requires s <= o.keys.Keys && x in s && x !in Leading(o, s, n)
    ensures top <= Leading(o, s, n) && |top| == n
    ensures top <= Ahead(o, s, x)
  {
    var ahead := Ahead(o, s, x);
    top := Leading(o, ahead, n);
    LeadingSelects(o, ahead, n);
    forall y | y in top ensures y in Leading(o, s, n) {
      assert Ahead(o, s, y) == Ahead(o, ahead, y);
    }
  }
}
