/** The fact query: which fact names are requested from PuppetDB and the
    predicates that request them. */
module FactQuery {
  import opened Wrappers
  import opened PuppetDB

  /** The facts every node is queried for, whatever the configuration. */
  const MandatoryFactNames: set<string> :=
    {"hardwaremodel", "operatingsystem", "operatingsystemrelease", "osfamily"}

  lemma MandatoryFactNamesCount()
    ensures |MandatoryFactNames| == 4
  {
  }

  /** The names the query asks for: the mandatory ones together with the
      configured custom ones, when custom names are configured at all. */
  function FactNames(custom: Option<set<string>>): (names: set<string>)
    ensures MandatoryFactNames <= names
    ensures custom.None? ==> names == MandatoryFactNames
    ensures custom.Some? ==> custom.value <= names
    ensures names - MandatoryFactNames <= (if custom.Some? then custom.value else {})
  {
    MandatoryFactNames + (if custom.Some? then custom.value else {})
  }

  /** At least four names are always asked for, however the custom names
      overlap the mandatory ones. */
  lemma FactNamesCount(custom: Option<set<string>>)
    ensures |FactNames(custom)| >= 4
  {
    var names := FactNames(custom);
    var extra := names - MandatoryFactNames;
    MandatoryFactNamesCount();
    assert names == MandatoryFactNames + extra;
    assert |MandatoryFactNames + extra| == |MandatoryFactNames| + |extra|;
  }

  /** One `eq(Fact.NAME, n)` predicate per name. */
  function NamePredicates(names: set<string>): set<Expr>
  {
    set n | n in names :: Eq(Name, n)
  }

  /** There are as many predicates as names: no two names share a predicate. */
  lemma {:induction false} NamePredicatesCount(names: set<string>)
    ensures |NamePredicates(names)| == |names|
    decreases names
  {
    if names != {} {
      var n :| n in names;
      var rest := names - {n};
      NamePredicatesCount(rest);
      assert NamePredicates(names) == NamePredicates(rest) + {Eq(Name, n)};
      assert Eq(Name, n) !in NamePredicates(rest);
    } else {
      assert NamePredicates(names) == {};
    }
  }

  /** Adding one new name adds exactly its predicate, once. */
  lemma AddNamePredicate(done: set<string>, n: string)
    requires n !in done
    ensures multiset(NamePredicates(done + {n})) == multiset(NamePredicates(done)) + multiset{Eq(Name, n)}
  {
    assert NamePredicates(done + {n}) == NamePredicates(done) + {Eq(Name, n)};
    assert Eq(Name, n) !in NamePredicates(done);
  }

  /** No element occurs twice. */
  predicate Distinct<T(==)>(s: seq<T>)
  {
    forall i, j :: 0 <= i < j < |s| ==> s[i] != s[j]
  }

  /** A query whose operands are, as a multiset, the predicates for `names`
      has pairwise distinct operands, one per name, whatever their order. */
  lemma {:induction false} QueryForNames(ops: seq<Expr>, names: set<string>)
    requires multiset(ops) == multiset(NamePredicates(names))
    ensures |ops| == |names|
    ensures Distinct(ops)
    ensures forall n :: Eq(Name, n) in ops <==> n in names
  {
    NamePredicatesCount(names);
    assert |ops| == |multiset(ops)|;
    forall i, j | 0 <= i < j < |ops| ensures ops[i] != ops[j] {
      assert multiset(ops)[ops[i]] <= 1;
      assert ops == ops[..j] + [ops[j]] + ops[j+1..];
      assert multiset(ops) == multiset(ops[..j]) + multiset{ops[j]} + multiset(ops[j+1..]);
      assert ops[i] in ops[..j];
    }
    forall n ensures Eq(Name, n) in ops <==> n in names {
      assert Eq(Name, n) in ops <==> Eq(Name, n) in multiset(ops);
    }
  }

  /** Such a query selects exactly the facts named in `names`. */
  lemma QuerySelectsNames(ops: seq<Expr>, names: set<string>)
    requires multiset(ops) == multiset(NamePredicates(names))
    ensures Selected(Or(ops)) == names
  {
    forall n ensures n in Selected(Or(ops)) <==> n in names {
      if n in names {
        assert Eq(Name, n) in multiset(ops);
        var i :| 0 <= i < |ops| && ops[i] == Eq(Name, n);
        assert n in Selected(ops[i]);
      }
      if n in Selected(Or(ops)) {
        var i :| 0 <= i < |ops| && n in Selected(ops[i]);
        assert ops[i] in multiset(ops);
      }
    }
  }

  /** The shape of the fact query for a configuration: at least four pairwise
      distinct operands, a predicate for every mandatory and every custom name,
      and exactly the four mandatory ones when no custom names are configured. */
  lemma FactsQueryShape(ops: seq<Expr>, custom: Option<set<string>>)
    requires multiset(ops) == multiset(NamePredicates(FactNames(custom)))
    ensures |ops| >= 4 && Distinct(ops)
    ensures forall n :: n in MandatoryFactNames ==> Eq(Name, n) in ops
    ensures custom.Some? ==> forall n :: n in custom.value ==> Eq(Name, n) in ops
    ensures custom.None? ==> |ops| == 4
  {
    QueryForNames(ops, FactNames(custom));
    FactNamesCount(custom);
    MandatoryFactNamesCount();
  }
}
