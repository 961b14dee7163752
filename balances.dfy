/** What getGroupBalances evidently means to compute: each split's amount is
    owed by its user to the expense's payer, so the payer is credited with
    what the other members owe, and the balances of a group net to zero. */
module PayerCreditedBalances {
  import opened Common
  import opened Entities
  import opened Groups

  /** As written, the payer is credited with their own share instead of what
      the others owe. A pays 90.00 for dinner split equally among A, B and C:
      A comes out at +30.00 and B and C at -30.00 each, so the balances add up
      to -30.00, while A is owed 60.00. */
  lemma PayerCreditedWithOwnShare()
    ensures var e := GroupExpense(1, 1, 1, "dinner", 90.0, None, Equal, 0);
            var vs := [(e, Split(1, 1, 1, 30.0, 30.0, true)), (e, Split(2, 1, 2, 30.0, 0.0, false)),
                       (e, Split(3, 1, 3, 30.0, 0.0, false))];
            Users(vs) == [1, 2, 3]
            && NetBalance(vs, 1) == 30.0 && NetBalance(vs, 2) == -30.0 && NetBalance(vs, 3) == -30.0
            && NetBalance(vs, 1) + NetBalance(vs, 2) + NetBalance(vs, 3) == -30.0
            && IntendedBalance(vs, 1) == 60.0 && IntendedBalance(vs, 2) == -30.0 && IntendedBalance(vs, 3) == -30.0
  {
    var e := GroupExpense(1, 1, 1, "dinner", 90.0, None, Equal, 0);
    var vs := [(e, Split(1, 1, 1, 30.0, 30.0, true)), (e, Split(2, 1, 2, 30.0, 0.0, false)),
               (e, Split(3, 1, 3, 30.0, 0.0, false))];
    assert vs[..2] == [vs[0], vs[1]] && vs[..2][..1] == [vs[0]] && [vs[0]][..0] == [];
    assert Users(vs[..2][..1]) == [1];
    assert Users(vs[..2]) == [1, 2];
    VisitSums(vs, 1);
    VisitSums(vs, 2);
    VisitSums(vs, 3);
  }

  lemma VisitSums(vs: seq<Visit>, u: nat)
    requires |vs| == 3
    ensures NetBalance(vs, u) == Credit(vs[0], u) + Credit(vs[1], u) + Credit(vs[2], u)
                                 - (Debit(vs[0], u) + Debit(vs[1], u) + Debit(vs[2], u))
    ensures IntendedBalance(vs, u) == PayerCredit(vs[0], u) + PayerCredit(vs[1], u) + PayerCredit(vs[2], u)
                                      - (Debit(vs[0], u) + Debit(vs[1], u) + Debit(vs[2], u))
  {
    SumOfThree(vs, (v: Visit) => Credit(v, u));
    SumOfThree(vs, (v: Visit) => Debit(v, u));
    SumOfThree(vs, (v: Visit) => PayerCredit(v, u));
  }

  lemma SumOfThree<T>(s: seq<T>, f: T -> real)
    requires |s| == 3
    ensures SumBy(s, f) == f(s[0]) + f(s[1]) + f(s[2])
  {
    assert s[..2] == [s[0], s[1]] && s[..2][..1] == [s[0]] && [s[0]][..0] == [];
    SumBySnoc([s[0]], s[1], f);
    assert s == s[..2] + [s[2]];
    SumBySnoc(s[..2], s[2], f);
  }

  /** What a visit credits u with: the split's amount when u paid the expense
      and the split is someone else's. */
  function PayerCredit(v: Visit, u: nat): real {
    if v.0.paidBy == u && v.1.userId != u then v.1.owed else 0.0
  }

  /** The corrected net balance: what u is owed as payer minus what u owes on
      expenses others paid. */
  function IntendedBalance(vs: seq<Visit>, u: nat): real {
    SumBy(vs, (v: Visit) => PayerCredit(v, u)) - SumBy(vs, (v: Visit) => Debit(v, u))
  }

  function AddParty(us: seq<nat>, u: nat): seq<nat> {
    if u in us then us else us + [u]
  }

  /** Everyone with a stake in the visits, payers included, in order of first
      appearance. */
  function Parties(vs: seq<Visit>): seq<nat> {
    if vs == [] then []
    else
      var v := vs[|vs| - 1];
      AddParty(AddParty(Parties(vs[..|vs| - 1]), v.0.paidBy), v.1.userId)
  }

  predicate Distinct(us: seq<nat>) {
    forall i, j :: 0 <= i < j < |us| ==> us[i] != us[j]
  }

  /** The parties are distinct, and they are exactly the payers and the split
      users of the visits. */
  lemma {:induction false} PartiesListed(vs: seq<Visit>)
    ensures Distinct(Parties(vs))
    ensures forall u :: u in Parties(vs) <==>
              exists i :: 0 <= i < |vs| && (vs[i].0.paidBy == u || vs[i].1.userId == u)
  {
    if vs != [] {
      var init, v := vs[..|vs| - 1], vs[|vs| - 1];
      PartiesListed(init);
      forall u ensures u in Parties(vs) <==> exists i :: 0 <= i < |vs| && (vs[i].0.paidBy == u || vs[i].1.userId == u) {
        if u in Parties(init) {
          var i :| 0 <= i < |init| && (init[i].0.paidBy == u || init[i].1.userId == u);
          assert vs[i] == init[i];
        }
        if exists i :: 0 <= i < |vs| && (vs[i].0.paidBy == u || vs[i].1.userId == u) {
          var i :| 0 <= i < |vs| && (vs[i].0.paidBy == u || vs[i].1.userId == u);
          if i < |init| {
            assert init[i] == vs[i];
          }
        }
      }
    }
  }

  /** The corrected getGroupBalances: one `(user, net_balance)` entry per party. */
  function IntendedBalances(vs: seq<Visit>): seq<(nat, real)> {
    var us := Parties(vs);
    seq(|us|, k requires 0 <= k < |us| => (us[k], IntendedBalance(vs, us[k])))
  }

  function BalanceOf(p: (nat, real)): real {
    p.1
  }

  /** Summing u-indexed amounts that are zero except at a. */
  lemma {:induction false} SumAtOne(us: seq<nat>, f: nat -> real, a: nat, c: real)
    requires Distinct(us)
    requires forall i :: 0 <= i < |us| ==> f(us[i]) == if us[i] == a then c else 0.0
    ensures SumBy(us, f) == if a in us then c else 0.0
  {
    if us != [] {
      var init := us[..|us| - 1];
      SumAtOne(init, f, a, c);
      assert us == init + [us[|us| - 1]];
      SumBySnoc(init, us[|us| - 1], f);
      if us[|us| - 1] == a {
        assert a !in init;
      }
    }
  }

  /** One visit moves the balances of a covering list of parties by amounts
      that cancel. */
  lemma VisitCancels(v: Visit, us: seq<nat>)
    requires Distinct(us) && v.0.paidBy in us && v.1.userId in us
    ensures SumBy(us, (u: nat) => PayerCredit(v, u)) == SumBy(us, (u: nat) => Debit(v, u))
  {
    var c := if v.1.userId != v.0.paidBy then v.1.owed else 0.0;
    SumAtOne(us, (u: nat) => PayerCredit(v, u), v.0.paidBy, c);
    SumAtOne(us, (u: nat) => Debit(v, u), v.1.userId, c);
  }

  lemma IntendedBalanceSnoc(vs: seq<Visit>, v: Visit, u: nat)
    ensures IntendedBalance(vs + [v], u) == IntendedBalance(vs, u) + (PayerCredit(v, u) - Debit(v, u))
  {
    SumBySnoc(vs, v, (w: Visit) => PayerCredit(w, u));
    SumBySnoc(vs, v, (w: Visit) => Debit(w, u));
  }

  /** Over any distinct list naming every payer and every split user, the
      corrected balances add up to zero. */
  lemma {:induction false} BalancesCancel(vs: seq<Visit>, us: seq<nat>)
    requires Distinct(us)
    requires forall i :: 0 <= i < |vs| ==> vs[i].0.paidBy in us && vs[i].1.userId in us
    ensures SumBy(us, (u: nat) => IntendedBalance(vs, u)) == 0.0
  {
    if vs == [] {
      SumByConstant(us, (u: nat) => IntendedBalance(vs, u), 0.0);
    } else {
      var init, v := vs[..|vs| - 1], vs[|vs| - 1];
      assert vs == init + [v];
      BalancesCancel(init, us);
      var now := (u: nat) => IntendedBalance(vs, u);
      var before := (u: nat) => IntendedBalance(init, u);
      var delta := (u: nat) => PayerCredit(v, u) - Debit(v, u);
      forall i | 0 <= i < |us| ensures before(us[i]) == now(us[i]) - delta(us[i]) {
        IntendedBalanceSnoc(init, v, us[i]);
      }
      SumByDifference(us, now, delta, before);
      SumByDifference(us, (u: nat) => PayerCredit(v, u), (u: nat) => Debit(v, u), delta);
      VisitCancels(v, us);
    }
  }

  /** The corrected balances of a group net to zero. */
  lemma IntendedBalancesNetToZero(vs: seq<Visit>)
    ensures |IntendedBalances(vs)| == |Parties(vs)|
    ensures SumBy(IntendedBalances(vs), BalanceOf) == 0.0
  {
    var us := Parties(vs);
    PartiesListed(vs);
    forall i | 0 <= i < |vs| ensures vs[i].0.paidBy in us && vs[i].1.userId in us {
    }
    BalancesCancel(vs, us);
    SumByPointwise(IntendedBalances(vs), BalanceOf, us, (u: nat) => IntendedBalance(vs, u));
  }
}
