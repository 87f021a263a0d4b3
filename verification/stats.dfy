/** The admin's "Stats" report: sums and counts over the three collections. */
module Stats {
  import opened Types
  import Payments

  /** The sum of `f` over the values of `m`; the order of summation does not
      matter (see SumOfPick). */
  ghost function SumOf<K, V>(m: map<K, V>, f: V -> int): int
    decreases |m.Keys|
  {
    if m.Keys == {} then 0
    else
      var k :| k in m.Keys;
      var rest := m - {k};
      assert rest.Keys == m.Keys - {k};
      f(m[k]) + SumOf(rest, f)
  }

  /** Any key may be taken first: the sum is its value plus the sum over the rest. */
  lemma {:induction false} SumOfPick<K, V>(m: map<K, V>, f: V -> int, k: K)
    requires k in m
    ensures SumOf(m, f) == f(m[k]) + SumOf(m - {k}, f)
    decreases |m.Keys|
  {
    var j :| j in m.Keys && SumOf(m, f) == f(m[j]) + SumOf(m - {j}, f);
    if j != k {
      var mj, mk := m - {j}, m - {k};
      assert mj.Keys == m.Keys - {j};
      assert mk.Keys == m.Keys - {k};
      assert mj[k] == m[k] && mk[j] == m[j];
      SumOfPick(mj, f, k);
      SumOfPick(mk, f, j);
      assert mj - {k} == mk - {j};
    }
  }

  /** A sum of zeros and ones over `m` is a count between 0 and |m|. */
  lemma {:induction false} SumOfFlagsBounded<K, V>(m: map<K, V>, f: V -> int)
    requires forall v :: 0 <= f(v) <= 1
    ensures 0 <= SumOf(m, f) <= |m|
    decreases |m.Keys|
  {
    if m.Keys != {} {
      var k :| k in m.Keys && SumOf(m, f) == f(m[k]) + SumOf(m - {k}, f);
      assert (m - {k}).Keys == m.Keys - {k};
      SumOfFlagsBounded(m - {k}, f);
    }
  }

  function CreditsOf(u: User): int { u.credits }
  function SearchesOf(u: User): int { u.searches }
  function RedeemedFlag(c: Code): int { if c.redeemed then 1 else 0 }

  /** Users, total credits, total searches, pending payments, active and redeemed codes. */
  datatype Report = Report(
    users: nat,
    totalCredits: int,
    totalSearches: int,
    pendingPayments: nat,
    activeCodes: int,
    redeemedCodes: int)

  /** The report as the source defines it (`on_message`, "Stats"). */
  ghost function StatsOf(w: World): Report
  {
    var redeemed := SumOf(w.codes, RedeemedFlag);
    Report(|w.users|, SumOf(w.users, CreditsOf), SumOf(w.users, SearchesOf),
           |Payments.FilterPending(w.payments)|, |w.codes| - redeemed, redeemed)
  }

  /** Filtering distributes over concatenation. */
  lemma {:induction false} FilterPendingAppend(a: seq<Payment>, b: seq<Payment>)
    ensures Payments.FilterPending(a + b) == Payments.FilterPending(a) + Payments.FilterPending(b)
  {
    if a == [] {
      assert a + b == b;
    } else {
      assert (a + b)[0] == a[0];
      assert (a + b)[1..] == a[1..] + b;
      FilterPendingAppend(a[1..], b);
    }
  }

  /** The two sums over `users.values()`: total credits and total searches. */
  method UserTotals(users: map<int, User>) returns (credits: int, searches: int)
    ensures credits == SumOf(users, CreditsOf)
    ensures searches == SumOf(users, SearchesOf)
  {
    credits, searches := 0, 0;
    var rest := users;
    while rest.Keys != {}
      invariant credits + SumOf(rest, CreditsOf) == SumOf(users, CreditsOf)
      invariant searches + SumOf(rest, SearchesOf) == SumOf(users, SearchesOf)
      decreases |rest.Keys|
    {
      var entry :| entry in rest.Items;
      var k := entry.0;
      SumOfPick(rest, CreditsOf, k);
      SumOfPick(rest, SearchesOf, k);
      credits := credits + rest[k].credits;
      searches := searches + rest[k].searches;
      assert (rest - {k}).Keys == rest.Keys - {k};
      rest := rest - {k};
    }
  }

  /** `sum(1 for p in payments if p["status"] == "pending")`. */
  method CountPending(ps: seq<Payment>) returns (n: nat)
    ensures n == |Payments.FilterPending(ps)|
  {
    n := 0;
    for i := 0 to |ps|
      invariant n == |Payments.FilterPending(ps[..i])|
    {
      assert ps[..i + 1] == ps[..i] + [ps[i]];
      FilterPendingAppend(ps[..i], [ps[i]]);
      if ps[i].status == Pending {
        n := n + 1;
      }
    }
    assert ps[..|ps|] == ps;
  }

  /** `sum(1 for c in codes.values() if c.get("redeemed"))`: a count between 0 and |codes|. */
  method CountRedeemed(codes: map<string, Code>) returns (n: int)
    ensures n == SumOf(codes, RedeemedFlag)
    ensures 0 <= n <= |codes|
  {
    n := 0;
    var left := codes;
    while left.Keys != {}
      invariant n + SumOf(left, RedeemedFlag) == SumOf(codes, RedeemedFlag)
      decreases |left.Keys|
    {
      var t :| t in left.Keys;
      SumOfPick(left, RedeemedFlag, t);
      if left[t].redeemed {
        n := n + 1;
      }
      assert (left - {t}).Keys == left.Keys - {t};
      left := left - {t};
    }
    SumOfFlagsBounded(codes, RedeemedFlag);
  }

  /** The report the admin sees. The active and redeemed counts add up to
      the number of codes and neither is negative. */
  method ComputeStats(w: World) returns (r: Report)
    ensures r == StatsOf(w)
    ensures r.activeCodes >= 0 && r.redeemedCodes >= 0
    ensures r.activeCodes + r.redeemedCodes == |w.codes|
  {
    var credits, searches := UserTotals(w.users);
    var pending := CountPending(w.payments);
    var redeemed := CountRedeemed(w.codes);
    r := Report(|w.users|, credits, searches, pending, |w.codes| - redeemed, redeemed);
  }

  /** Changing one user's entry moves the credit total by exactly the change. */
  lemma TotalAfterUpdate(users: map<int, User>, uid: int, u: User)
    ensures SumOf(users[uid := u], CreditsOf) ==
      SumOf(users, CreditsOf) - (if uid in users then users[uid].credits else 0) + u.credits
  {
    var m := users[uid := u];
    SumOfPick(m, CreditsOf, uid);
    assert m - {uid} == users - {uid};
    if uid in users {
      SumOfPick(users, CreditsOf, uid);
    } else {
      assert users - {uid} == users;
    }
  }
}
