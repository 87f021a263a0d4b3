/** The payment queue: the first-match search and at-most-once approval of
    `/approve`, and the admin's listing of pending payments. */
module Payments {
  import opened Types
  import Ledger

  /** The index of the first record with this id, if any. */
  function IndexOfId(ps: seq<Payment>, id: string): (r: Option<nat>)
    ensures r.Some? ==> r.value < |ps| && ps[r.value].id == id
    ensures r.Some? ==> forall j :: 0 <= j < r.value ==> ps[j].id != id
    ensures r.None? <==> forall j :: 0 <= j < |ps| ==> ps[j].id != id
    decreases |ps|
  {
    if ps == [] then None
    else if ps[0].id == id then Some(0)
    else match IndexOfId(ps[1..], id)
      case None => None
      case Some(k) => Some(k + 1)
  }

  /** The linear search of `/approve`: scan in order and stop at the first match. */
  method FindPayment(ps: seq<Payment>, id: string) returns (r: Option<nat>)
    ensures r == IndexOfId(ps, id)
  {
    var i := 0;
    while i < |ps|
      invariant 0 <= i <= |ps|
      invariant forall j :: 0 <= j < i ==> ps[j].id != id
    {
      if ps[i].id == id {
        return Some(i);
      }
      i := i + 1;
    }
    return None;
  }

  /** Two queues whose records carry the same ids in the same places have the
      same first match for every id. */
  lemma {:induction false} SameIdsSameIndex(a: seq<Payment>, b: seq<Payment>, id: string)
    requires |a| == |b|
    requires forall j :: 0 <= j < |a| ==> a[j].id == b[j].id
    ensures IndexOfId(a, id) == IndexOfId(b, id)
    decreases |a|
  {
    if a != [] {
      SameIdsSameIndex(a[1..], b[1..], id);
    }
  }

  /** The record a confirmed submission appends (`on_message`, "Confirm UTR"). */
  function NewPayment(payId: string, uid: int, conv: Conv, now: int): (p: Payment)
    ensures p.status == Pending && p.approvedCredits.None? && p.approvedTs.None?
    ensures p.id == payId && p.userId == uid && p.ts == now
    ensures p.amount == conv.amount && p.utr == conv.utr && p.screenshot == conv.ssFileId
  {
    Payment(payId, uid, conv.amount, conv.utr, conv.ssFileId, Pending, now, None, None)
  }

  /** What `/approve` answers. A non-owner gets no answer at all. */
  datatype ApproveReply =
    | ApproveIgnored
    | ApproveUsage
    | PaymentNotFound
    | AlreadyProcessed
    | PaymentApproved(userId: int, credits: int)

  /** `w2` is `w` after approving record `k` with `c` credits at time `now`: the
      record becomes approved with the credits and time recorded, its user
      (created if unknown) gains exactly `c`, and nothing else changes. */
  ghost predicate ApprovedAt(w: World, w2: World, k: nat, c: int, now: int)
  {
    && k < |w.payments|
    && var p := w.payments[k];
    && var before := Ledger.Touch(w.users, p.userId)[p.userId];
    && |w2.payments| == |w.payments|
    && w2.payments[k] == p.(status := Approved, approvedCredits := Some(c), approvedTs := Some(now))
    && (forall j :: 0 <= j < |w.payments| && j != k ==> w2.payments[j] == w.payments[j])
    && w2.users.Keys == w.users.Keys + {p.userId}
    && w2.users[p.userId] == before.(credits := before.credits + c)
    && (forall u :: u in w.users && u != p.userId ==> w2.users[u] == w.users[u])
    && w2.codes == w.codes && w2.dialogs == w.dialogs
  }

  /** `/approve <payment_id> <credits>`: only the owner, only with both
      arguments, only for the first record with that id, and only when that
      record is still pending does anything change. */
  function Approve(w: World, caller: int, payId: Option<string>, credits: Option<int>, now: int): (r: Effect<ApproveReply>)
    ensures !r.reply.PaymentApproved? ==> r.world == w
    ensures r.reply.PaymentNotFound? <==>
      caller == OWNER_ID && payId.Some? && credits.Some? &&
      forall j :: 0 <= j < |w.payments| ==> w.payments[j].id != payId.value
    ensures r.reply.PaymentApproved? <==>
      && caller == OWNER_ID && payId.Some? && credits.Some?
      && IndexOfId(w.payments, payId.value).Some?
      && w.payments[IndexOfId(w.payments, payId.value).value].status == Pending
    ensures r.reply.PaymentApproved? ==>
      var k := IndexOfId(w.payments, payId.value).value;
      && ApprovedAt(w, r.world, k, credits.value, now)
      && r.reply == PaymentApproved(w.payments[k].userId, credits.value)
  {
    if caller != OWNER_ID then Effect(w, ApproveIgnored)
    else if payId.None? || credits.None? then Effect(w, ApproveUsage)
    else match IndexOfId(w.payments, payId.value)
      case None => Effect(w, PaymentNotFound)
      case Some(k) =>
        var p := w.payments[k];
        if p.status != Pending then Effect(w, AlreadyProcessed)
        else
          var users := Ledger.Touch(w.users, p.userId);
          var done := p.(status := Approved, approvedCredits := Some(credits.value), approvedTs := Some(now));
          Effect(w.(users := Ledger.Credit(users, p.userId, credits.value), payments := w.payments[k := done]),
                 PaymentApproved(p.userId, credits.value))
  }

  /** A payment is credited at most once: after a successful approval, any
      later `/approve` of the same id changes nothing, and the owner is told
      it was already processed. */
  lemma ApproveAtMostOnce(w: World, id: string, c1: Option<int>, t1: int,
                          caller2: int, c2: Option<int>, t2: int)
    requires Approve(w, OWNER_ID, Some(id), c1, t1).reply.PaymentApproved?
    ensures var w1 := Approve(w, OWNER_ID, Some(id), c1, t1).world;
      && Approve(w1, caller2, Some(id), c2, t2).world == w1
      && (caller2 == OWNER_ID && c2.Some? ==> Approve(w1, caller2, Some(id), c2, t2).reply == AlreadyProcessed)
  {
    var w1 := Approve(w, OWNER_ID, Some(id), c1, t1).world;
    SameIdsSameIndex(w.payments, w1.payments, id);
  }

  /** The pending records of `ps`, in order (`[p for p in payments if p["status"] == "pending"]`). */
  function FilterPending(ps: seq<Payment>): (r: seq<Payment>)
    ensures |r| <= |ps|
    ensures forall i :: 0 <= i < |r| ==> r[i].status == Pending
  {
    if ps == [] then []
    else (if ps[0].status == Pending then [ps[0]] else []) + FilterPending(ps[1..])
  }

  /** The filter keeps every pending record, as often as it occurs, and nothing else. */
  lemma {:induction false} FilterPendingCounts(ps: seq<Payment>, p: Payment)
    ensures multiset(FilterPending(ps))[p] == if p.status == Pending then multiset(ps)[p] else 0
  {
    if ps != [] {
      assert ps == [ps[0]] + ps[1..];
      FilterPendingCounts(ps[1..], p);
    }
  }

  /** Newest first: timestamps never increase along the sequence. */
  ghost predicate NewestFirst(s: seq<Payment>)
  {
    forall i, j :: 0 <= i < j < |s| ==> s[i].ts >= s[j].ts
  }

  /** Place `p` before the first record that is not newer than it. */
  function InsertByTs(p: Payment, s: seq<Payment>): seq<Payment>
  {
    if s == [] then [p]
    else if p.ts >= s[0].ts then [p] + s
    else [s[0]] + InsertByTs(p, s[1..])
  }

  /** Insertion adds exactly `p`, and what comes first is `p` or what came first before. */
  lemma {:induction false} InsertByTsAddsOne(p: Payment, s: seq<Payment>)
    ensures var r := InsertByTs(p, s);
      && multiset(r) == multiset(s) + multiset{p}
      && |r| == |s| + 1
      && (r[0] == p || (s != [] && r[0] == s[0]))
  {
    if s != [] && p.ts < s[0].ts {
      InsertByTsAddsOne(p, s[1..]);
      assert s == [s[0]] + s[1..];
    }
  }

  /** Inserting into a newest-first sequence keeps it newest first. */
  lemma {:induction false} InsertByTsSorted(p: Payment, s: seq<Payment>)
    requires NewestFirst(s)
    ensures NewestFirst(InsertByTs(p, s))
  {
    if s != [] && p.ts < s[0].ts {
      var rest := InsertByTs(p, s[1..]);
      InsertByTsSorted(p, s[1..]);
      InsertByTsAddsOne(p, s[1..]);
      assert s[0].ts >= rest[0].ts;
      var r := [s[0]] + rest;
      forall i, j | 0 <= i < j < |r|
        ensures r[i].ts >= r[j].ts
      {
        if i == 0 {
          assert r[j] == rest[j - 1];
        } else {
          assert r[i] == rest[i - 1] && r[j] == rest[j - 1];
        }
      }
    }
  }

  /** `sorted(ps, key=lambda x: x["ts"], reverse=True)`. */
  function SortNewestFirst(s: seq<Payment>): seq<Payment>
  {
    if s == [] then [] else InsertByTs(s[0], SortNewestFirst(s[1..]))
  }

  /** The sort yields a newest-first permutation of its input. */
  lemma {:induction false} SortNewestFirstSound(s: seq<Payment>)
    ensures var r := SortNewestFirst(s);
      NewestFirst(r) && multiset(r) == multiset(s) && |r| == |s|
  {
    if s != [] {
      SortNewestFirstSound(s[1..]);
      InsertByTsAddsOne(s[0], SortNewestFirst(s[1..]));
      InsertByTsSorted(s[0], SortNewestFirst(s[1..]));
      assert s == [s[0]] + s[1..];
    }
  }

  /** The records stamped at time `t`, in their order in `s`. */
  function WithTs(s: seq<Payment>, t: int): seq<Payment>
  {
    if s == [] then []
    else (if s[0].ts == t then [s[0]] else []) + WithTs(s[1..], t)
  }

  /** Insertion puts `p` ahead of every record stamped at its own time and
      leaves the order among the others as it was. */
  lemma {:induction false} InsertByTsStable(p: Payment, s: seq<Payment>, t: int)
    ensures WithTs(InsertByTs(p, s), t) == (if p.ts == t then [p] else []) + WithTs(s, t)
  {
    if s == [] {
    } else if p.ts >= s[0].ts {
      assert ([p] + s)[1..] == s;
    } else {
      var rest := InsertByTs(p, s[1..]);
      InsertByTsStable(p, s[1..], t);
      assert ([s[0]] + rest)[1..] == rest;
      assert p.ts == t ==> s[0].ts != t;
    }
  }

  /** The sort is stable: records stamped at the same time keep their input
      order, as with Python's `sorted`. */
  lemma {:induction false} SortNewestFirstStable(s: seq<Payment>, t: int)
    ensures WithTs(SortNewestFirst(s), t) == WithTs(s, t)
  {
    if s != [] {
      SortNewestFirstStable(s[1..], t);
      InsertByTsStable(s[0], SortNewestFirst(s[1..]), t);
    }
  }

  /** The admin's "Pending Payments" listing: the pending records, newest
      first, at most twelve. */
  function PendingList(ps: seq<Payment>): seq<Payment>
  {
    var s := SortNewestFirst(FilterPending(ps));
    if |s| <= PENDING_LIST_LIMIT then s else s[..PENDING_LIST_LIMIT]
  }

  /** Every record the listing shows is a pending record of the queue, no
      pending record is shown more often than it occurs, the listing is
      newest first, and when there are at most twelve pending records it
      shows every one of them. */
  lemma PendingListSound(ps: seq<Payment>)
    ensures var r := PendingList(ps);
      && |r| == (if |FilterPending(ps)| <= PENDING_LIST_LIMIT then |FilterPending(ps)| else PENDING_LIST_LIMIT)
      && NewestFirst(r)
      && (forall i :: 0 <= i < |r| ==> r[i].status == Pending && r[i] in ps)
      && multiset(r) <= multiset(FilterPending(ps))
      && (|FilterPending(ps)| <= PENDING_LIST_LIMIT ==> multiset(r) == multiset(FilterPending(ps)))
  {
    var f := FilterPending(ps);
    var s := SortNewestFirst(f);
    SortNewestFirstSound(f);
    PendingListWithinPending(ps);
    PendingListShowsPending(ps);
  }

  /** Every record the listing shows is a pending record of the queue. */
  lemma PendingListShowsPending(ps: seq<Payment>)
    ensures var r := PendingList(ps);
      forall i :: 0 <= i < |r| ==> r[i].status == Pending && r[i] in ps
  {
    var r := PendingList(ps);
    PendingListWithinPending(ps);
    forall i | 0 <= i < |r|
      ensures r[i].status == Pending && r[i] in ps
    {
      var x := r[i];
      assert x in multiset(r);
      FilterPendingCounts(ps, x);
      assert multiset(ps)[x] > 0;
    }
  }

  /** The listing is a prefix of the sorted pending records, so it never
      shows a record more often than the queue holds it pending. */
  lemma PendingListWithinPending(ps: seq<Payment>)
    ensures multiset(PendingList(ps)) <= multiset(FilterPending(ps))
  {
    var s := SortNewestFirst(FilterPending(ps));
    SortNewestFirstSound(FilterPending(ps));
    var r := PendingList(ps);
    assert s == r + s[|r|..];
  }

  /** No pending record left out of the listing is newer than one it shows. */
  lemma PendingListShowsNewest(ps: seq<Payment>, p: Payment, i: int)
    requires p in ps && p.status == Pending
    requires p !in PendingList(ps)
    requires 0 <= i < |PendingList(ps)|
    ensures p.ts <= PendingList(ps)[i].ts
  {
    var f := FilterPending(ps);
    var s := SortNewestFirst(f);
    SortNewestFirstSound(f);
    var r := PendingList(ps);
    assert multiset(ps)[p] > 0;
    FilterPendingCounts(ps, p);
    assert multiset(f)[p] > 0;
    assert p in multiset(s);
    var j :| 0 <= j < |s| && s[j] == p;
    assert r == s[..|r|];
    assert r[i] == s[i];
  }
}
