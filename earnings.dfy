/**
 * The instructor's earnings page: the successful payments for the instructor's
 * courses, newest first, summed into a total, grouped by course in the order a
 * course is first met, and cut to the ten most recent.
 */
module Earnings {
  import opened Common
  import opened AuthTypes
  import InstructorCoursesPage

  /**
   * A payment row as the query returns it, joined with its course's title and
   * instructor. The table order stands for the query's newest-first ordering.
   */
  datatype PaidRow = PaidRow(courseId: string, amount: int, status: string, title: string, instructorId: string)

  /** One entry of `byCourseMap`. */
  datatype Group = Group(courseId: string, title: string, amount: int, count: nat)

  datatype EarningsData = EarningsData(total: int, byCourse: seq<Group>, recent: seq<PaidRow>)

  const InitialEarnings := EarningsData(0, [], [])
  const RecentLimit: nat := 10

  /** The query: successful payments for this instructor's courses. */
  function PaidRows(table: seq<PaidRow>, instructorId: string): (ps: seq<PaidRow>)
    ensures forall p :: p in ps <==> p in table && p.status == "success" && p.instructorId == instructorId
  {
    FilterSpec(table, (p: PaidRow) => p.status == "success" && p.instructorId == instructorId);
    Filter(table, (p: PaidRow) => p.status == "success" && p.instructorId == instructorId)
  }

  function PaymentIds(ps: seq<PaidRow>): (ids: seq<string>)
    ensures |ids| == |ps| && forall i :: 0 <= i < |ps| ==> ids[i] == ps[i].courseId
  {
    seq(|ps|, i requires 0 <= i < |ps| => ps[i].courseId)
  }

  function PaymentAmounts(ps: seq<PaidRow>): (xs: seq<int>)
    ensures |xs| == |ps| && forall i :: 0 <= i < |ps| ==> xs[i] == ps[i].amount
  {
    seq(|ps|, i requires 0 <= i < |ps| => ps[i].amount)
  }

  /** `total`: the sum of the amounts, 0 without payments. */
  function Total(ps: seq<PaidRow>): int {
    Sum(PaymentAmounts(ps))
  }

  /** The position of the first `id` in `ids`, or `|ids|` when there is none. */
  function FirstIndex(ids: seq<string>, id: string): (k: nat)
    ensures k <= |ids|
    ensures k < |ids| ==> ids[k] == id
    ensures forall j :: 0 <= j < k ==> ids[j] != id
    decreases |ids|
  {
    if ids == [] then 0 else if ids[0] == id then 0 else 1 + FirstIndex(ids[1..], id)
  }

  /** The three postconditions of `FirstIndex` determine it. */
  lemma FirstIndexUnique(ids: seq<string>, id: string, k: nat)
    requires k <= |ids| && (k < |ids| ==> ids[k] == id)
    requires forall j :: 0 <= j < k ==> ids[j] != id
    ensures FirstIndex(ids, id) == k
  {
  }

  lemma FirstIndexAppend(ids: seq<string>, x: string, id: string)
    ensures id in ids ==> FirstIndex(ids + [x], id) == FirstIndex(ids, id)
    ensures id !in ids && id == x ==> FirstIndex(ids + [x], id) == |ids|
    ensures id !in ids && id != x ==> FirstIndex(ids + [x], id) == |ids| + 1
  {
    var k := FirstIndex(ids, id);
    if id in ids {
      assert k < |ids|;
      FirstIndexUnique(ids + [x], id, k);
    } else {
      assert k == |ids|;
      FirstIndexUnique(ids + [x], id, if id == x then |ids| else |ids| + 1);
    }
  }

  function Keys(gs: seq<Group>): (ks: seq<string>)
    ensures |ks| == |gs| && forall i :: 0 <= i < |gs| ==> ks[i] == gs[i].courseId
  {
    seq(|gs|, i requires 0 <= i < |gs| => gs[i].courseId)
  }

  function Counts(gs: seq<Group>): (xs: seq<int>)
    ensures |xs| == |gs| && forall i :: 0 <= i < |gs| ==> xs[i] == gs[i].count
  {
    seq(|gs|, i requires 0 <= i < |gs| => gs[i].count as int)
  }

  function Amounts(gs: seq<Group>): (xs: seq<int>)
    ensures |xs| == |gs| && forall i :: 0 <= i < |gs| ==> xs[i] == gs[i].amount
  {
    seq(|gs|, i requires 0 <= i < |gs| => gs[i].amount)
  }

  /** `byCourseMap[id].amount += amount; byCourseMap[id].count += 1`. */
  function Credit(g: Group, p: PaidRow): Group {
    g.(amount := g.amount + p.amount, count := g.count + 1)
  }

  /** One payment's step of the `forEach`: add to its course's entry, creating it first if needed. */
  function AddPayment(gs: seq<Group>, p: PaidRow): seq<Group> {
    var k := FirstIndex(Keys(gs), p.courseId);
    if k < |gs| then gs[k := Credit(gs[k], p)]
    else gs + [Group(p.courseId, p.title, p.amount, 1)]
  }

  /** `Object.values(byCourseMap)` after the `forEach` over `ps`. */
  function GroupsOf(ps: seq<PaidRow>): seq<Group>
    decreases |ps|
  {
    if ps == [] then [] else AddPayment(GroupsOf(ps[..|ps| - 1]), ps[|ps| - 1])
  }

  /** The key index of the entries: each key present maps to the position of its entry. */
  ghost predicate Indexed(gs: seq<Group>, index: map<string, nat>) {
    && (forall id :: id in index <==> id in Keys(gs))
    && (forall id :: id in index ==> index[id] == FirstIndex(Keys(gs), id))
  }

  /** The grouping loop, with the insertion-ordered object as a sequence of entries and a key index. */
  method GroupByCourse(ps: seq<PaidRow>) returns (groups: seq<Group>)
    ensures groups == GroupsOf(ps)
  {
    groups := [];
    var index: map<string, nat> := map[];
    var i := 0;
    while i < |ps|
      invariant 0 <= i <= |ps|
      invariant groups == GroupsOf(ps[..i])
      invariant Indexed(groups, index)
    {
      var p := ps[i];
      ghost var before, indexBefore := groups, index;
      var k: nat;
      if p.courseId in index {
        k := index[p.courseId];
        IndexedBound(groups, index, p.courseId);
      } else {
        k := |groups|;
        index := index[p.courseId := k];
        groups := groups + [Group(p.courseId, p.title, 0, 0)];
      }
      ghost var created := groups;
      groups := groups[k := Credit(groups[k], p)];
      GroupStep(ps, i, before, indexBefore, created, k, groups, index);
      i := i + 1;
    }
    assert ps[..|ps|] == ps;
  }

  lemma IndexedBound(gs: seq<Group>, index: map<string, nat>, id: string)
    requires Indexed(gs, index) && id in index
    ensures index[id] < |gs|
  {
  }

  /** One turn of the grouping loop keeps the entries equal to `GroupsOf` of the payments seen, and the index right. */
  lemma GroupStep(ps: seq<PaidRow>, i: nat, gs: seq<Group>, index: map<string, nat>,
                  created: seq<Group>, k: nat, gs': seq<Group>, index': map<string, nat>)
    requires i < |ps| && gs == GroupsOf(ps[..i]) && Indexed(gs, index)
    requires ps[i].courseId in index ==> k == index[ps[i].courseId] && created == gs && index' == index
    requires ps[i].courseId !in index ==>
      k == |gs| && created == gs + [Group(ps[i].courseId, ps[i].title, 0, 0)] && index' == index[ps[i].courseId := k]
    requires k < |created|
    requires gs' == created[k := Credit(created[k], ps[i])]
    ensures gs' == GroupsOf(ps[..i + 1]) && Indexed(gs', index')
  {
    var p := ps[i];
    assert ps[..i + 1][..i] == ps[..i];
    AddPaymentStep(gs, p);
    IndexStep(gs, p, index, index');
    assert GroupsOf(ps[..i + 1]) == AddPayment(GroupsOf(ps[..i]), p);
  }

  /** The key index after one payment: the new key, if any, points at the appended entry. */
  lemma IndexStep(gs: seq<Group>, p: PaidRow, index: map<string, nat>, index': map<string, nat>)
    requires Indexed(gs, index)
    requires index' == if p.courseId in index then index else index[p.courseId := |gs|]
    ensures Indexed(AddPayment(gs, p), index')
  {
    AddPaymentStep(gs, p);
    forall id | id in index'
      ensures index'[id] == FirstIndex(Keys(AddPayment(gs, p)), id)
    {
      FirstIndexAppend(Keys(gs), p.courseId, id);
    }
  }

  /** Replacing one element changes the sum by the difference. */
  lemma {:induction false} SumUpdate(xs: seq<int>, k: nat, v: int)
    requires k < |xs|
    ensures Sum(xs[k := v]) == Sum(xs) - xs[k] + v
    decreases |xs|
  {
    if k > 0 {
      assert xs[k := v][1..] == xs[1..][k - 1 := v];
      SumUpdate(xs[1..], k - 1, v);
    }
  }

  lemma AddPaymentKeys(gs: seq<Group>, p: PaidRow)
    ensures var k := FirstIndex(Keys(gs), p.courseId);
      k < |gs| ==> Keys(AddPayment(gs, p)) == Keys(gs)
    ensures var k := FirstIndex(Keys(gs), p.courseId);
      k == |gs| ==> Keys(AddPayment(gs, p)) == Keys(gs) + [p.courseId]
  {
  }

  /** The loop's two branches: an existing entry is updated in place, a new one is created empty and then updated. */
  lemma AddPaymentStep(gs: seq<Group>, p: PaidRow)
    ensures var k := FirstIndex(Keys(gs), p.courseId);
      k < |gs| ==> AddPayment(gs, p) == gs[k := Credit(gs[k], p)]
    ensures var k := FirstIndex(Keys(gs), p.courseId);
      var gs' := gs + [Group(p.courseId, p.title, 0, 0)];
      k == |gs| ==> AddPayment(gs, p) == gs'[k := Credit(gs'[k], p)]
    ensures p.courseId in Keys(gs) ==> Keys(AddPayment(gs, p)) == Keys(gs)
    ensures p.courseId !in Keys(gs) ==> Keys(AddPayment(gs, p)) == Keys(gs) + [p.courseId]
  {
    AddPaymentKeys(gs, p);
  }

  /** One payment adds one to the entries' counts and its amount to their amounts. */
  lemma AddPaymentSums(gs: seq<Group>, p: PaidRow)
    ensures Sum(Counts(AddPayment(gs, p))) == Sum(Counts(gs)) + 1
    ensures Sum(Amounts(AddPayment(gs, p))) == Sum(Amounts(gs)) + p.amount
  {
    var k := FirstIndex(Keys(gs), p.courseId);
    if k < |gs| {
      CreditSums(gs, k, p);
    } else {
      assert Counts(AddPayment(gs, p)) == Counts(gs) + [1];
      assert Amounts(AddPayment(gs, p)) == Amounts(gs) + [p.amount];
      SumAppend(Counts(gs), [1]);
      SumAppend(Amounts(gs), [p.amount]);
    }
  }

  lemma CreditSums(gs: seq<Group>, k: nat, p: PaidRow)
    requires k < |gs|
    ensures Sum(Counts(gs[k := Credit(gs[k], p)])) == Sum(Counts(gs)) + 1
    ensures Sum(Amounts(gs[k := Credit(gs[k], p)])) == Sum(Amounts(gs)) + p.amount
  {
    var gs' := gs[k := Credit(gs[k], p)];
    assert Counts(gs') == Counts(gs)[k := gs[k].count + 1];
    assert Amounts(gs') == Amounts(gs)[k := gs[k].amount + p.amount];
    SumUpdate(Counts(gs), k, gs[k].count + 1);
    SumUpdate(Amounts(gs), k, gs[k].amount + p.amount);
  }

  /** The entries' counts add up to the number of payments, their amounts to the total. */
  lemma {:induction false} GroupTotals(ps: seq<PaidRow>)
    ensures Sum(Counts(GroupsOf(ps))) == |ps|
    ensures Sum(Amounts(GroupsOf(ps))) == Total(ps)
    decreases |ps|
  {
    if ps != [] {
      var init, p := ps[..|ps| - 1], ps[|ps| - 1];
      GroupTotals(init);
      var gs := GroupsOf(init);
      assert PaymentAmounts(ps) == PaymentAmounts(init) + [p.amount];
      SumAppend(PaymentAmounts(init), [p.amount]);
      AddPaymentSums(gs, p);
    }
  }

  /**
   * There is one entry per distinct course id of the payments, and each entry's
   * title is that of the course's first (newest) payment.
   */
  lemma {:induction false} GroupKeys(ps: seq<PaidRow>)
    ensures forall id :: id in Keys(GroupsOf(ps)) <==> id in PaymentIds(ps)
    ensures forall i, j :: 0 <= i < j < |GroupsOf(ps)| ==> GroupsOf(ps)[i].courseId != GroupsOf(ps)[j].courseId
    ensures forall i :: 0 <= i < |GroupsOf(ps)| ==>
      var f := FirstIndex(PaymentIds(ps), GroupsOf(ps)[i].courseId);
      f < |ps| && GroupsOf(ps)[i].title == ps[f].title
    decreases |ps|
  {
    if ps != [] {
      var init, p := ps[..|ps| - 1], ps[|ps| - 1];
      GroupKeys(init);
      var gs := GroupsOf(init);
      assert PaymentIds(ps) == PaymentIds(init) + [p.courseId];
      AddPaymentKeys(gs, p);
      var gs' := GroupsOf(ps);
      forall i | 0 <= i < |gs'|
        ensures var f := FirstIndex(PaymentIds(ps), gs'[i].courseId);
          f < |ps| && gs'[i].title == ps[f].title
      {
        FirstIndexAppend(PaymentIds(init), p.courseId, gs'[i].courseId);
        if i < |gs| {
          assert gs'[i].courseId == gs[i].courseId && gs'[i].title == gs[i].title;
          assert gs[i].courseId in Keys(gs);
        }
      }
    }
  }

  /** `recent`: the ten newest payments, or all of them when there are fewer. */
  lemma RecentSpec(ps: seq<PaidRow>)
    ensures Take(ps, RecentLimit) <= ps
    ensures |Take(ps, RecentLimit)| == if |ps| < 10 then |ps| else 10
  {
  }

  /** The per-course label: "enrollment", pluralised exactly when the count exceeds one. */
  function EnrollmentLabel(count: nat): (text: string)
    ensures text == DecimalString(count) + " enrollment" || text == DecimalString(count) + " enrollments"
  {
    DecimalString(count) + " enrollment" + (if count > 1 then "s" else "")
  }

  lemma EnrollmentLabelSpec(count: nat)
    ensures EnrollmentLabel(count) == DecimalString(count) + " enrollments" <==> count > 1
  {
    var plain := DecimalString(count) + " enrollment";
    if count <= 1 {
      assert |EnrollmentLabel(count)| == |plain| < |plain + "s"|;
    }
  }

  class EarningsPage {
    var earnings: EarningsData
    var loadingData: bool

    constructor ()
      ensures earnings == InitialEarnings && loadingData
    {
      earnings, loadingData := InitialEarnings, true;
    }

    /**
     * `fetchEarnings`: a failed query is caught and leaves the earnings as they
     * were; otherwise total, groups and recent payments are replaced.
     */
    method FetchEarnings(table: seq<PaidRow>, queryFails: bool, instructorId: string)
      modifies this
      ensures queryFails ==> earnings == old(earnings)
      ensures !queryFails ==>
        var ps := PaidRows(table, instructorId);
        earnings == EarningsData(Total(ps), GroupsOf(ps), Take(ps, RecentLimit))
      ensures !loadingData
    {
      loadingData := true;
      if !queryFails {
        var ps := PaidRows(table, instructorId);
        var groups := GroupByCourse(ps);
        earnings := EarningsData(Total(ps), groups, Take(ps, RecentLimit));
      }
      loadingData := false;
    }

    /** The page's effect: the shared gate, fetching the earnings when it says so. */
    method OnAuth(loading: bool, user: Option<AuthUser>, role: Option<string>, table: seq<PaidRow>, queryFails: bool)
      returns (e: InstructorCoursesPage.GateEffect)
      modifies this
      ensures e == InstructorCoursesPage.PageEffect(loading, user, role)
      ensures e.Load? ==> !loadingData && (queryFails ==> earnings == old(earnings))
      ensures e.Load? && !queryFails ==>
        var ps := PaidRows(table, user.value.id);
        earnings == EarningsData(Total(ps), GroupsOf(ps), Take(ps, RecentLimit))
      ensures !e.Load? ==> earnings == old(earnings) && loadingData == old(loadingData)
    {
      e := InstructorCoursesPage.PageEffect(loading, user, role);
      if e.Load? {
        FetchEarnings(table, queryFails, user.value.id);
      }
    }
  }
}
