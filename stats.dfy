/** The dashboard statistics: how many agents are in each of the five
    statuses, and each count as a rounded percentage of the roster. */
module Stats {
  import opened Agents

  datatype Bucket = Bucket(count: nat, percent: nat)

  datatype Dashboard = Dashboard(
    total: nat,
    available: Bucket,
    active: Bucket,
    wrapUp: Bucket,
    notReady: Bucket,
    offline: Bucket)

  /** The number of records whose status is exactly `status`. */
  function CountStatus(s: seq<Agent>, status: string): (n: nat)
    ensures n <= |s|
    ensures n == 0 <==> forall i :: 0 <= i < |s| ==> s[i].status != status
    ensures n == |s| <==> forall i :: 0 <= i < |s| ==> s[i].status == status
  {
    if s == [] then 0
    else (if s[0].status == status then 1 else 0) + CountStatus(s[1..], status)
  }

  /** `p` is `n` out of `total` as a whole percentage, rounded to the
      nearest integer with halves going up, and 0 when `total` is 0. */
  predicate RoundedShare(n: nat, total: nat, p: nat) {
    if total == 0 then p == 0
    else (2 * p - 1) * total <= 200 * n < (2 * p + 1) * total
  }

  /** The percentage shown for `n` agents out of `total`. */
  function Percent(n: nat, total: nat): (p: nat)
    ensures RoundedShare(n, total, p)
    ensures n <= total ==> p <= 100
  {
    if total > 0 then
      var p := (200 * n + total) / (2 * total);
      DivBounds(200 * n + total, 2 * total, p);
      p
    else 0
  }

  /** What integer division by `d` gives: `q * d <= x < (q + 1) * d`. */
  lemma DivBounds(x: nat, d: nat, q: nat)
    requires d > 0 && q == x / d
    ensures q * d <= x < (q + 1) * d
  {
    assert x == d * (x / d) + x % d;
  }

  /** One status's bucket: how many agents have it, and their rounded share. */
  function BucketOf(s: seq<Agent>, status: string): (b: Bucket)
    ensures b.count == CountStatus(s, status) && b.count <= |s|
    ensures RoundedShare(b.count, |s|, b.percent) && b.percent <= 100
    ensures s == [] ==> b == Bucket(0, 0)
  {
    var n := CountStatus(s, status);
    Bucket(n, Percent(n, |s|))
  }

  /** The statistics of a roster: each bucket is counted and rounded on its
      own, so the five percentages need not add up to 100. When every status
      is one of the five, the counts add up to the total. */
  function DashboardOf(s: seq<Agent>): (d: Dashboard)
    ensures d.total == |s|
    ensures d.available.count == CountStatus(s, Available)
    ensures d.active.count == CountStatus(s, Active)
    ensures d.wrapUp.count == CountStatus(s, WrapUp)
    ensures d.notReady.count == CountStatus(s, NotReady)
    ensures d.offline.count == CountStatus(s, Offline)
    ensures forall b :: b in [d.available, d.active, d.wrapUp, d.notReady, d.offline] ==>
      RoundedShare(b.count, |s|, b.percent) && b.percent <= 100
    ensures s == [] ==> d == Dashboard(0, Bucket(0, 0), Bucket(0, 0), Bucket(0, 0), Bucket(0, 0), Bucket(0, 0))
    ensures StatusesValid(s) ==> CountSum(d) == |s|
  {
    var d := Dashboard(|s|, BucketOf(s, Available), BucketOf(s, Active), BucketOf(s, WrapUp),
                       BucketOf(s, NotReady), BucketOf(s, Offline));
    if StatusesValid(s) then
      FiveCountsCoverAll(s);
      d
    else d
  }

  function CountSum(d: Dashboard): nat {
    d.available.count + d.active.count + d.wrapUp.count + d.notReady.count + d.offline.count
  }

  function PercentSum(d: Dashboard): nat {
    d.available.percent + d.active.percent + d.wrapUp.percent + d.notReady.percent + d.offline.percent
  }

  /** The five statuses are distinct, so a record is counted in one bucket. */
  lemma StatusesDistinct()
    ensures Available != Active && Available != WrapUp && Available != NotReady && Available != Offline
    ensures Active != WrapUp && Active != NotReady && Active != Offline
    ensures WrapUp != NotReady && WrapUp != Offline && NotReady != Offline
  {
    assert Available[1] != Active[1] && Available[1] != WrapUp[1];
    assert Available[0] != NotReady[0] && |Available| != |Offline|;
    assert |Active| != |WrapUp| && |Active| != |NotReady| && |Active| != |Offline|;
    assert WrapUp[0] != NotReady[0] && WrapUp[0] != Offline[0] && |NotReady| != |Offline|;
  }

  /** The five bucket counts added up, stated on the roster itself rather
      than through `DashboardOf`, so that the induction below does not also
      unfold the percentages and stays cheap to check. It equals
      `CountSum(DashboardOf(s))`. */
  function FiveCounts(s: seq<Agent>): nat {
    CountStatus(s, Available) + CountStatus(s, Active) + CountStatus(s, WrapUp) +
    CountStatus(s, NotReady) + CountStatus(s, Offline)
  }

  lemma {:induction false} FiveCountsCoverAll(s: seq<Agent>)
    requires StatusesValid(s)
    ensures FiveCounts(s) == |s|
  {
    if s != [] {
      var t := s[1..];
      assert StatusesValid(t) by {
        forall i | 0 <= i < |t| ensures IsValidStatus(t[i].status) {
          assert t[i] == s[i + 1];
        }
      }
      FiveCountsCoverAll(t);
      StatusesDistinct();
      var st := s[0].status;
      assert st in ValidStatuses;
      assert st == Available || st == Active || st == WrapUp || st == NotReady || st == Offline;
    }
  }

  /** When every status is one of the five, each agent falls in exactly
      one bucket, so the buckets add up to the roster size. */
  lemma BucketsSumToTotal(s: seq<Agent>)
    requires StatusesValid(s)
    ensures CountSum(DashboardOf(s)) == |s|
  {
    FiveCountsCoverAll(s);
  }

  /** Every percentage lies in 0..100, and all are 0 on an empty roster. */
  lemma PercentsInRange(s: seq<Agent>)
    ensures var d := DashboardOf(s);
      d.available.percent <= 100 && d.active.percent <= 100 && d.wrapUp.percent <= 100 &&
      d.notReady.percent <= 100 && d.offline.percent <= 100
    ensures s == [] ==> PercentSum(DashboardOf(s)) == 0 && CountSum(DashboardOf(s)) == 0
  {
  }

  /** On the three seed agents every occupied bucket shows 33%, so the
      percentages add up to 99, not 100. */
  lemma SeedDashboard()
    ensures DashboardOf(Seed()) ==
      Dashboard(3, Bucket(1, 33), Bucket(1, 33), Bucket(0, 0), Bucket(1, 33), Bucket(0, 0))
    ensures PercentSum(DashboardOf(Seed())) == 99
  {
    var s := Seed();
    assert s[1..][1..][1..] == [];
    assert CountStatus(s, Available) == 1;
    assert CountStatus(s, Active) == 1;
    assert CountStatus(s, WrapUp) == 0;
    assert CountStatus(s, NotReady) == 1;
    assert CountStatus(s, Offline) == 0;
  }
}
