/**
  The agent dashboard's summary of the order list: the counters its
  `reduce` accumulates (total, pending, in progress, completed) and the
  colour a status badge gets. Both group statuses the same way, after
  lower-casing them.
 */
module Dashboard {
  import opened JsText
  import OrderLifecycle

  /** The group a status falls into, or none of the three. */
  datatype Bucket = PendingBucket | InProgressBucket | CompletedBucket | OtherBucket

  /** The `switch (status.toLowerCase())` shared by the counters and the badge colour. */
  function BucketOf(status: string): (b: Bucket)
    ensures b == PendingBucket <==> ToLower(status) == "pending"
    ensures b == InProgressBucket <==> ToLower(status) == "in_progress" || ToLower(status) == "processing"
    ensures b == CompletedBucket <==> ToLower(status) == "completed" || ToLower(status) == "delivered"
  {
    var s := ToLower(status);
    if s == "pending" then PendingBucket
    else if s == "in_progress" || s == "processing" then InProgressBucket
    else if s == "completed" || s == "delivered" then CompletedBucket
    else OtherBucket
  }

  /** The `{ total, pending, inProgress, completed }` accumulator. */
  datatype Stats = Stats(total: nat, pending: nat, inProgress: nat, completed: nat)

  /** How many of `statuses` fall into bucket `b`. */
  function CountIn(statuses: seq<string>, b: Bucket): (n: nat)
    ensures n <= |statuses|
  {
    if statuses == [] then 0
    else CountIn(statuses[..|statuses| - 1], b) + (if BucketOf(statuses[|statuses| - 1]) == b then 1 else 0)
  }

  /** The counters for a list of order statuses: one per order, plus one in its bucket. */
  function StatsOf(statuses: seq<string>): (st: Stats)
    ensures st.total == |statuses|
    ensures st.pending == CountIn(statuses, PendingBucket)
    ensures st.inProgress == CountIn(statuses, InProgressBucket)
    ensures st.completed == CountIn(statuses, CompletedBucket)
    ensures st.pending + st.inProgress + st.completed <= st.total
  {
    BucketsPartition(statuses);
    Stats(|statuses|, CountIn(statuses, PendingBucket), CountIn(statuses, InProgressBucket), CountIn(statuses, CompletedBucket))
  }

  /** The four buckets split the list: their counts add up to its length. */
  lemma {:induction false} BucketsPartition(statuses: seq<string>)
    ensures CountIn(statuses, PendingBucket) + CountIn(statuses, InProgressBucket)
            + CountIn(statuses, CompletedBucket) + CountIn(statuses, OtherBucket) == |statuses|
  {
    if statuses != [] {
      BucketsPartition(statuses[..|statuses| - 1]);
    }
  }

  /** Each order raises at most one of the three counters, so together they never exceed the total; the rest are unknown statuses. */
  lemma StatsWithinTotal(statuses: seq<string>)
    ensures var st := StatsOf(statuses);
            st.pending + st.inProgress + st.completed + CountIn(statuses, OtherBucket) == st.total
  {
    BucketsPartition(statuses);
  }

  /** The `reduce` over the orders: every order adds one to `total` and one to its bucket's counter. */
  method ComputeStats(statuses: seq<string>) returns (st: Stats)
    ensures st == StatsOf(statuses)
  {
    st := Stats(0, 0, 0, 0);
    var i := 0;
    while i < |statuses|
      invariant 0 <= i <= |statuses|
      invariant st == StatsOf(statuses[..i])
    {
      assert statuses[..i + 1][..i] == statuses[..i];
      match BucketOf(statuses[i]) {
        case PendingBucket => st := st.(total := st.total + 1, pending := st.pending + 1);
        case InProgressBucket => st := st.(total := st.total + 1, inProgress := st.inProgress + 1);
        case CompletedBucket => st := st.(total := st.total + 1, completed := st.completed + 1);
        case OtherBucket => st := st.(total := st.total + 1);
      }
      i := i + 1;
    }
    assert statuses[..i] == statuses;
  }

  /** `getStatusColor`: the badge classes for a status. */
  function StatusColor(status: string): (c: string)
    ensures c == ColorOf(BucketOf(status))
  {
    match ToLower(status)
    case "pending" => "bg-yellow-100 text-yellow-800"
    case "in_progress" => "bg-blue-100 text-blue-800"
    case "processing" => "bg-blue-100 text-blue-800"
    case "completed" => "bg-green-100 text-green-800"
    case "delivered" => "bg-green-100 text-green-800"
    case _ => "bg-gray-100 text-gray-800"
  }

  /** Yellow, blue, green, or gray for everything the counters do not group. */
  function ColorOf(b: Bucket): string {
    match b
    case PendingBucket => "bg-yellow-100 text-yellow-800"
    case InProgressBucket => "bg-blue-100 text-blue-800"
    case CompletedBucket => "bg-green-100 text-green-800"
    case OtherBucket => "bg-gray-100 text-gray-800"
  }

  /** Two statuses share a badge colour exactly when they share a counter. */
  lemma ColorMatchesBucket(s: string, t: string)
    ensures StatusColor(s) == StatusColor(t) <==> BucketOf(s) == BucketOf(t)
  {
  }

  /** The lookup ignores case: a status and its lower-cased form fall together. */
  lemma BucketIgnoresCase(status: string)
    ensures BucketOf(ToLower(status)) == BucketOf(status)
  {
    ToLowerIdempotent(status);
  }

  /** Every status the delivery flow derives is counted, in exactly the bucket its name suggests. */
  lemma DerivedStatusBuckets(s: OrderLifecycle.Status)
    ensures BucketOf(OrderLifecycle.StatusName(s)) != OtherBucket
    ensures BucketOf(OrderLifecycle.StatusName(s)) == match s
                                                    case Pending => PendingBucket
                                                    case InProgress => InProgressBucket
                                                    case Delivered => CompletedBucket
                                                    case Completed => CompletedBucket
  {
    var name := OrderLifecycle.StatusName(s);
    assert forall i :: 0 <= i < |name| ==> !('A' <= name[i] <= 'Z');
    ToLowerOfLower(name);
  }
}
