/** The alert log: the seeded list of alerts, the acknowledge updater and the
    "Active" badge count. */
module Alerts {

  datatype AlertType = Critical | Warning | Info

  datatype Alert = Alert(
    id: string,
    kind: AlertType,
    message: string,
    timestamp: string,
    acknowledged: bool)

  /** The alerts the dashboard starts with. */
  const SeedAlerts: seq<Alert> := [
    Alert("1", Warning, "Soil moisture level below optimal range (45%)", "2 minutes ago", false),
    Alert("2", Critical, "Water level 1 critically low (15%)", "5 minutes ago", false),
    Alert("3", Info, "NPK analysis report generated successfully", "1 hour ago", true)
  ]

  /** No two entries of the log share an id. */
  ghost predicate UniqueIds(log: seq<Alert>) {
    forall i, j :: 0 <= i < j < |log| ==> log[i].id != log[j].id
  }

  /** `b` is `a` with at most its acknowledged flag changed. */
  predicate SameButFlag(a: Alert, b: Alert) {
    a.id == b.id && a.kind == b.kind && a.message == b.message && a.timestamp == b.timestamp
  }

  /** The body of the map callback: `a.id === id ? { ...a, acknowledged: true } : a`. */
  function AcknowledgeEntry(a: Alert, id: string): (b: Alert)
    ensures SameButFlag(a, b)
    ensures b.acknowledged == (a.acknowledged || a.id == id)
    ensures a.id != id ==> b == a
  {
    if a.id == id then a.(acknowledged := true) else a
  }

  /** Acknowledge every entry whose id is `id`. The log keeps its length and
      order; a matching entry becomes acknowledged and keeps its other fields;
      every other entry is left exactly as it was. Nothing is ever
      un-acknowledged. */
  function Acknowledge(log: seq<Alert>, id: string): (r: seq<Alert>)
    ensures |r| == |log|
    ensures forall i :: 0 <= i < |log| ==> SameButFlag(log[i], r[i])
    ensures forall i :: 0 <= i < |log| ==> r[i].acknowledged == (log[i].acknowledged || log[i].id == id)
    ensures forall i :: 0 <= i < |log| && log[i].id != id ==> r[i] == log[i]
  {
    if log == [] then [] else [AcknowledgeEntry(log[0], id)] + Acknowledge(log[1..], id)
  }

  /** Acknowledging twice is the same as acknowledging once. */
  lemma AcknowledgeIdempotent(log: seq<Alert>, id: string)
    ensures Acknowledge(Acknowledge(log, id), id) == Acknowledge(log, id)
  {
    var once := Acknowledge(log, id);
    var twice := Acknowledge(once, id);
    forall i | 0 <= i < |log| ensures twice[i] == once[i] {
    }
  }

  /** An id no entry carries is a silent no-op. */
  lemma AcknowledgeUnknownId(log: seq<Alert>, id: string)
    requires forall i :: 0 <= i < |log| ==> log[i].id != id
    ensures Acknowledge(log, id) == log
  {
  }

  /** Acknowledging two alerts gives the same log in either order. */
  lemma AcknowledgeCommutes(log: seq<Alert>, a: string, b: string)
    ensures Acknowledge(Acknowledge(log, a), b) == Acknowledge(Acknowledge(log, b), a)
  {
    var ab := Acknowledge(Acknowledge(log, a), b);
    var ba := Acknowledge(Acknowledge(log, b), a);
    forall i | 0 <= i < |log| ensures ab[i] == ba[i] {
    }
  }

  /** Acknowledging keeps the ids unique. */
  lemma AcknowledgeKeepsUniqueIds(log: seq<Alert>, id: string)
    requires UniqueIds(log)
    ensures UniqueIds(Acknowledge(log, id))
  {
  }

  /** `alerts.filter(a => !a.acknowledged)`: the unacknowledged alerts of the
      log. */
  function Active(log: seq<Alert>): (r: seq<Alert>)
    ensures |r| <= |log|
    ensures forall a :: a in r <==> a in log && !a.acknowledged
  {
    if log == [] then []
    else (if log[0].acknowledged then [] else [log[0]]) + Active(log[1..])
  }

  /** The number on the "Active" badge. */
  function ActiveCount(log: seq<Alert>): (n: nat)
    ensures n <= |log|
    ensures n == 0 <==> forall i :: 0 <= i < |log| ==> log[i].acknowledged
  {
    var r := Active(log);
    assert r != [] ==> r[0] in r;
    assert forall i :: 0 <= i < |log| && !log[i].acknowledged ==> log[i] in r;
    |r|
  }

  /** The positions of the unacknowledged entries. */
  ghost function PendingPositions(log: seq<Alert>): set<int> {
    set i | 0 <= i < |log| && !log[i].acknowledged
  }

  /** Filtering distributes over concatenation. */
  lemma {:induction false} ActiveAppend(a: seq<Alert>, b: seq<Alert>)
    ensures Active(a + b) == Active(a) + Active(b)
    decreases |a|
  {
    if a == [] {
      assert a + b == b;
    } else {
      var head := if a[0].acknowledged then [] else [a[0]];
      var ab := a + b;
      assert ab != [] && ab[0] == a[0] && ab[1..] == a[1..] + b;
      calc {
        Active(ab);
        head + Active(a[1..] + b);
        { ActiveAppend(a[1..], b); }
        head + (Active(a[1..]) + Active(b));
        (head + Active(a[1..])) + Active(b);
        Active(a) + Active(b);
      }
    }
  }

  /** Appending one alert adds its position to the pending positions exactly
      when it is unacknowledged. */
  lemma PendingPositionsSnoc(init: seq<Alert>, last: Alert)
    ensures PendingPositions(init + [last]) ==
      PendingPositions(init) + (if last.acknowledged then {} else {|init|})
  {
    var log := init + [last];
    forall i | 0 <= i < |init| ensures log[i] == init[i] {
    }
    assert log[|init|] == last;
  }

  /** The badge counts exactly the unacknowledged entries of the log. */
  lemma {:induction false} ActiveCountIsPending(log: seq<Alert>)
    ensures ActiveCount(log) == |PendingPositions(log)|
    decreases |log|
  {
    if log != [] {
      var init, last := log[..|log| - 1], log[|log| - 1];
      assert log == init + [last];
      ActiveAppend(init, [last]);
      assert Active([last]) == if last.acknowledged then [] else [last];
      ActiveCountIsPending(init);
      PendingPositionsSnoc(init, last);
      assert |init| !in PendingPositions(init);
    }
  }

  /** The number of unacknowledged entries whose id is `id`. */
  function PendingWithId(log: seq<Alert>, id: string): nat {
    if log == [] then 0
    else (if !log[0].acknowledged && log[0].id == id then 1 else 0) + PendingWithId(log[1..], id)
  }

  /** Acknowledging `id` lowers the badge by the number of unacknowledged
      entries carrying `id`, and by nothing else. */
  lemma {:induction false} AcknowledgeActiveCount(log: seq<Alert>, id: string)
    ensures ActiveCount(Acknowledge(log, id)) + PendingWithId(log, id) == ActiveCount(log)
    decreases |log|
  {
    if log != [] {
      AcknowledgeActiveCount(log[1..], id);
      assert Acknowledge(log, id)[1..] == Acknowledge(log[1..], id);
    }
  }

  /** Acknowledging never raises the badge. */
  lemma {:induction false} AcknowledgeNeverIncreasesActive(log: seq<Alert>, id: string)
    ensures ActiveCount(Acknowledge(log, id)) <= ActiveCount(log)
  {
    AcknowledgeActiveCount(log, id);
  }

  /** With unique ids, at most one pending entry carries a given id, and one
      does exactly when some unacknowledged entry has that id. */
  lemma {:induction false} PendingWithUniqueId(log: seq<Alert>, id: string)
    requires UniqueIds(log)
    ensures PendingWithId(log, id) == if exists i :: 0 <= i < |log| && log[i].id == id && !log[i].acknowledged then 1 else 0
    decreases |log|
  {
    if log != [] {
      PendingWithUniqueId(log[1..], id);
      if log[0].id == id {
        assert forall i :: 1 <= i < |log| ==> log[i].id != id;
        assert PendingWithId(log[1..], id) == 0;
      } else {
        if exists i :: 0 <= i < |log| && log[i].id == id && !log[i].acknowledged {
          var i :| 0 <= i < |log| && log[i].id == id && !log[i].acknowledged;
          assert log[1..][i - 1] == log[i];
        }
      }
    }
  }

  /** With unique ids, acknowledging an unacknowledged alert lowers the badge
      by exactly one; acknowledging anything else leaves it as it was. */
  lemma {:induction false} AcknowledgePendingDecrementsByOne(log: seq<Alert>, id: string)
    requires UniqueIds(log)
    ensures ActiveCount(Acknowledge(log, id)) ==
      if exists i :: 0 <= i < |log| && log[i].id == id && !log[i].acknowledged
      then ActiveCount(log) - 1 else ActiveCount(log)
  {
    AcknowledgeActiveCount(log, id);
    PendingWithUniqueId(log, id);
  }

  /** The seeded log has unique ids and shows two active alerts. */
  lemma SeedAlertsFacts()
    ensures UniqueIds(SeedAlerts)
    ensures ActiveCount(SeedAlerts) == 2
  {
    assert SeedAlerts[1..][1..][1..] == [];
  }
}
