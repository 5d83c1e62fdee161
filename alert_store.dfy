/** The alert store of backend/guardian.py: an in-memory list of alert
    records, numbered by position, listed newest first and cleared as a whole. */
module AlertStore {

  /** Creation time of an alert. The source stamps `datetime.now().isoformat()`;
      ISO-8601 strings from one local clock order exactly like the instants
      they name, so an integer tick stands for them here. */
  type Timestamp = int

  datatype AlertType = Text | Call
  datatype Severity = High | Medium | Low
  /** `add_alert` always writes "new"; `Reviewed` and `Dismissed` are values the
      field may hold, but no operation of the store sets them. */
  datatype Status = New | Reviewed | Dismissed

  datatype Alert = Alert(
    id: int,
    timestamp: Timestamp,
    kind: AlertType,
    content: string,
    reason: string,
    severity: Severity,
    status: Status)

  /** The record `add_alert` makes when the store holds s: numbered after s, marked new. */
  function NewAlert(s: seq<Alert>, kind: AlertType, content: string, reason: string,
                    now: Timestamp, severity: Severity): Alert
  {
    Alert(|s| + 1, now, kind, content, reason, severity, New)
  }

  /** The representation invariant of the store: the alert at position i has id i + 1. */
  predicate WellNumbered(s: seq<Alert>) {
    forall i :: 0 <= i < |s| ==> s[i].id == i + 1
  }

  /** Ids of a well-numbered store run 1, 2, ..., |s| in creation order. */
  lemma WellNumberedIds(s: seq<Alert>)
    requires WellNumbered(s)
    ensures forall i, j :: 0 <= i < j < |s| ==> s[i].id < s[j].id
    ensures forall i :: 0 <= i < |s| ==> 1 <= s[i].id <= |s|
  {
  }

  // ---------------------------------------------------------------------
  // Ordering: `sorted(alerts, key=timestamp, reverse=True)`
  // ---------------------------------------------------------------------

  /** Timestamps do not increase from front to back. */
  predicate NewestFirst(s: seq<Alert>) {
    forall i, j :: 0 <= i < j < |s| ==> s[i].timestamp >= s[j].timestamp
  }

  /** The alerts of s stamped t, in the order s has them. */
  function At(s: seq<Alert>, t: Timestamp): seq<Alert> {
    if s == [] then []
    else (if s[0].timestamp == t then [s[0]] else []) + At(s[1..], t)
  }

  /** Inserts x in front of the first alert that is not newer than it, so that
      x stays ahead of the alerts with its own timestamp. */
  function InsertNewestFirst(x: Alert, s: seq<Alert>): (r: seq<Alert>)
    requires NewestFirst(s)
    ensures NewestFirst(r)
    ensures multiset(r) == multiset(s) + multiset{x}
    ensures |r| == |s| + 1
    ensures r[0] == x || (s != [] && r[0] == s[0])
  {
    if s == [] || x.timestamp >= s[0].timestamp then [x] + s
    else
      assert s == [s[0]] + s[1..];
      [s[0]] + InsertNewestFirst(x, s[1..])
  }

  /** A stable sort of s by timestamp, newest first: Python's `sorted` with
      `reverse=True` keeps records with equal keys in their original order. */
  function SortNewestFirst(s: seq<Alert>): (r: seq<Alert>)
    ensures NewestFirst(r)
    ensures multiset(r) == multiset(s)
    ensures |r| == |s|
  {
    if s == [] then []
    else
      assert s == [s[0]] + s[1..];
      InsertNewestFirst(s[0], SortNewestFirst(s[1..]))
  }

  lemma {:induction false} AtConcat(a: seq<Alert>, b: seq<Alert>, t: Timestamp)
    ensures At(a + b, t) == At(a, t) + At(b, t)
  {
    if a == [] {
      assert a + b == b;
    } else {
      assert (a + b)[1..] == a[1..] + b;
      AtConcat(a[1..], b, t);
    }
  }

  lemma {:induction false} AtMember(s: seq<Alert>, t: Timestamp, x: Alert)
    ensures x in At(s, t) <==> x in s && x.timestamp == t
  {
    if s != [] {
      assert s == [s[0]] + s[1..];
      AtMember(s[1..], t, x);
    }
  }

  lemma AtHead(s: seq<Alert>)
    requires s != []
    ensures At(s, s[0].timestamp) != []
  {
  }

  /** Insertion keeps, for every timestamp, the alerts carrying it in order. */
  lemma {:induction false} InsertKeepsTies(x: Alert, s: seq<Alert>, t: Timestamp)
    requires NewestFirst(s)
    ensures At(InsertNewestFirst(x, s), t) == At([x] + s, t)
  {
    if s == [] || x.timestamp >= s[0].timestamp {
    } else {
      var rest := InsertNewestFirst(x, s[1..]);
      calc {
        At(InsertNewestFirst(x, s), t);
        At([s[0]] + rest, t);
        { AtConcat([s[0]], rest, t); }
        At([s[0]], t) + At(rest, t);
        { InsertKeepsTies(x, s[1..], t); }
        At([s[0]], t) + At([x] + s[1..], t);
        { AtConcat([x], s[1..], t); }
        At([s[0]], t) + At([x], t) + At(s[1..], t);
        // s[0] is strictly newer than x: at most one of them is stamped t
        At([x], t) + At([s[0]], t) + At(s[1..], t);
        { AtConcat([s[0]], s[1..], t); assert [s[0]] + s[1..] == s; }
        At([x], t) + At(s, t);
        { AtConcat([x], s, t); }
        At([x] + s, t);
      }
    }
  }

  /** The sort is stable: for each timestamp, the alerts carrying it keep their order. */
  lemma {:induction false} SortKeepsTies(s: seq<Alert>, t: Timestamp)
    ensures At(SortNewestFirst(s), t) == At(s, t)
  {
    if s != [] {
      var sorted := SortNewestFirst(s[1..]);
      InsertKeepsTies(s[0], sorted, t);
      AtConcat([s[0]], sorted, t);
      SortKeepsTies(s[1..], t);
      AtConcat([s[0]], s[1..], t);
      assert [s[0]] + s[1..] == s;
    }
  }

  /** Newest-first order together with the order within each timestamp
      determines a sequence: there is exactly one stable newest-first sort. */
  lemma {:induction false} NewestFirstUnique(a: seq<Alert>, b: seq<Alert>)
    requires NewestFirst(a) && NewestFirst(b)
    requires forall t :: At(a, t) == At(b, t)
    ensures a == b
  {
    if a == [] || b == [] {
      // one side empty: the other's first alert would be missing from its timestamp
      if a != [] {
        AtHead(a);
      } else if b != [] {
        AtHead(b);
      }
    } else {
      var ta, tb := a[0].timestamp, b[0].timestamp;
      AtMember(a, ta, a[0]);
      AtMember(b, ta, a[0]);
      AtMember(b, tb, b[0]);
      AtMember(a, tb, b[0]);
      assert ta == tb;
      assert At(a, ta) == [a[0]] + At(a[1..], ta);
      assert At(b, ta) == [b[0]] + At(b[1..], ta);
      assert a[0] == b[0] by {
        assert At(a, ta)[0] == At(b, ta)[0];
      }
      forall t
        ensures At(a[1..], t) == At(b[1..], t)
      {
        if t == ta {
          assert At(a[1..], t) == At(a, t)[1..];
          assert At(b[1..], t) == At(b, t)[1..];
        } else {
          assert At(a[1..], t) == At(a, t);
          assert At(b[1..], t) == At(b, t);
        }
      }
      NewestFirstUnique(a[1..], b[1..]);
      assert a == [a[0]] + a[1..];
      assert b == [b[0]] + b[1..];
    }
  }

  /** Any newest-first arrangement of s that keeps the order within each
      timestamp is the one SortNewestFirst computes. */
  lemma StableSortIsUnique(s: seq<Alert>, r: seq<Alert>)
    requires NewestFirst(r)
    requires forall t :: At(r, t) == At(s, t)
    ensures r == SortNewestFirst(s)
  {
    forall t ensures At(SortNewestFirst(s), t) == At(r, t) {
      SortKeepsTies(s, t);
    }
    NewestFirstUnique(r, SortNewestFirst(s));
  }

  /** Alerts stamped at strictly increasing times. */
  predicate Chronological(s: seq<Alert>) {
    forall i, j :: 0 <= i < j < |s| ==> s[i].timestamp < s[j].timestamp
  }

  function Reversed(s: seq<Alert>): (r: seq<Alert>)
    ensures |r| == |s|
    ensures forall i :: 0 <= i < |s| ==> r[i] == s[|s| - 1 - i]
  {
    if s == [] then [] else Reversed(s[1..]) + [s[0]]
  }

  lemma {:induction false} InsertOldest(x: Alert, s: seq<Alert>)
    requires NewestFirst(s)
    requires forall i :: 0 <= i < |s| ==> s[i].timestamp > x.timestamp
    ensures InsertNewestFirst(x, s) == s + [x]
  {
    if s != [] {
      InsertOldest(x, s[1..]);
      assert s == [s[0]] + s[1..];
    }
  }

  /** Alerts created at t1 < t2 < ... < tn are listed as [tn, ..., t2, t1]. */
  lemma {:induction false} ChronologicalListedReversed(s: seq<Alert>)
    requires Chronological(s)
    ensures SortNewestFirst(s) == Reversed(s)
  {
    if s != [] {
      ChronologicalListedReversed(s[1..]);
      var rest := Reversed(s[1..]);
      assert forall i :: 0 <= i < |rest| ==> rest[i].timestamp > s[0].timestamp;
      InsertOldest(s[0], rest);
    }
  }

  // ---------------------------------------------------------------------
  // The store
  // ---------------------------------------------------------------------

  /** `Guardian`: the alert list. The clock read of `add_alert` is the
      parameter `now`. */
  class Guardian {
    var alerts: seq<Alert>

    predicate Valid()
      reads this
    {
      WellNumbered(alerts)
    }

    constructor ()
      ensures Valid() && alerts == []
    {
      alerts := [];
    }

    /** `add_alert`: numbers the record after the alerts already stored,
        marks it new and appends it; nothing stored before changes. */
    method AddAlert(kind: AlertType, content: string, reason: string, now: Timestamp,
                    severity: Severity := High) returns (alert: Alert)
      modifies this
      ensures alert.id == |old(alerts)| + 1 && alert.timestamp == now
      ensures alert.kind == kind && alert.content == content && alert.reason == reason
      ensures alert.severity == severity && alert.status == New
      ensures alerts == old(alerts) + [alert]
      ensures old(Valid()) ==> Valid()
    {
      alert := NewAlert(alerts, kind, content, reason, now, severity);
      alerts := alerts + [alert];
    }

    /** `get_alerts`: a sorted copy, newest first, ties in creation order. */
    function GetAlerts(): (r: seq<Alert>)
      reads this
      ensures NewestFirst(r)
      ensures multiset(r) == multiset(alerts)
      ensures forall t :: At(r, t) == At(alerts, t)
    {
      assert forall t :: At(SortNewestFirst(alerts), t) == At(alerts, t) by {
        forall t ensures At(SortNewestFirst(alerts), t) == At(alerts, t) {
          SortKeepsTies(alerts, t);
        }
      }
      SortNewestFirst(alerts)
    }

    /** `clear_alerts`: whatever was stored, the store is empty afterwards,
        so clearing twice is clearing once, and the next alert gets id 1. */
    method ClearAlerts()
      modifies this
      ensures alerts == []
      ensures Valid()
    {
      alerts := [];
    }
  }
}
