/** At-least-once delivery with exactly-once effects: duplicates and order leave no trace in the projected tables. */
module Replay {
  import opened Base
  import opened Request
  import opened PostgresSpec

  function Deliver(requests: map<Id, Record>, p: Projection, consumer: string, ds: seq<Envelope>): Projection {
    if ds == [] then p else Project(requests, Deliver(requests, p, consumer, ds[..|ds| - 1]), consumer, ds[|ds| - 1]).0
  }

  /** Deliveries of one fact all carry the same fact. */
  predicate Coherent(ds: seq<Envelope>) {
    forall j, k :: 0 <= j < k < |ds| && ds[j].id == ds[k].id ==> ds[j] == ds[k]
  }

  predicate Seen(ds: seq<Envelope>, id: EventId) {
    exists k :: 0 <= k < |ds| && ds[k].id == id
  }

  /** The deliveries whose fact was not delivered before. */
  function Firsts(ds: seq<Envelope>): (r: seq<Envelope>) {
    if ds == [] then [] else
      var init, last := ds[..|ds| - 1], ds[|ds| - 1];
      if Seen(init, last.id) then Firsts(init) else Firsts(init) + [last]
  }

  lemma {:induction false} FirstsKeepTheSet(ds: seq<Envelope>)
    requires Coherent(ds)
    ensures forall e :: e in Firsts(ds) <==> e in ds
    ensures forall j, k :: 0 <= j < k < |Firsts(ds)| ==> Firsts(ds)[j].id != Firsts(ds)[k].id
  {
    if ds != [] {
      var init, last := ds[..|ds| - 1], ds[|ds| - 1];
      FirstsKeepTheSet(init);
      assert ds == init + [last];
      if Seen(init, last.id) {
        assert last in init;
      } else {
        forall j | 0 <= j < |Firsts(init)| ensures Firsts(init)[j].id != last.id {
          assert Firsts(init)[j] in init;
        }
      }
    }
  }

  /** The consumer takes the fact in, whenever it comes. */
  predicate Acceptable(requests: map<Id, Record>, e: Event) {
    Valid(e) && (e.fact.UsageRecorded? ==> Chargeable(requests, e))
  }

  /** The fact leaves its trace when it is acceptable and the consumer has not seen it before the deliveries. */
  predicate News(requests: map<Id, Record>, p: Projection, consumer: string, env: Envelope) {
    Acceptable(requests, env.event) && (consumer, env.id) !in p.markers
  }

  ghost function NewIds(requests: map<Id, Record>, p: Projection, consumer: string, ds: seq<Envelope>): set<EventId> {
    set e | e in ds && News(requests, p, consumer, e) :: e.id
  }

  ghost function NewCharges(requests: map<Id, Record>, p: Projection, consumer: string, ds: seq<Envelope>): set<(string, EventId)> {
    set e | e in ds && News(requests, p, consumer, e) && e.event.fact.UsageRecorded? :: (e.event.tenant, e.id)
  }

  // The delivered set alone decides every table: old rows stay, and each new fact adds its rows.

  ghost predicate Marked(requests: map<Id, Record>, p: Projection, consumer: string, ds: seq<Envelope>, q: Projection) {
    forall m :: m in q.markers <==> m in p.markers || (m.0 == consumer && m.1 in NewIds(requests, p, consumer, ds))
  }

  ghost predicate Audited(requests: map<Id, Record>, p: Projection, consumer: string, ds: seq<Envelope>, q: Projection) {
    && q.audit.Keys == p.audit.Keys + NewIds(requests, p, consumer, ds)
    && (forall i :: i in p.audit ==> q.audit[i] == p.audit[i])
    && (forall e :: e in ds && News(requests, p, consumer, e) && e.id !in p.audit ==> q.audit[e.id] == e.event)
  }

  ghost predicate Charged(requests: map<Id, Record>, p: Projection, consumer: string, ds: seq<Envelope>, q: Projection) {
    && q.ledger.Keys == p.ledger.Keys + NewCharges(requests, p, consumer, ds)
    && (forall k :: k in p.ledger ==> q.ledger[k] == p.ledger[k])
    && (forall e :: e in ds && News(requests, p, consumer, e) && e.event.fact.UsageRecorded? && (e.event.tenant, e.id) !in p.ledger ==>
          q.ledger[(e.event.tenant, e.id)] == RowOf(e.event))
  }

  lemma OneMore(requests: map<Id, Record>, p: Projection, consumer: string, ds: seq<Envelope>, last: Envelope)
    ensures NewIds(requests, p, consumer, ds + [last])
         == NewIds(requests, p, consumer, ds) + if News(requests, p, consumer, last) then {last.id} else {}
    ensures NewCharges(requests, p, consumer, ds + [last])
         == NewCharges(requests, p, consumer, ds)
          + if News(requests, p, consumer, last) && last.event.fact.UsageRecorded? then {(last.event.tenant, last.id)} else {}
  {
  }

  /** Before the last delivery: its marker is there exactly if it is not news, or was among the deliveries. */
  lemma MarkerTells(requests: map<Id, Record>, p: Projection, consumer: string, ds: seq<Envelope>, last: Envelope, q: Projection)
    requires Marked(requests, p, consumer, ds, q) && forall e :: e in ds && e.id == last.id ==> e == last
    ensures (consumer, last.id) in q.markers <==>
            (consumer, last.id) in p.markers || (last in ds && News(requests, p, consumer, last))
  {
  }

  lemma MarkedExtends(requests: map<Id, Record>, p: Projection, consumer: string, ds: seq<Envelope>, last: Envelope, q: Projection)
    requires Marked(requests, p, consumer, ds, q) && forall e :: e in ds && e.id == last.id ==> e == last
    ensures Marked(requests, p, consumer, ds + [last], Project(requests, q, consumer, last).0)
  {
    OneMore(requests, p, consumer, ds, last);
    MarkerTells(requests, p, consumer, ds, last, q);
  }

  lemma AuditStays(requests: map<Id, Record>, p: Projection, consumer: string, ds: seq<Envelope>, last: Envelope, q: Projection)
    requires Audited(requests, p, consumer, ds, q) && (News(requests, p, consumer, last) ==> last in ds)
    ensures Audited(requests, p, consumer, ds + [last], q)
  {
    OneMore(requests, p, consumer, ds, last);
  }

  lemma AuditGains(requests: map<Id, Record>, p: Projection, consumer: string, ds: seq<Envelope>, last: Envelope, q: Projection, q': Projection)
    requires Audited(requests, p, consumer, ds, q) && News(requests, p, consumer, last)
    requires forall e :: e in ds && e.id == last.id ==> e == last
    requires q'.audit == if last.id in q.audit then q.audit else q.audit[last.id := last.event]
    ensures Audited(requests, p, consumer, ds + [last], q')
  {
    OneMore(requests, p, consumer, ds, last);
  }

  lemma AuditedExtends(requests: map<Id, Record>, p: Projection, consumer: string, ds: seq<Envelope>, last: Envelope, q: Projection)
    requires Marked(requests, p, consumer, ds, q) && forall e :: e in ds && e.id == last.id ==> e == last
    requires Audited(requests, p, consumer, ds, q)
    ensures Audited(requests, p, consumer, ds + [last], Project(requests, q, consumer, last).0)
  {
    MarkerTells(requests, p, consumer, ds, last, q);
    var (q', outcome) := Project(requests, q, consumer, last);
    if outcome == Applied {
      AuditGains(requests, p, consumer, ds, last, q, q');
    } else {
      AuditStays(requests, p, consumer, ds, last, q);
    }
  }

  lemma ChargedExtends(requests: map<Id, Record>, p: Projection, consumer: string, ds: seq<Envelope>, last: Envelope, q: Projection)
    requires Marked(requests, p, consumer, ds, q) && forall e :: e in ds && e.id == last.id ==> e == last
    requires Charged(requests, p, consumer, ds, q)
    ensures Charged(requests, p, consumer, ds + [last], Project(requests, q, consumer, last).0)
  {
    OneMore(requests, p, consumer, ds, last);
    MarkerTells(requests, p, consumer, ds, last, q);
  }

  ghost predicate Traced(requests: map<Id, Record>, p: Projection, consumer: string, ds: seq<Envelope>, q: Projection) {
    Marked(requests, p, consumer, ds, q) && Audited(requests, p, consumer, ds, q) && Charged(requests, p, consumer, ds, q)
  }

  lemma {:induction false} DeliveryIsTraced(requests: map<Id, Record>, p: Projection, consumer: string, ds: seq<Envelope>)
    requires Coherent(ds)
    ensures Traced(requests, p, consumer, ds, Deliver(requests, p, consumer, ds))
  {
    if ds != [] {
      var init, last := ds[..|ds| - 1], ds[|ds| - 1];
      var q := Deliver(requests, p, consumer, init);
      DeliveryIsTraced(requests, p, consumer, init);
      assert ds == init + [last];
      MarkedExtends(requests, p, consumer, init, last, q);
      AuditedExtends(requests, p, consumer, init, last, q);
      ChargedExtends(requests, p, consumer, init, last, q);
    }
  }

  lemma TraceIsUnique(requests: map<Id, Record>, p: Projection, consumer: string, ds: seq<Envelope>, ds': seq<Envelope>, q: Projection, q': Projection)
    requires forall e :: e in ds <==> e in ds'
    requires Traced(requests, p, consumer, ds, q) && Traced(requests, p, consumer, ds', q')
    ensures q == q'
  {
    assert NewIds(requests, p, consumer, ds) == NewIds(requests, p, consumer, ds');
    assert NewCharges(requests, p, consumer, ds) == NewCharges(requests, p, consumer, ds');
    assert q.markers == q'.markers;
    SameAudit(requests, p, consumer, ds, ds', q, q');
    SameLedger(requests, p, consumer, ds, ds', q, q');
  }

  lemma SameAudit(requests: map<Id, Record>, p: Projection, consumer: string, ds: seq<Envelope>, ds': seq<Envelope>, q: Projection, q': Projection)
    requires (forall e :: e in ds <==> e in ds') && NewIds(requests, p, consumer, ds) == NewIds(requests, p, consumer, ds')
    requires Audited(requests, p, consumer, ds, q) && Audited(requests, p, consumer, ds', q')
    ensures q.audit == q'.audit
  {
  }

  lemma SameLedger(requests: map<Id, Record>, p: Projection, consumer: string, ds: seq<Envelope>, ds': seq<Envelope>, q: Projection, q': Projection)
    requires (forall e :: e in ds <==> e in ds') && NewCharges(requests, p, consumer, ds) == NewCharges(requests, p, consumer, ds')
    requires Charged(requests, p, consumer, ds, q) && Charged(requests, p, consumer, ds', q')
    ensures q.ledger == q'.ledger
  {
  }

  /** What the tables hold depends only on the set of facts delivered, not on order or repetition. */
  lemma DeliveryDependsOnTheSet(requests: map<Id, Record>, p: Projection, consumer: string, ds: seq<Envelope>, ds': seq<Envelope>)
    requires Coherent(ds) && Coherent(ds') && forall e :: e in ds <==> e in ds'
    ensures Deliver(requests, p, consumer, ds) == Deliver(requests, p, consumer, ds')
  {
    DeliveryIsTraced(requests, p, consumer, ds);
    DeliveryIsTraced(requests, p, consumer, ds');
    TraceIsUnique(requests, p, consumer, ds, ds', Deliver(requests, p, consumer, ds), Deliver(requests, p, consumer, ds'));
  }

  /** Replaying with duplicates is replaying first occurrences only. */
  lemma ReplayEquivalence(requests: map<Id, Record>, p: Projection, consumer: string, ds: seq<Envelope>)
    requires Coherent(ds)
    ensures Deliver(requests, p, consumer, ds) == Deliver(requests, p, consumer, Firsts(ds))
  {
    FirstsKeepTheSet(ds);
    DeliveryDependsOnTheSet(requests, p, consumer, ds, Firsts(ds));
  }
}
