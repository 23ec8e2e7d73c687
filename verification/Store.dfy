/** The store interface with its two implementations, and what every call on either keeps. */
module Stores {
  import opened Base
  import opened Budget
  import opened Request
  import opened Lifecycle
  import M = MemorySpec
  import P = PostgresSpec

  datatype Store = InMemory(mem: M.Mem) | Sql(db: P.Db) {
    function Core(): Request.Core {
      match this case InMemory(mem) => mem.core case Sql(db) => db.core
    }

    function SlotFor(tenant: string, key: string): Slot {
      match this case InMemory(_) => M.SlotOf(tenant, key) case Sql(_) => Pair(tenant, key)
    }

    /** The reservation a request still holds. */
    function Held(id: Id): Option<int64> {
      match this
      case InMemory(mem) => if id in mem.reservations then Some(mem.reservations[id]) else None
      case Sql(db) => if id in db.reservations && db.reservations[id].active then Some(db.reservations[id].amount) else None
    }

    /** The request never reserved anything, or no trace of it is left. */
    predicate Unreserved(id: Id) {
      match this case InMemory(mem) => id !in mem.reservations case Sql(db) => id !in db.reservations
    }
  }

  /** One call on either store. Only the SQL store can lose a connection. */
  ghost function Ask(s: Store, call: Call, ctx: Context, fault: P.Fault): (r: (Store, Reply)) {
    match s
    case InMemory(mem) => var (mem', reply) := M.Apply(mem, call, ctx); (InMemory(mem'), reply)
    case Sql(db) => var (db', reply) := P.Apply(db, call, ctx, fault); (Sql(db'), reply)
  }

  lemma PutIsLegal(c: Request.Core, id: Id, record: Record)
    requires id in c.requests && LegalUpdate(c.requests[id], record)
    ensures LegalStep(c, c.Put(id, record))
  {
  }

  lemma SameIsLegal(c: Request.Core)
    ensures LegalStep(c, c)
  {
  }

  lemma CreateIsLegal(c: Request.Core, slot: Slot, call: Call, ctx: Context)
    requires call.Create?
    ensures LegalStep(c, CreateOrGet(c, slot, call, ctx).0)
  {
  }

  lemma MemoryCallIsLegal(m: M.Mem, call: Call, ctx: Context)
    ensures LegalStep(m.core, M.Apply(m, call, ctx).0.core)
  {
    var c := m.core;
    var after := M.Apply(m, call, ctx).0.core;
    if call.Create? {
      CreateIsLegal(c, M.SlotOf(call.tenant, call.key), call, ctx);
    } else if after == c {
      SameIsLegal(c);
    } else {
      assert after == c.Put(call.id, after.requests[call.id]);
      PutIsLegal(c, call.id, after.requests[call.id]);
    }
  }

  lemma CommitIsLegal(db: P.Db, call: Call, ctx: Context)
    ensures LegalStep(db.core, P.Commit(db, call, ctx).0.core)
  {
    var c := db.core;
    var after := P.Commit(db, call, ctx).0.core;
    if call.Create? {
      CreateIsLegal(c, Pair(call.tenant, call.key), call, ctx);
      SameIsLegal(c);
    } else if after == c {
      SameIsLegal(c);
    } else {
      assert after == c.Put(call.id, after.requests[call.id]);
      PutIsLegal(c, call.id, after.requests[call.id]);
    }
  }

  /** Every call on either store, by whomever and with whatever arguments, is a legal lifecycle step. */
  lemma EveryCallIsLegal(s: Store, call: Call, ctx: Context, fault: P.Fault)
    ensures LegalStep(s.Core(), Ask(s, call, ctx, fault).0.Core())
  {
    match s
    case InMemory(mem) => MemoryCallIsLegal(mem, call, ctx);
    case Sql(db) => CommitIsLegal(db, call, ctx);
  }

  /** The store after a sequence of calls, oldest first. */
  datatype Asked = Asked(call: Call, ctx: Context, fault: P.Fault)

  ghost function StoresOf(s: Store, calls: seq<Asked>): (r: seq<Store>)
    ensures |r| == |calls| + 1 && r[0] == s
    ensures forall i :: 0 <= i < |calls| ==> r[i + 1] == Ask(r[i], calls[i].call, calls[i].ctx, calls[i].fault).0
  {
    if calls == [] then [s]
    else
      var init := StoresOf(s, calls[..|calls| - 1]);
      var last := calls[|calls| - 1];
      init + [Ask(init[|init| - 1], last.call, last.ctx, last.fault).0]
  }

  ghost function CoresOf(stores: seq<Store>): (r: seq<Request.Core>)
    ensures |r| == |stores| && forall i :: 0 <= i < |stores| ==> r[i] == stores[i].Core()
  {
    seq(|stores|, i requires 0 <= i < |stores| => stores[i].Core())
  }

  lemma EveryRunIsLegal(s: Store, calls: seq<Asked>)
    ensures LegalRun(CoresOf(StoresOf(s, calls)))
  {
    var run := StoresOf(s, calls);
    var cores := CoresOf(run);
    forall k | 0 <= k < |cores| - 1 ensures LegalStep(cores[k], cores[k + 1]) {
      EveryCallIsLegal(run[k], calls[k].call, calls[k].ctx, calls[k].fault);
    }
  }

  /**
   * In any run of calls on either store, the distinct states a request goes through from the moment it is stored
   * form a path of the transition table, of at most five states.
   */
  lemma StoredHistoryIsPath(s: Store, calls: seq<Asked>, from: nat, id: Id)
    requires from <= |calls| && id in StoresOf(s, calls)[from].Core().requests
    ensures var run := CoresOf(StoresOf(s, calls))[from..];
      && (forall k :: 0 <= k < |run| ==> id in run[k].requests)
      && Path(Compress(History(run, id))) && |Compress(History(run, id))| <= 5
  {
    var cores := CoresOf(StoresOf(s, calls));
    EveryRunIsLegal(s, calls);
    var run := cores[from..];
    forall k | 0 <= k < |run| ensures id in run[k].requests {
      RowsPersist(cores, from, from + k, id);
    }
    forall k | 0 <= k < |run| - 1 ensures LegalStep(run[k], run[k + 1]) {
      assert LegalStep(cores[from + k], cores[from + k + 1]);
    }
    HistoryIsPath(run, id);
  }

  predicate Finalising(call: Call) {
    || call.Complete? || call.Cancel? || call.Reject?
    || (call.Fail? && call.final)
    || (call.Transition? && Terminal(call.to))
  }

  function Target(call: Call): Id
    requires Finalising(call)
  {
    call.id
  }

  /** A finalising call succeeds exactly by closing its own open request. */
  lemma FinaliserClosesOpenRow(s: Store, call: Call, ctx: Context, fault: P.Fault)
    requires Finalising(call) && Ask(s, call, ctx, fault).1 == Done
    ensures var before, after := s.Core().requests, Ask(s, call, ctx, fault).0.Core().requests;
      && Target(call) in before && !Terminal(before[Target(call)].state)
      && Target(call) in after && Terminal(after[Target(call)].state)
  {
  }

  /**
   * Exclusive finalisation: in any run of calls on either store, at most one finalising
   * call for a request succeeds, and every later row of it is the one that call wrote.
   */
  lemma ExclusiveFinalisation(s: Store, calls: seq<Asked>, i: nat, j: nat)
    requires i < |calls| && j < |calls| && Finalising(calls[i].call) && Finalising(calls[j].call)
    requires Target(calls[i].call) == Target(calls[j].call)
    requires var run := StoresOf(s, calls);
      && Ask(run[i], calls[i].call, calls[i].ctx, calls[i].fault).1 == Done
      && Ask(run[j], calls[j].call, calls[j].ctx, calls[j].fault).1 == Done
    ensures i == j
    ensures var run := StoresOf(s, calls);
      forall k :: i < k <= |calls| ==>
        && Target(calls[i].call) in run[k].Core().requests
        && run[k].Core().requests[Target(calls[i].call)] == run[i + 1].Core().requests[Target(calls[i].call)]
  {
    var run := StoresOf(s, calls);
    var cores := CoresOf(run);
    EveryRunIsLegal(s, calls);
    var id := Target(calls[i].call);
    FinaliserClosesOpenRow(run[i], calls[i].call, calls[i].ctx, calls[i].fault);
    FinaliserClosesOpenRow(run[j], calls[j].call, calls[j].ctx, calls[j].fault);
    OneFinaliser(cores, i, j, id);
    forall k | i < k <= |calls|
      ensures id in run[k].Core().requests && run[k].Core().requests[id] == run[i + 1].Core().requests[id]
    {
      FinalRowFrozen(cores, i + 1, k, id);
    }
  }

  /** Tenants and keys are told apart by the SQL index, and by the joined key when no tenant contains a NUL. */
  lemma SlotsAreInjective(s: Store, t: string, k: string, t': string, k': string)
    requires s.SlotFor(t, k) == s.SlotFor(t', k')
    requires s.InMemory? ==> '\0' !in t && '\0' !in t'
    ensures t == t' && k == k'
  {
    if s.InMemory? {
      var joined := t + "\0" + k;
      assert joined == t' + "\0" + k';
      assert joined[|t|] == '\0' && joined[|t'|] == '\0';
      assert |t| == |t'|;
      assert t == joined[..|t|] && t' == joined[..|t'|];
      assert k == joined[|t| + 1..] && k' == joined[|t'| + 1..];
    }
  }

  lemma SplitAtNul(text: string, i: nat)
    requires i < |text| && text[i] == '\0'
    ensures M.SlotOf(text[..i], text[i + 1..]) == Joined(text)
  {
    assert text == text[..i] + "\0" + text[i + 1..];
  }

  ghost predicate Shared(t: string, k: string) {
    exists t', k' :: (t', k') != (t, k) && M.SlotOf(t', k') == M.SlotOf(t, k)
  }

  /** In memory, a tenant and key share their slot with another pair exactly when one of them contains a NUL. */
  lemma SlotIsSharedExactlyWithNul(t: string, k: string)
    ensures Shared(t, k) <==> '\0' in t || '\0' in k
  {
    var joined := t + "\0" + k;
    if i :| 0 <= i < |t| && t[i] == '\0' {
      SplitAtNul(joined, i);
      assert |joined[..i]| != |t|;
    } else if j :| 0 <= j < |k| && k[j] == '\0' {
      SplitAtNul(joined, |t| + 1 + j);
      assert |joined[..|t| + 1 + j]| != |t|;
    } else if Shared(t, k) {
      var t', k' :| (t', k') != (t, k) && M.SlotOf(t', k') == M.SlotOf(t, k);
      OnlyNulIsTheSeparator(t, k, t', k');
    }
  }

  lemma OnlyNulIsTheSeparator(t: string, k: string, t': string, k': string)
    requires '\0' !in t && '\0' !in k && M.SlotOf(t', k') == M.SlotOf(t, k)
    ensures t == t' && k == k'
  {
    var joined := t + "\0" + k;
    assert joined == t' + "\0" + k';
    assert joined[|t'|] == '\0';
    assert |t'| == |t|;
    assert t == joined[..|t|] && t' == joined[..|t'|];
    assert k == joined[|t| + 1..] && k' == joined[|t'| + 1..];
  }
}
