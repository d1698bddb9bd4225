/** Callers of the job store: whatever they do with the jobs they hold, the store behaves as a
    plain map of values. */
module JobClient {
  import opened Model
  import opened JobStore

  /** What a caller may do; `k` picks one of the jobs it holds. */
  datatype Op =
    | Make(v: JobRecord)
    | Create(k: nat)
    | Get(id: JobId)
    | Update(k: nat)
    | Delete(id: JobId)
    | List
    | Scribble(k: nat, v: JobRecord)

  /** The value semantics: a map, and the values of the jobs held. */
  datatype View = View(stored: map<JobId, JobRecord>, held: seq<JobRecord>)

  ghost predicate OpStep(op: Op, s: View, t: View) {
    match op
    case Make(v) => t == s.(held := s.held + [v])
    case Create(k) =>
      t == if k < |s.held| && s.held[k].id !in s.stored then s.(stored := s.stored[s.held[k].id := s.held[k]]) else s
    case Get(id) => t == if id in s.stored then s.(held := s.held + [s.stored[id]]) else s
    case Update(k) =>
      t == if k < |s.held| && s.held[k].id in s.stored then s.(stored := s.stored[s.held[k].id := s.held[k]]) else s
    case Delete(id) => t == s.(stored := s.stored - {id})
    case List => exists listed :: IsListing(listed, s.stored) && t == s.(held := s.held + listed)
    case Scribble(k, v) => t == if k < |s.held| then s.(held := s.held[k := v]) else s
  }

  /** The heap looks like `view`, and no stored object can be reached from a held job. */
  ghost predicate Shows(store: MemoryStore, held: seq<Job>, view: View)
    reads store, store.repr, held, set j | j in held :: j.completedAt
  {
    && store.Valid() && store.Contents() == view.stored
    && Apart(held) && Hold(held, view.held) && Outside(store, held)
  }

  ghost predicate Outside(store: MemoryStore, held: seq<Job>)
    reads store, held
  {
    forall i :: 0 <= i < |held| ==> held[i].Reach() !! store.repr
  }

  ghost function Reachable(held: seq<Job>): set<object>
    reads held
  {
    set j, o | j in held && o in j.Reach() :: o
  }

  method DoScribble(store: MemoryStore, held: seq<Job>, ghost s: View, k: nat, v: JobRecord)
    requires Shows(store, held, s) && k < |held|
    modifies held[k].Reach()
    ensures Shows(store, held, s.(held := s.held[k := v]))
    ensures fresh(held[k].Reach() - old(held[k].Reach()))
  {
    held[k].Overwrite(v);
  }

  method DoList(store: MemoryStore, held: seq<Job>, ghost s: View) returns (more: seq<Job>, ghost t: View)
    requires Shows(store, held, s)
    ensures Shows(store, more, t) && OpStep(List, s, t)
    ensures fresh(Reachable(more) - Reachable(held))
  {
    var listed, values := store.List();
    more := held + listed;
    t := s.(held := s.held + values);
    Joined(held, s.held, listed, values);
    Around(store, held, listed);
    assert OpStep(List, s, t);
  }

  lemma {:induction false} Joined(a: seq<Job>, u: seq<JobRecord>, b: seq<Job>, v: seq<JobRecord>)
    requires Apart(a) && Apart(b) && Hold(a, u) && Hold(b, v)
    requires forall i, j :: 0 <= i < |a| && 0 <= j < |b| ==> a[i].Reach() !! b[j].Reach()
    ensures Apart(a + b) && Hold(a + b, u + v)
  {
  }

  lemma {:induction false} Around(store: MemoryStore, a: seq<Job>, b: seq<Job>)
    requires Outside(store, a) && Outside(store, b)
    ensures Outside(store, a + b)
    ensures Reachable(a + b) == Reachable(a) + Reachable(b)
  {
  }

  method DoGet(store: MemoryStore, held: seq<Job>, ghost s: View, id: JobId) returns (more: seq<Job>, ghost t: View)
    requires Shows(store, held, s)
    ensures Shows(store, more, t) && OpStep(Get(id), s, t)
    ensures fresh(Reachable(more) - Reachable(held))
  {
    more, t := held, s;
    var j := store.Get(id);
    if j.Some? {
      more := held + [j.value];
      t := s.(held := s.held + [s.stored[id]]);
    }
  }

  method DoStore(store: MemoryStore, held: seq<Job>, ghost s: View, op: Op) returns (ghost t: View)
    requires Shows(store, held, s) && (op.Create? || op.Update? || op.Delete?)
    modifies store
    ensures Shows(store, held, t) && OpStep(op, s, t)
    ensures fresh(store.repr - old(store.repr))
  {
    t := s;
    match op {
      case Create(k) =>
        if k < |held| {
          var ok := store.Create(held[k]);
          t := s.(stored := store.Contents());
        }
      case Update(k) =>
        if k < |held| {
          var ok := store.Update(held[k]);
          t := s.(stored := store.Contents());
        }
      case Delete(id) =>
        store.Delete(id);
        t := s.(stored := store.Contents());
    }
  }

  /** One operation. */
  method Perform(store: MemoryStore, held: seq<Job>, ghost s: View, op: Op) returns (more: seq<Job>, ghost t: View)
    requires Shows(store, held, s)
    modifies store, Reachable(held)
    ensures Shows(store, more, t) && OpStep(op, s, t)
    ensures fresh(store.repr - old(store.repr)) && fresh(Reachable(more) - old(Reachable(held)))
  {
    more, t := held, s;
    match op {
      case Make(v) =>
        var j := new Job(v);
        more := held + [j];
        t := s.(held := s.held + [v]);
      case Get(id) =>
        more, t := DoGet(store, held, s, id);
      case List =>
        more, t := DoList(store, held, s);
      case Scribble(k, v) =>
        if k < |held| {
          DoScribble(store, held, s, k, v);
          t := s.(held := s.held[k := v]);
        }
      case _ =>
        t := DoStore(store, held, s, op);
    }
  }

  /** `t` can follow from `s` by these operations under the value semantics. */
  ghost predicate Leads(s: View, ops: seq<Op>, t: View)
    decreases |ops|
  {
    if ops == [] then s == t else exists mid :: OpStep(ops[0], s, mid) && Leads(mid, ops[1..], t)
  }

  /** Any sequence of calls and scribbles: the heap shows a view that the value semantics gives,
      after every one of them. */
  method Script(store: MemoryStore, held: seq<Job>, ghost s: View, ops: seq<Op>) returns (last: seq<Job>, ghost t: View)
    requires Shows(store, held, s)
    modifies store, Reachable(held)
    ensures Shows(store, last, t) && Leads(s, ops, t)
    decreases |ops|
  {
    if ops == [] {
      return held, s;
    }
    var more, mid := Perform(store, held, s, ops[0]);
    last, t := Script(store, more, mid, ops[1..]);
  }

  /** Without `Create`, `Update` or `Delete` of an ID its stored value stays as it is, whatever
      is written into the jobs handed in or out. */
  lemma {:induction false} OnlyCallsChange(s: View, ops: seq<Op>, t: View, id: JobId)
    requires Leads(s, ops, t)
    requires forall i :: 0 <= i < |ops| ==> !ops[i].Create? && !ops[i].Update? && ops[i] != Delete(id)
    ensures (id in t.stored <==> id in s.stored) && (id in s.stored ==> t.stored[id] == s.stored[id])
    decreases |ops|
  {
    if ops != [] {
      var mid :| OpStep(ops[0], s, mid) && Leads(mid, ops[1..], t);
      OnlyCallsChange(mid, ops[1..], t, id);
    }
  }

  /** A script on a new store. */
  method Session(ops: seq<Op>) returns (store: MemoryStore, held: seq<Job>, ghost t: View)
    ensures Shows(store, held, t) && Leads(View(map[], []), ops, t)
  {
    store := new MemoryStore();
    held, t := Script(store, [], View(map[], []), ops);
  }
}
