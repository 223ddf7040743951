// Which databases run where (blockproducer/db_service_map.go): the databases by id and the
// per-node index of them, in front of a persistent store.

module ServiceMap {
  import opened Common

  type NodeID = string
  type DatabaseID = string

  // Of a service instance: its database and the servers of its peers.
  datatype Instance = Instance(id: DatabaseID, servers: seq<NodeID>)

  datatype Error = NoError | InvalidPeers | PersistFailed | NoSuchDatabase

  type DbMap = map<DatabaseID, Instance>
  type NodeMap = map<NodeID, set<DatabaseID>>

  datatype State = State(dbMap: DbMap, nodeMap: NodeMap, persisted: DbMap)

  predicate Lists(nm: NodeMap, n: NodeID, d: DatabaseID) {
    n in nm && d in nm[n]
  }

  predicate Serves(db: DbMap, n: NodeID, d: DatabaseID) {
    d in db && n in db[d].servers
  }

  // The per-node index says of every node exactly which databases it serves.
  ghost predicate Agree(s: State) {
    forall n, d :: Lists(s.nodeMap, n, d) <==> Serves(s.dbMap, n, d)
  }

  // ----- the operations -----

  function Mark(nm: NodeMap, servers: seq<NodeID>, d: DatabaseID): NodeMap
    decreases |servers|
  {
    if servers == [] then nm else
    var n := servers[|servers| - 1];
    var m := Mark(nm, servers[..|servers| - 1], d);
    m[n := (if n in m then m[n] else {}) + {d}]
  }

  function Unmark(nm: NodeMap, servers: seq<NodeID>, d: DatabaseID): NodeMap
    decreases |servers|
  {
    if servers == [] then nm else
    var n := servers[|servers| - 1];
    var m := Unmark(nm, servers[..|servers| - 1], d);
    if n in m then m[n := m[n] - {d}] else m
  }

  lemma {:induction false} MarkLists(nm: NodeMap, servers: seq<NodeID>, d: DatabaseID, n: NodeID, e: DatabaseID)
    ensures Lists(Mark(nm, servers, d), n, e) <==> Lists(nm, n, e) || (e == d && n in servers)
    decreases |servers|
  {
    if servers != [] {
      MarkLists(nm, servers[..|servers| - 1], d, n, e);
      assert servers == servers[..|servers| - 1] + [servers[|servers| - 1]];
    }
  }

  lemma {:induction false} UnmarkLists(nm: NodeMap, servers: seq<NodeID>, d: DatabaseID, n: NodeID, e: DatabaseID)
    ensures Lists(Unmark(nm, servers, d), n, e) <==> Lists(nm, n, e) && !(e == d && n in servers)
    decreases |servers|
  {
    if servers != [] {
      UnmarkLists(nm, servers[..|servers| - 1], d, n, e);
      assert servers == servers[..|servers| - 1] + [servers[|servers| - 1]];
    }
  }

  // Previous records go before new ones come, and the store is told last.
  function SetStep(s: State, meta: Instance, valid: bool, writes: bool): (State, Error) {
    if !valid then (s, InvalidPeers) else
    var nm := if meta.id in s.dbMap then Unmark(s.nodeMap, s.dbMap[meta.id].servers, meta.id) else s.nodeMap;
    var t := State(s.dbMap[meta.id := meta], Mark(nm, meta.servers, meta.id), s.persisted);
    if writes then (t.(persisted := t.persisted[meta.id := meta]), NoError) else (t, PersistFailed)
  }

  // A database only the store knows is taken into the map by id, and nowhere else.
  function GetStep(s: State, d: DatabaseID, answers: bool): (State, Option<Instance>) {
    if d in s.dbMap then (s, Some(s.dbMap[d])) else
    if answers && d in s.persisted then (s.(dbMap := s.dbMap[d := s.persisted[d]]), Some(s.persisted[d])) else (s, None)
  }

  function DeleteStep(s: State, d: DatabaseID, writes: bool): (State, Error) {
    var nm := if d in s.dbMap then Unmark(s.nodeMap, s.dbMap[d].servers, d) else s.nodeMap;
    var t := State(s.dbMap - {d}, nm, s.persisted);
    if writes then (t.(persisted := t.persisted - {d}), NoError) else (t, PersistFailed)
  }

  // Instances are kept under their own id.
  ghost predicate OwnId(db: DbMap) {
    forall d :: d in db ==> db[d].id == d
  }

  lemma SetAgrees(s: State, meta: Instance, valid: bool, writes: bool)
    requires Agree(s)
    ensures Agree(SetStep(s, meta, valid, writes).0)
    // the answer says whether the store has it
    ensures var (t, err) := SetStep(s, meta, valid, writes);
            && t.persisted == (if err == NoError then s.persisted[meta.id := meta] else s.persisted)
            && (err == InvalidPeers <==> !valid) && (err == InvalidPeers ==> t == s)
  {
    hide Mark, Unmark, Lists;
    var t := SetStep(s, meta, valid, writes).0;
    if valid {
      var nm := if meta.id in s.dbMap then Unmark(s.nodeMap, s.dbMap[meta.id].servers, meta.id) else s.nodeMap;
      forall n, d ensures Lists(t.nodeMap, n, d) <==> Serves(t.dbMap, n, d) {
        MarkLists(nm, meta.servers, meta.id, n, d);
        if meta.id in s.dbMap { UnmarkLists(s.nodeMap, s.dbMap[meta.id].servers, meta.id, n, d); }
        assert Lists(s.nodeMap, n, d) <==> Serves(s.dbMap, n, d);
      }
    }
  }

  lemma DeleteAgrees(s: State, id: DatabaseID, writes: bool)
    requires Agree(s)
    ensures Agree(DeleteStep(s, id, writes).0)
    ensures var (t, err) := DeleteStep(s, id, writes);
            t.persisted == if err == NoError then s.persisted - {id} else s.persisted
  {
    hide Unmark, Lists;
    var t := DeleteStep(s, id, writes).0;
    forall n, d ensures Lists(t.nodeMap, n, d) <==> Serves(t.dbMap, n, d) {
      if id in s.dbMap { UnmarkLists(s.nodeMap, s.dbMap[id].servers, id, n, d); }
      assert Lists(s.nodeMap, n, d) <==> Serves(s.dbMap, n, d);
    }
  }

  // A look-up keeps the agreement exactly when it does not take in a database with servers that
  // only the store knew.
  lemma GetAgreesIff(s: State, id: DatabaseID, answers: bool)
    requires Agree(s)
    ensures Agree(GetStep(s, id, answers).0) <==>
            id in s.dbMap || !answers || id !in s.persisted || s.persisted[id].servers == []
  {
    hide Lists;
    var t := GetStep(s, id, answers).0;
    if id !in s.dbMap && answers && id in s.persisted {
      forall n, d | d != id ensures Lists(t.nodeMap, n, d) <==> Serves(t.dbMap, n, d) {
        assert Lists(s.nodeMap, n, d) <==> Serves(s.dbMap, n, d);
      }
      forall n ensures !Lists(t.nodeMap, n, id) {
        assert Lists(s.nodeMap, n, id) <==> Serves(s.dbMap, n, id);
      }
      if s.persisted[id].servers != [] {
        assert Serves(t.dbMap, s.persisted[id].servers[0], id);
      }
    }
  }

  // ----- runs -----

  datatype Op = Set(meta: Instance, valid: bool, works: bool) | Get(id: DatabaseID, works: bool) | Delete(id: DatabaseID, works: bool)

  function Step(s: State, op: Op): State {
    match op
    case Set(meta, valid, works) => SetStep(s, meta, valid, works).0
    case Get(id, works) => GetStep(s, id, works).0
    case Delete(id, works) => DeleteStep(s, id, works).0
  }

  function Run(s: State, ops: seq<Op>): State
    decreases |ops|
  {
    if ops == [] then s else Run(Step(s, ops[0]), ops[1..])
  }

  // A store that takes every write and answers every read: memory is what it holds, and the
  // per-node index agrees with it throughout.
  lemma {:induction false} RunAgrees(s: State, ops: seq<Op>)
    requires Agree(s) && s.dbMap == s.persisted && forall op :: op in ops ==> op.works
    ensures Agree(Run(s, ops)) && Run(s, ops).dbMap == Run(s, ops).persisted
    ensures OwnId(s.dbMap) ==> OwnId(Run(s, ops).dbMap)
    decreases |ops|
  {
    hide Agree, Mark, Unmark;
    if ops != [] {
      match ops[0] {
        case Set(meta, valid, works) => SetAgrees(s, meta, valid, works);
        case Get(id, works) => GetAgreesIff(s, id, works);
        case Delete(id, works) => DeleteAgrees(s, id, works);
      }
      assert Step(s, ops[0]).dbMap == Step(s, ops[0]).persisted;
      RunAgrees(Step(s, ops[0]), ops[1..]);
    }
  }

  function Find(db: DbMap, d: DatabaseID): Option<Instance> {
    if d in db then Some(db[d]) else None
  }

  // What a look-up finds after these operations, told for one database alone: the last instance
  // set, or what the store has kept where memory has lost it.
  function Found(memory: Option<Instance>, kept: Option<Instance>, ops: seq<Op>, d: DatabaseID, works: bool): Option<Instance>
    decreases |ops|
  {
    if ops == [] then if memory.None? && works then kept else memory else
    var rest := ops[1..];
    match ops[0]
    case Set(meta, valid, w) =>
      if valid && meta.id == d then Found(Some(meta), if w then Some(meta) else kept, rest, d, works)
      else Found(memory, kept, rest, d, works)
    case Get(id, w) => Found(if id == d && w && memory.None? then kept else memory, kept, rest, d, works)
    case Delete(id, w) =>
      if id == d then Found(None, if w then None else kept, rest, d, works) else Found(memory, kept, rest, d, works)
  }

  lemma GetFinds(s: State, d: DatabaseID, works: bool)
    ensures GetStep(s, d, works).1 == Found(Find(s.dbMap, d), Find(s.persisted, d), [], d, works)
  {
  }

  lemma StepFinds(s: State, op: Op, d: DatabaseID)
    ensures var t, memory, kept := Step(s, op), Find(s.dbMap, d), Find(s.persisted, d);
            match op
            case Set(meta, valid, w) =>
              && Find(t.dbMap, d) == (if valid && meta.id == d then Some(meta) else memory)
              && Find(t.persisted, d) == (if valid && meta.id == d && w then Some(meta) else kept)
            case Get(id, w) => Find(t.dbMap, d) == (if id == d && w && memory.None? then kept else memory) && Find(t.persisted, d) == kept
            case Delete(id, w) =>
              && Find(t.dbMap, d) == (if id == d then None else memory)
              && Find(t.persisted, d) == (if id == d && w then None else kept)
  {
    hide Mark, Unmark;
  }

  // Whatever the store refuses in between, a look-up depends on the operations on that database
  // alone and gives this.
  lemma {:induction false} LookUpIs(s: State, ops: seq<Op>, d: DatabaseID, works: bool)
    ensures GetStep(Run(s, ops), d, works).1 == Found(Find(s.dbMap, d), Find(s.persisted, d), ops, d, works)
    decreases |ops|
  {
    hide Step, Find;
    if ops == [] {
      GetFinds(s, d, works);
    } else {
      StepFinds(s, ops[0], d);
      LookUpIs(Step(s, ops[0]), ops[1..], d, works);
    }
  }

  // A failed delete followed by a look-up leaves the two out of step.
  lemma FailedDeleteThenGet(s: State, id: DatabaseID)
    requires Agree(s) && s.dbMap == s.persisted && id in s.dbMap && s.dbMap[id].servers != []
    ensures !Agree(Run(s, [Delete(id, false), Get(id, true)]))
  {
    hide Agree, Unmark;
    var ops := [Delete(id, false), Get(id, true)];
    var t := DeleteStep(s, id, false).0;
    DeleteAgrees(s, id, false);
    GetAgreesIff(t, id, true);
    assert ops[1..] == [Get(id, true)] && ops[1..][1..] == [];
    assert Run(s, ops) == Run(t, ops[1..]) == Run(GetStep(t, id, true).0, []);
  }

  class DBServiceMap {
    var dbMap: DbMap
    var nodeMap: NodeMap
    var persisted: DbMap

    ghost function View(): State
      reads this
    {
      State(dbMap, nodeMap, persisted)
    }

    // Starts from what the store lists, in any order.
    constructor (persisted: DbMap, all: seq<Instance>)
      requires forall m :: m in all <==> m.id in persisted && persisted[m.id] == m
      requires OwnId(persisted)
      ensures Agree(View()) && dbMap == persisted == this.persisted
    {
      this.persisted := persisted;
      dbMap, nodeMap := map[], map[];
      new;
      var i := 0;
      while i < |all|
        invariant i <= |all| && Agree(View()) && this.persisted == persisted
        invariant forall m :: m in all[..i] ==> m.id in dbMap
        invariant forall d :: d in dbMap ==> d in persisted && dbMap[d] == persisted[d]
      {
        var meta := all[i];
        assert meta in all && all[..i + 1] == all[..i] + [meta];
        LoadAgrees(View(), meta);
        dbMap := dbMap[meta.id := meta];
        nodeMap := Enter(nodeMap, meta.servers, meta.id);
        i := i + 1;
      }
      assert all[..i] == all;
      forall d | d in persisted ensures d in dbMap { assert persisted[d] in all; }
    }

    method Set(meta: Instance, valid: bool, writes: bool) returns (err: Error)
      modifies this
      ensures (View(), err) == SetStep(old(View()), meta, valid, writes)
    {
      if !valid {
        return InvalidPeers;
      }
      if meta.id in dbMap {
        nodeMap := Remove(nodeMap, dbMap[meta.id].servers, meta.id);
      }
      dbMap := dbMap[meta.id := meta];
      nodeMap := Enter(nodeMap, meta.servers, meta.id);
      if !writes {
        return PersistFailed;
      }
      persisted := persisted[meta.id := meta];
      return NoError;
    }

    method Get(d: DatabaseID, answers: bool) returns (meta: Option<Instance>)
      modifies this
      ensures (View(), meta) == GetStep(old(View()), d, answers)
    {
      if d in dbMap {
        return Some(dbMap[d]);
      }
      if answers && d in persisted {
        dbMap := dbMap[d := persisted[d]];
        return Some(dbMap[d]);
      }
      return None;
    }

    method Delete(d: DatabaseID, writes: bool) returns (err: Error)
      modifies this
      ensures (View(), err) == DeleteStep(old(View()), d, writes)
    {
      if d in dbMap {
        nodeMap := Remove(nodeMap, dbMap[d].servers, d);
      }
      dbMap := dbMap - {d};
      if !writes {
        return PersistFailed;
      }
      persisted := persisted - {d};
      return NoError;
    }

    // As long as the two agree, these are all databases the node serves, each once.
    method GetDatabases(n: NodeID) returns (dbs: seq<Instance>)
      requires Agree(View()) && OwnId(dbMap)
      ensures forall m :: m in dbs <==> m.id in dbMap && dbMap[m.id] == m && n in m.servers
      ensures forall i, j :: 0 <= i < j < |dbs| ==> dbs[i].id != dbs[j].id
    {
      dbs := [];
      var rest := if n in nodeMap then nodeMap[n] else {};
      ghost var done: set<DatabaseID> := {};
      while rest != {}
        invariant forall d :: Lists(nodeMap, n, d) <==> d in rest || d in done
        invariant rest !! done
        invariant forall m :: m in dbs <==> m.id in done && m.id in dbMap && dbMap[m.id] == m
        invariant forall i, j :: 0 <= i < j < |dbs| ==> dbs[i].id != dbs[j].id
        decreases rest
      {
        var d :| d in rest;
        rest, done := rest - {d}, done + {d};
        if d in dbMap {
          assert forall i :: 0 <= i < |dbs| ==> dbs[i] in dbs;
          dbs := dbs + [dbMap[d]];
        }
      }
      forall m ensures m in dbs <==> m.id in dbMap && dbMap[m.id] == m && n in m.servers {
        assert Lists(nodeMap, n, m.id) <==> Serves(dbMap, n, m.id);
      }
    }
  }

  method Enter(nm: NodeMap, servers: seq<NodeID>, d: DatabaseID) returns (r: NodeMap)
    ensures r == Mark(nm, servers, d)
  {
    r := nm;
    var i := 0;
    while i < |servers|
      invariant i <= |servers| && r == Mark(nm, servers[..i], d)
    {
      var n := servers[i];
      assert servers[..i + 1][..i] == servers[..i];
      if n !in r {
        r := r[n := {}];
      }
      r := r[n := r[n] + {d}];
      i := i + 1;
    }
    assert servers[..i] == servers;
  }

  method Remove(nm: NodeMap, servers: seq<NodeID>, d: DatabaseID) returns (r: NodeMap)
    ensures r == Unmark(nm, servers, d)
  {
    r := nm;
    var i := 0;
    while i < |servers|
      invariant i <= |servers| && r == Unmark(nm, servers[..i], d)
    {
      assert servers[..i + 1][..i] == servers[..i];
      if servers[i] in r {
        r := r[servers[i] := r[servers[i]] - {d}];
      }
      i := i + 1;
    }
    assert servers[..i] == servers;
  }

  lemma LoadAgrees(s: State, meta: Instance)
    requires Agree(s) && (meta.id in s.dbMap ==> s.dbMap[meta.id] == meta)
    ensures Agree(State(s.dbMap[meta.id := meta], Mark(s.nodeMap, meta.servers, meta.id), s.persisted))
  {
    hide Mark, Lists;
    var t := State(s.dbMap[meta.id := meta], Mark(s.nodeMap, meta.servers, meta.id), s.persisted);
    forall n, d ensures Lists(t.nodeMap, n, d) <==> Serves(t.dbMap, n, d) {
      MarkLists(s.nodeMap, meta.servers, meta.id, n, d);
      assert Lists(s.nodeMap, n, d) <==> Serves(s.dbMap, n, d);
    }
  }
}
