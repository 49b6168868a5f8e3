/** The layers table and the SQL transactions that write it.

    A transaction is open, with the writes made through it so far; a statement the server
    refuses aborts it, and a commit ends it for good. The table has two keys: `digest` (unique) and `id`
    (primary); an insert whose digest is taken only refreshes `updated_at`. */
module LayerStore {
  import opened Prelude

  datatype LayerRow = LayerRow(
    id: string, digest: string, mediaType: string, dfsLink: string, size: int,
    createdAt: nat, updatedAt: nat)

  datatype Write = Upsert(row: LayerRow, at: nat) | Remove(digest: string)

  datatype Txn = Open(writes: seq<Write>) | Aborted | Committed | RolledBack

  /** Rows by digest: the unique key. */
  type Table = map<string, LayerRow>

  /** Failures of the database, chosen by the environment for each request. */
  datatype SqlFaults = SqlFaults(newTxnFails: bool, write: Statement, commitFails: bool)

  predicate IdTaken(layers: Table, id: string) {
    exists d :: d in layers && layers[d].id == id
  }

  /** `insert ... on conflict (digest) do update set updated_at = at`. */
  function Apply(layers: Table, w: Write): Table {
    match w
    case Upsert(row, at) =>
      if row.digest in layers then layers[row.digest := layers[row.digest].(updatedAt := at)]
      else layers[row.digest := row]
    case Remove(d) => layers - {d}
  }

  function ApplyAll(layers: Table, writes: seq<Write>): Table {
    if writes == [] then layers
    else Apply(ApplyAll(layers, writes[..|writes| - 1]), writes[|writes| - 1])
  }

  /** A transaction's handle is its position in `txns`. */
  datatype Store = Store(layers: Table, txns: seq<Txn>)
  {
    function NewTxn(fails: bool): (Store, Option<nat>) {
      if fails then (this, None) else (this.(txns := txns + [Open([])]), Some(|txns|))
    }

    predicate IsOpen(t: nat) {
      t < |txns| && txns[t].Open?
    }

    /** The table as seen from inside transaction `t`. */
    function View(t: nat): Table
      requires IsOpen(t)
    {
      ApplyAll(layers, txns[t].writes)
    }

    /** A new digest with a taken primary key. */
    predicate BreaksKey(t: nat, w: Write)
      requires IsOpen(t)
    {
      w.Upsert? && w.row.digest !in View(t) && IdTaken(View(t), w.row.id)
    }

    /** A statement run in transaction `t`. After a refused one the server takes no more
        statements in that transaction. */
    function Exec(t: nat, w: Write, f: Statement): (Store, bool) {
      if !IsOpen(t) || f.Unsent? then (this, false)
      else if f.Refused? || BreaksKey(t, w) then (this.(txns := txns[t := Aborted]), false)
      else (this.(txns := txns[t := Open(txns[t].writes + [w])]), true)
    }

    /** A transaction is finished by its first commit, whether that works or not. */
    function Commit(t: nat, fails: bool): (Store, bool) {
      if !IsOpen(t) then (this, false)
      else if fails then (this.(txns := txns[t := RolledBack]), false)
      else (Store(View(t), txns[t := Committed]), true)
    }
  }

  class RegistryStore {
    var layers: Table
    var txns: seq<Txn>

    ghost function State(): Store
      reads this
    {
      Store(layers, txns)
    }

    constructor ()
      ensures State() == Store(map[], [])
    {
      layers, txns := map[], [];
    }

    method NewTxn(fails: bool) returns (txn: Option<nat>)
      modifies this
      ensures (State(), txn) == old(State()).NewTxn(fails)
    {
      if fails {
        return None;
      }
      txn := Some(|txns|);
      txns := txns + [Open([])];
    }

    method Exec(txn: nat, w: Write, f: Statement) returns (ok: bool)
      modifies this
      ensures (State(), ok) == old(State()).Exec(txn, w, f)
    {
      if txn >= |txns| || !txns[txn].Open? || f.Unsent? {
        return false;
      }
      var view := ApplyAll(layers, txns[txn].writes);
      if f.Refused? || (w.Upsert? && w.row.digest !in view && exists d :: d in view && view[d].id == w.row.id) {
        txns := txns[txn := Aborted];
        return false;
      }
      txns := txns[txn := Open(txns[txn].writes + [w])];
      ok := true;
    }

    method SetLayer(txn: nat, l: LayerRow, now: nat, f: Statement) returns (ok: bool)
      modifies this
      ensures (State(), ok) == old(State()).Exec(txn, Upsert(l, now), f)
    {
      ok := Exec(txn, Upsert(l, now), f);
    }

    method DeleteLayerByDigestWithTxn(txn: nat, digest: string, f: Statement) returns (ok: bool)
      modifies this
      ensures (State(), ok) == old(State()).Exec(txn, Remove(digest), f)
    {
      ok := Exec(txn, Remove(digest), f);
    }

    method Commit(txn: nat, fails: bool) returns (ok: bool)
      modifies this
      ensures (State(), ok) == old(State()).Commit(txn, fails)
    {
      if txn >= |txns| || !txns[txn].Open? {
        return false;
      }
      if fails {
        txns := txns[txn := RolledBack];
        return false;
      }
      layers := ApplyAll(layers, txns[txn].writes);
      txns := txns[txn := Committed];
      ok := true;
    }

    method GetLayer(digest: string) returns (row: Option<LayerRow>)
      ensures row == Find(State().layers, digest)
    {
      row := if digest in layers then Some(layers[digest]) else None;
    }
  }

  /** The primary key, over the whole table. */
  ghost predicate UniqueIds(layers: Table) {
    forall d, e :: d in layers && e in layers && layers[d].id == layers[e].id ==> d == e
  }

  ghost predicate KeyedByDigest(layers: Table) {
    forall d :: d in layers ==> layers[d].digest == d
  }

  /** An accepted write leaves both keys intact. */
  lemma ApplyKeepsKeys(layers: Table, w: Write)
    requires UniqueIds(layers) && KeyedByDigest(layers)
    requires w.Upsert? ==> w.row.digest in layers || !IdTaken(layers, w.row.id)
    ensures UniqueIds(Apply(layers, w)) && KeyedByDigest(Apply(layers, w))
  {
  }

  lemma ApplyAllSnoc(layers: Table, writes: seq<Write>, w: Write)
    ensures ApplyAll(layers, writes + [w]) == Apply(ApplyAll(layers, writes), w)
  {
    assert (writes + [w])[..|writes|] == writes;
  }

  /** So does every statement a transaction accepts, as the transaction sees the table. */
  lemma ExecKeepsKeys(s: Store, t: nat, w: Write, f: Statement)
    requires s.IsOpen(t) && UniqueIds(s.View(t)) && KeyedByDigest(s.View(t))
    requires s.Exec(t, w, f).1
    ensures var after := s.Exec(t, w, f).0;
      && after.IsOpen(t)
      && after.View(t) == Apply(s.View(t), w)
      && UniqueIds(after.View(t))
      && KeyedByDigest(after.View(t))
  {
    ApplyAllSnoc(s.layers, s.txns[t].writes, w);
    ApplyKeepsKeys(s.View(t), w);
  }

  /** What a statement does to the table: an upsert of a known digest stamps its row with the
      time of the statement and keeps the rest of it; a new digest gets the row; a delete takes
      the row away. No other row changes. */
  lemma ApplyMeans(layers: Table, w: Write, d: string)
    ensures var target := if w.Upsert? then w.row.digest else w.digest;
      Find(Apply(layers, w), d) ==
        if d != target then Find(layers, d)
        else if w.Remove? then None
        else if d in layers then Some(layers[d].(updatedAt := w.at))
        else Some(w.row)
  {
  }

  /** A transaction that is over refuses statements and commits, and nothing changes. */
  lemma OverMeansOver(s: Store, t: nat, w: Write, f: Statement, fails: bool)
    requires !s.IsOpen(t)
    ensures s.Exec(t, w, f) == (s, false) && s.Commit(t, fails) == (s, false)
  {
  }
}
