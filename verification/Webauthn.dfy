/** Registration with a security key: one SQL transaction per username is held open across
    HTTP requests, replaced on re-begin, committed on finish and rolled back by a sweep.

    The functions on `Server` values are the specification; class `WebauthnServer` is the
    program, proved to compute exactly them. */
module Webauthn {
  import opened Prelude
  import opened P2P

  const TXN_TIMEOUT: nat := 60 * SECOND

  datatype User = User(id: string, username: string, email: string)

  /** An open transaction holds the user it would insert; once the server has refused a
      statement in it, it answers no more. */
  datatype Txn = Open(pending: Option<User>, refused: bool) | Committed | RolledBack

  datatype Meta = Meta(expiresAt: nat, txn: nat)

  datatype BeginFaults = BeginFaults(
    newTxnFails: bool, lookupFails: bool, addUser: Statement, serviceFails: bool, cleanupFails: bool,
    rollbackFails: bool)

  datatype FinishFaults = FinishFaults(
    readFails: bool, sessionFails: bool, verifyFails: bool, writeFails: bool, commitFails: bool)

  datatype Event =
    | Begin(at: nat, username: string, email: string, validEmail: bool, newId: string, begin: BeginFaults)
    | Finish(at: nat, username: string, credentialId: string, finish: FinishFaults)
    | Rollback(at: nat, username: string, rollbackFails: bool)
    | Sweep(at: nat)
    | SignUp(at: nat, user: User)

  /** `time.Unix()` comparison of the sweep: due as soon as the second is reached. */
  predicate Due(now: nat, expiresAt: nat) {
    Unix(expiresAt) <= Unix(now)
  }

  predicate EmailTaken(users: map<string, User>, email: string) {
    exists k :: k in users && users[k].email == email
  }

  /** Durable users by username; credentials (id to owner) and registration sessions are
      written outside the transactions; `txnStore` is the server's in-memory map. */
  datatype Server = Server(
    users: map<string, User>,
    credentials: map<string, string>,
    sessions: set<string>,
    txns: seq<Txn>,
    txnStore: map<string, Meta>)
  {
    predicate IsOpen(t: nat) {
      t < |txns| && txns[t].Open?
    }

    function Ended(t: nat): Server {
      if IsOpen(t) then this.(txns := txns[t := RolledBack]) else this
    }

    /** A row some open transaction has inserted: a second insert of its username or email
        waits for that transaction, and fails when the request gives up. */
    predicate InFlight(username: string, email: string) {
      exists t :: 0 <= t < |txns| && txns[t].Open? && txns[t].pending.Some?
                  && (txns[t].pending.value.username == username || txns[t].pending.value.email == email)
    }

    predicate MayInsert(user: User) {
      && user.username !in users
      && !EmailTaken(users, user.email)
      && !InFlight(user.username, user.email)
    }

    /** A new transaction, stored under `username`. */
    function Begun(at: nat, username: string): Server {
      this.(txns := txns + [Open(None, false)], txnStore := txnStore[username := Meta(at + TXN_TIMEOUT, |txns|)])
    }

    function WithPending(t: nat, user: User): Server
      requires t < |txns|
    {
      this.(txns := txns[t := Open(Some(user), false)])
    }

    function WithRefused(t: nat): Server
      requires t < |txns|
    {
      this.(txns := txns[t := Open(None, true)])
    }

    /** invalidateExistingRequests */
    function Invalidated(username: string): Server {
      if username in txnStore then Ended(txnStore[username].txn) else this
    }

    function BeginRegistration(at: nat, username: string, email: string, validEmail: bool, newId: string,
                               f: BeginFaults)
      : (Server, nat)
    {
      if !validEmail then (this, 400)
      else
        var s := Invalidated(username);
        if f.newTxnFails then (s, 400)
        else
          var t := |s.txns|;
          var begun := s.Begun(at, username);
          var user := User(newId, username, email);
          if f.lookupFails || EmailTaken(users, email) then (begun, 400)
          else if f.addUser.Unsent? then (begun, 400)
          else if f.addUser.Refused? || !begun.MayInsert(user) then (begun.WithRefused(t), 400)
          else
            var added := begun.WithPending(t, user);
            if !f.serviceFails then (added.(sessions := sessions + {newId}), 200)
            else if f.cleanupFails then (added, 500)
            else (added.(sessions := sessions - {newId}).Ended(t), 500)
    }

    /** The user of that name as transaction `t` sees it. */
    function UserInTxn(t: nat, username: string): Option<User>
      requires IsOpen(t)
    {
      if txns[t].refused then None
      else if txns[t].pending.Some? && txns[t].pending.value.username == username then txns[t].pending
      else Find(users, username)
    }

    function Committing(t: nat): Server
      requires IsOpen(t)
    {
      this.(users := if txns[t].pending.Some? then users[txns[t].pending.value.username := txns[t].pending.value]
                     else users,
            txns := txns[t := Committed])
    }

    /** The credential is written before, and outside, the transaction that is committed. */
    function FinishRegistration(username: string, credentialId: string, f: FinishFaults): (Server, nat) {
      if username !in txnStore then (this, 400)
      else
        var t := txnStore[username].txn;
        if !IsOpen(t) || f.readFails || UserInTxn(t, username).None? then (Ended(t), 400)
        else
          var user := UserInTxn(t, username).value;
          if f.sessionFails || user.id !in sessions || f.verifyFails || f.writeFails || credentialId in credentials
          then (Ended(t), 400)
          else
            var stored := this.(credentials := credentials[credentialId := user.id]);
            if f.commitFails then (stored.Ended(t), 500) else (stored.Committing(t), 200)
    }

    /** A rollback ends the transaction even when the server cannot be told. */
    function RollbackRegistration(username: string, rollbackFails: bool): (Server, nat) {
      if username !in txnStore then (this, 200)
      else
        var t := txnStore[username].txn;
        (Ended(t), if IsOpen(t) && !rollbackFails then 200 else 500)
    }

    predicate Stale(at: nat, t: nat) {
      exists k :: k in txnStore && Due(at, txnStore[k].expiresAt) && txnStore[k].txn == t
    }

    function Swept(at: nat): Server {
      this.(txns := seq(|txns|, t requires 0 <= t < |txns| =>
                          if txns[t].Open? && Stale(at, t) then RolledBack else txns[t]),
            txnStore := map k | k in txnStore && !Due(at, txnStore[k].expiresAt) :: txnStore[k])
    }
  }

  function Init(): Server {
    Server(map[], map[], {}, [], map[])
  }

  /** A sign-up by another route writes the same users table. */
  function Step(s: Server, e: Event): (Server, nat) {
    match e
    case Begin(at, username, email, validEmail, newId, f) =>
      s.BeginRegistration(at, username, email, validEmail, newId, f)
    case Finish(_, username, credentialId, f) => s.FinishRegistration(username, credentialId, f)
    case Rollback(_, username, fails) => s.RollbackRegistration(username, fails)
    case Sweep(at) => (s.Swept(at), 0)
    case SignUp(_, user) => if s.MayInsert(user) then (s.(users := s.users[user.username := user]), 0) else (s, 0)
  }

  datatype Run = Boot | Then(before: Run, event: Event)

  function Exec(r: Run): Server {
    match r
    case Boot => Init()
    case Then(p, e) => Step(Exec(p), e).0
  }

  function Reply(r: Run): nat
    requires r.Then?
  {
    Step(Exec(r.before), r.event).1
  }

  // ---------- the program ----------

  class WebauthnServer {
    var users: map<string, User>
    var credentials: map<string, string>
    var sessions: set<string>
    var txns: seq<Txn>
    var txnStore: map<string, Meta>

    function State(): Server
      reads this
    {
      Server(users, credentials, sessions, txns, txnStore)
    }

    constructor ()
      ensures State() == Init()
    {
      users, credentials, sessions, txns, txnStore := map[], map[], {}, [], map[];
    }

    /** `txn.Rollback()`: an error, and no effect, on a finished transaction. */
    method RollbackTxn(t: nat, fails: bool) returns (ok: bool)
      modifies this`txns
      ensures State() == old(State()).Ended(t) && ok == (old(State()).IsOpen(t) && !fails)
    {
      if t >= |txns| || !txns[t].Open? {
        return false;
      }
      txns := txns[t := RolledBack];
      ok := !fails;
    }

    method InvalidateExistingRequests(username: string)
      modifies this`txns
      ensures State() == old(State()).Invalidated(username)
    {
      if username in txnStore {
        var _ := RollbackTxn(txnStore[username].txn, false);
      }
    }

    method BeginRegistration(at: nat, username: string, email: string, validEmail: bool, newId: string,
                             f: BeginFaults)
      returns (status: nat)
      modifies this
      ensures (State(), status) == Step(old(State()), Begin(at, username, email, validEmail, newId, f))
    {
      if !validEmail {
        return 400;
      }
      InvalidateExistingRequests(username);
      if f.newTxnFails {
        return 400;
      }
      var txn := |txns|;
      txns := txns + [Open(None, false)];
      txnStore := txnStore[username := Meta(at + TXN_TIMEOUT, txn)];
      if f.lookupFails || EmailTaken(users, email) {
        return 400;
      }
      var user := User(newId, username, email);
      if f.addUser.Unsent? {
        return 400;
      }
      if f.addUser.Refused? || !State().MayInsert(user) {
        txns := txns[txn := Open(None, true)];
        return 400;
      }
      txns := txns[txn := Open(Some(user), false)];
      if f.serviceFails {
        if f.cleanupFails {
          return 500;
        }
        sessions := sessions - {newId};
        var ended := RollbackTxn(txn, f.rollbackFails);
        if !ended {
          return 500;
        }
        return 500;
      }
      sessions := sessions + {newId};
      status := 200;
    }

    method FinishRegistration(at: nat, username: string, credentialId: string, f: FinishFaults)
      returns (status: nat)
      modifies this
      ensures (State(), status) == Step(old(State()), Finish(at, username, credentialId, f))
    {
      if username !in txnStore {
        return 400;
      }
      var txn := txnStore[username].txn;
      if !State().IsOpen(txn) || f.readFails || State().UserInTxn(txn, username).None? {
        var _ := RollbackTxn(txn, false);
        return 400;
      }
      var user := State().UserInTxn(txn, username).value;
      if f.sessionFails || user.id !in sessions || f.verifyFails || f.writeFails || credentialId in credentials {
        var _ := RollbackTxn(txn, false);
        return 400;
      }
      credentials := credentials[credentialId := user.id];
      if f.commitFails {
        var _ := RollbackTxn(txn, false);
        return 500;
      }
      var pending := txns[txn].pending;
      if pending.Some? {
        users := users[pending.value.username := pending.value];
      }
      txns := txns[txn := Committed];
      status := 200;
    }

    method RollbackRegistration(at: nat, username: string, fails: bool) returns (status: nat)
      modifies this
      ensures (State(), status) == Step(old(State()), Rollback(at, username, fails))
    {
      if username !in txnStore {
        return 200;
      }
      var ok := RollbackTxn(txnStore[username].txn, fails);
      status := if ok then 200 else 500;
    }

    /** One pass of the clean-up loop over the map it is deleting from. */
    method Cleanup(at: nat)
      modifies this
      ensures State() == Step(old(State()), Sweep(at)).0
    {
      var keys := txnStore.Keys;
      while keys != {}
        invariant keys <= txnStore.Keys
        invariant users == old(users) && credentials == old(credentials) && sessions == old(sessions)
        invariant |txns| == |old(txns)|
        invariant txnStore == map k | k in old(txnStore) && (k in keys || !Due(at, old(txnStore)[k].expiresAt))
                                :: old(txnStore)[k]
        invariant forall t :: 0 <= t < |txns| ==>
          txns[t] == (if old(txns)[t].Open? && StaleAmong(old(txnStore), old(txnStore).Keys - keys, at, t)
                      then RolledBack else old(txns)[t])
      {
        var username :| username in keys;
        var meta := txnStore[username];
        if Unix(meta.expiresAt) <= Unix(at) {
          var _ := RollbackTxn(meta.txn, false);
          txnStore := txnStore - {username};
        }
        StaleAmongGrows(old(txnStore), old(txnStore).Keys - keys, at, username);
        assert old(txnStore).Keys - (keys - {username}) == old(txnStore).Keys - keys + {username};
        keys := keys - {username};
      }
      assert forall t :: 0 <= t < |txns| ==>
        (old(State()).Stale(at, t) <==> StaleAmong(old(txnStore), old(txnStore).Keys - {}, at, t));
    }
  }

  ghost predicate StaleAmong(store: map<string, Meta>, keys: set<string>, at: nat, t: nat) {
    exists k :: k in keys && k in store && Due(at, store[k].expiresAt) && store[k].txn == t
  }

  lemma StaleAmongGrows(store: map<string, Meta>, keys: set<string>, at: nat, k: string)
    requires k in store
    ensures forall t: nat :: StaleAmong(store, keys + {k}, at, t) <==>
      StaleAmong(store, keys, at, t) || (Due(at, store[k].expiresAt) && store[k].txn == t)
  {
  }

  // ---------- no transaction leaks ----------

  ghost predicate Stored(store: map<string, Meta>, t: nat) {
    exists k :: k in store && store[k].txn == t
  }

  /** Each open transaction is the one stored under exactly one username, and what it would
      insert is a user of that name. */
  ghost predicate Tidy(txns: seq<Txn>, store: map<string, Meta>) {
    && (forall k :: k in store ==> store[k].txn < |txns|)
    && (forall k, l :: k in store && l in store && store[k].txn == store[l].txn ==> k == l)
    && (forall t :: 0 <= t < |txns| && txns[t].Open? ==> Stored(store, t))
    && (forall k :: k in store ==> NamedLikeKey(txns[store[k].txn], k))
  }

  predicate NamedLikeKey(txn: Txn, key: string) {
    txn.Open? && txn.pending.Some? ==> txn.pending.value.username == key
  }

  lemma DoneKeepsTidy(txns: seq<Txn>, store: map<string, Meta>, t: nat, done: Txn)
    requires Tidy(txns, store) && t < |txns| && !done.Open?
    ensures Tidy(txns[t := done], store)
  {
  }

  lemma EndedKeepsTidy(s: Server, t: nat)
    requires Tidy(s.txns, s.txnStore)
    ensures Tidy(s.Ended(t).txns, s.txnStore)
  {
  }

  /** Storing a new transaction under a username whose old one has ended. */
  lemma BegunKeepsTidy(s: Server, at: nat, username: string)
    requires Tidy(s.txns, s.txnStore)
    requires username in s.txnStore ==> !s.IsOpen(s.txnStore[username].txn)
    ensures Tidy(s.Begun(at, username).txns, s.Begun(at, username).txnStore)
  {
    var after := s.Begun(at, username);
    forall t | 0 <= t < |after.txns| && after.txns[t].Open?
      ensures Stored(after.txnStore, t)
    {
      if t == |s.txns| {
        assert after.txnStore[username].txn == t;
      } else {
        assert Stored(s.txnStore, t);
        var k :| k in s.txnStore && s.txnStore[k].txn == t;
        assert k != username;
        assert after.txnStore[k].txn == t;
      }
    }
  }

  lemma PendingKeepsTidy(s: Server, t: nat, user: User)
    requires Tidy(s.txns, s.txnStore) && s.IsOpen(t)
    requires user.username in s.txnStore && s.txnStore[user.username].txn == t
    ensures Tidy(s.WithPending(t, user).txns, s.txnStore)
  {
  }

  lemma RefusedKeepsTidy(s: Server, t: nat)
    requires Tidy(s.txns, s.txnStore) && s.IsOpen(t)
    ensures Tidy(s.WithRefused(t).txns, s.txnStore)
  {
  }

  /** The shapes BeginRegistration can leave the transactions and their store in. */
  lemma BeginShapes(s: Server, e: Event)
    requires e.Begin?
    ensures var s' := Step(s, e).0;
      var s0 := s.Invalidated(e.username);
      var t, begun := |s0.txns|, s0.Begun(e.at, e.username);
      var added := begun.WithPending(t, User(e.newId, e.username, e.email));
      && s'.users == s.users && s'.credentials == s.credentials
      && (forall id :: id in s.sessions && id != e.newId ==> id in s'.sessions)
      && ((s'.txnStore == s.txnStore && (s'.txns == s.txns || s'.txns == s0.txns))
          || (s'.txnStore == begun.txnStore && (s'.txns == begun.txns || s'.txns == begun.WithRefused(t).txns))
          || (begun.MayInsert(User(e.newId, e.username, e.email)) && s'.txnStore == begun.txnStore
             && (s'.txns == added.txns || s'.txns == added.Ended(t).txns)))
  {
    var s', begun := Step(s, e).0, s.Invalidated(e.username).Begun(e.at, e.username);
    if e.validEmail && !e.begin.newTxnFails {
      assert s'.txnStore == begun.txnStore;
      if s'.txns != begun.txns && s'.txns != begun.WithRefused(|begun.txns| - 1).txns {
        assert begun.MayInsert(User(e.newId, e.username, e.email));
      }
    }
  }

  lemma BeginKeepsTidy(s: Server, e: Event)
    requires Tidy(s.txns, s.txnStore) && e.Begin?
    ensures Tidy(Step(s, e).0.txns, Step(s, e).0.txnStore)
  {
    BeginShapes(s, e);
    if e.username in s.txnStore {
      EndedKeepsTidy(s, s.txnStore[e.username].txn);
    }
    var s0 := s.Invalidated(e.username);
    BegunKeepsTidy(s0, e.at, e.username);
    var begun, t, user := s0.Begun(e.at, e.username), |s0.txns|, User(e.newId, e.username, e.email);
    RefusedKeepsTidy(begun, t);
    PendingKeepsTidy(begun, t, user);
    EndedKeepsTidy(begun.WithPending(t, user), t);
  }

  lemma FinishKeepsTidy(s: Server, e: Event)
    requires Tidy(s.txns, s.txnStore) && e.Finish?
    ensures Tidy(Step(s, e).0.txns, Step(s, e).0.txnStore)
  {
    if e.username in s.txnStore {
      var t := s.txnStore[e.username].txn;
      EndedKeepsTidy(s, t);
      DoneKeepsTidy(s.txns, s.txnStore, t, Committed);
      DoneKeepsTidy(s.txns, s.txnStore, t, RolledBack);
      assert Step(s, e).0.txnStore == s.txnStore;
    }
  }

  lemma SweepKeepsTidy(s: Server, at: nat)
    requires Tidy(s.txns, s.txnStore)
    ensures Tidy(s.Swept(at).txns, s.Swept(at).txnStore)
  {
    var after := s.Swept(at);
    forall t | 0 <= t < |after.txns| && after.txns[t].Open?
      ensures Stored(after.txnStore, t)
    {
      assert Stored(s.txnStore, t);
      var k :| k in s.txnStore && s.txnStore[k].txn == t;
      assert !Due(at, s.txnStore[k].expiresAt);
      assert after.txnStore[k].txn == t;
    }
  }

  lemma {:induction false} TidyAlways(r: Run)
    ensures Tidy(Exec(r).txns, Exec(r).txnStore)
  {
    match r
    case Boot =>
    case Then(p, e) =>
      TidyAlways(p);
      var s := Exec(p);
      match e
      case Begin(_, _, _, _, _, _) => BeginKeepsTidy(s, e);
      case Finish(_, _, _, _) => FinishKeepsTidy(s, e);
      case Rollback(_, username, _) =>
        if username in s.txnStore {
          EndedKeepsTidy(s, s.txnStore[username].txn);
        }
      case Sweep(at) => SweepKeepsTidy(s, at);
      case SignUp(_, user) =>
  }

  /** No leak: in every reachable state each open transaction is stored under exactly one
      username, so no username has two. */
  lemma {:induction false} NoTransactionLeaks(r: Run, t: nat)
    requires Exec(r).IsOpen(t)
    ensures var store := Exec(r).txnStore;
      && Stored(store, t)
      && (forall k, l :: k in store && l in store && store[k].txn == t && store[l].txn == t ==> k == l)
  {
    TidyAlways(r);
  }

  /** A sweep leaves open exactly the open transactions whose lease is not over; after the
      last lease it leaves none. */
  lemma {:induction false} SweepLeavesTheLiving(r: Run, at: nat, t: nat)
    ensures var store := Exec(r).txnStore;
      Exec(Then(r, Sweep(at))).IsOpen(t) <==>
        Exec(r).IsOpen(t) && exists k :: k in store && store[k].txn == t && !Due(at, store[k].expiresAt)
  {
    TidyAlways(r);
    var s := Exec(r);
    if s.IsOpen(t) {
      assert Stored(s.txnStore, t);
      var k :| k in s.txnStore && s.txnStore[k].txn == t;
      assert s.Stale(at, t) <==> Due(at, s.txnStore[k].expiresAt);
    }
  }

  // ---------- registered users hold a credential ----------

  predicate Clash(a: Txn, b: Txn) {
    && a.Open? && b.Open? && a.pending.Some? && b.pending.Some?
    && (a.pending.value.username == b.pending.value.username || a.pending.value.email == b.pending.value.email)
  }

  predicate Free(txn: Txn, users: map<string, User>) {
    txn.Open? && txn.pending.Some? ==>
      txn.pending.value.username !in users && !EmailTaken(users, txn.pending.value.email)
  }

  /** The users table keeps its keys, and nothing in flight clashes with it. */
  ghost predicate UniqueUsers(users: map<string, User>, txns: seq<Txn>) {
    && (forall k :: k in users ==> users[k].username == k)
    && (forall k, l :: k in users && l in users && users[k].email == users[l].email ==> k == l)
    && (forall t :: 0 <= t < |txns| ==> Free(txns[t], users))
    && (forall t, v :: 0 <= t < v < |txns| ==> !Clash(txns[t], txns[v]))
  }

  lemma EndedKeepsUsers(s: Server, t: nat)
    requires UniqueUsers(s.users, s.txns)
    ensures UniqueUsers(s.users, s.Ended(t).txns)
  {
  }

  lemma BegunKeepsUsers(s: Server, at: nat, username: string)
    requires UniqueUsers(s.users, s.txns)
    ensures UniqueUsers(s.users, s.Begun(at, username).txns)
  {
  }

  lemma PendingKeepsUsers(s: Server, t: nat, user: User)
    requires UniqueUsers(s.users, s.txns) && t < |s.txns| && s.MayInsert(user)
    ensures UniqueUsers(s.users, s.WithPending(t, user).txns)
  {
  }

  lemma BeginKeepsUsers(s: Server, e: Event)
    requires UniqueUsers(s.users, s.txns) && e.Begin?
    ensures UniqueUsers(Step(s, e).0.users, Step(s, e).0.txns)
  {
    BeginShapes(s, e);
    if e.username in s.txnStore {
      EndedKeepsUsers(s, s.txnStore[e.username].txn);
    }
    var s0 := s.Invalidated(e.username);
    BegunKeepsUsers(s0, e.at, e.username);
    var begun, t, user := s0.Begun(e.at, e.username), |s0.txns|, User(e.newId, e.username, e.email);
    if begun.MayInsert(user) {
      PendingKeepsUsers(begun, t, user);
      EndedKeepsUsers(begun.WithPending(t, user), t);
    }
  }

  lemma CommittingKeepsUsers(s: Server, t: nat)
    requires UniqueUsers(s.users, s.txns) && s.IsOpen(t)
    ensures UniqueUsers(s.Committing(t).users, s.Committing(t).txns)
  {
  }

  lemma FinishKeepsUsers(s: Server, e: Event)
    requires UniqueUsers(s.users, s.txns) && e.Finish?
    ensures UniqueUsers(Step(s, e).0.users, Step(s, e).0.txns)
  {
    if e.username in s.txnStore {
      var t := s.txnStore[e.username].txn;
      EndedKeepsUsers(s, t);
      if s.IsOpen(t) {
        CommittingKeepsUsers(s, t);
      }
    }
  }

  lemma SignUpKeepsUsers(s: Server, user: User)
    requires UniqueUsers(s.users, s.txns) && s.MayInsert(user)
    ensures UniqueUsers(s.users[user.username := user], s.txns)
  {
  }

  lemma {:induction false} UniqueUsersAlways(r: Run)
    ensures UniqueUsers(Exec(r).users, Exec(r).txns)
  {
    match r
    case Boot =>
    case Then(p, e) =>
      UniqueUsersAlways(p);
      var s := Exec(p);
      match e
      case Begin(_, _, _, _, _, _) => BeginKeepsUsers(s, e);
      case Finish(_, _, _, _) => FinishKeepsUsers(s, e);
      case Rollback(_, username, _) =>
        if username in s.txnStore {
          EndedKeepsUsers(s, s.txnStore[username].txn);
        }
      case Sweep(at) =>
      case SignUp(_, user) =>
        if s.MayInsert(user) {
          SignUpKeepsUsers(s, user);
        }
  }

  ghost predicate HasCredential(credentials: map<string, string>, id: string) {
    exists c :: c in credentials && credentials[c] == id
  }

  /** The ids of users that came in by the other route. */
  function SignedUp(r: Run): set<string> {
    match r
    case Boot => {}
    case Then(p, e) => SignedUp(p) + if e.SignUp? && Exec(p).MayInsert(e.user) then {e.user.id} else {}
  }

  lemma FinishRegisters(s: Server, e: Event)
    requires Tidy(s.txns, s.txnStore) && e.Finish?
    ensures var s' := Step(s, e).0;
      && (forall id :: HasCredential(s.credentials, id) ==> HasCredential(s'.credentials, id))
      && forall k :: k in s'.users ==>
           (k in s.users && s'.users[k] == s.users[k]) || HasCredential(s'.credentials, s'.users[k].id)
  {
    var s' := Step(s, e).0;
    forall id | HasCredential(s.credentials, id)
      ensures HasCredential(s'.credentials, id)
    {
      var c :| c in s.credentials && s.credentials[c] == id;
      assert c in s'.credentials && s'.credentials[c] == id;
    }
    if s'.users != s.users {
      var t := s.txnStore[e.username].txn;
      assert s.txns[t].pending.value.username == e.username;
      assert s'.credentials[e.credentialId] == s.txns[t].pending.value.id;
    }
  }

  lemma OthersKeepCredentials(s: Server, e: Event)
    requires !e.Finish?
    ensures var s' := Step(s, e).0;
      && s'.credentials == s.credentials
      && s'.users == if e.SignUp? && s.MayInsert(e.user) then s.users[e.user.username := e.user] else s.users
  {
    if e.Begin? {
      BeginShapes(s, e);
    }
  }

  /** Registration safety: every user this machine makes durable has a stored credential
      owned by that very user. */
  lemma {:induction false} RegisteredUsersHoldCredentials(r: Run, username: string)
    requires username in Exec(r).users
    ensures var id := Exec(r).users[username].id; id in SignedUp(r) || HasCredential(Exec(r).credentials, id)
  {
    var s, s' := Exec(r.before), Exec(r);
    if r.event.Finish? {
      TidyAlways(r.before);
      FinishRegisters(s, r.event);
      if username in s.users && s'.users[username] == s.users[username] {
        RegisteredUsersHoldCredentials(r.before, username);
      }
    } else {
      OthersKeepCredentials(s, r.event);
      if username in s.users && s'.users[username] == s.users[username] {
        RegisteredUsersHoldCredentials(r.before, username);
      }
    }
  }

  // ---------- one commit per BeginRegistration ----------

  /** The latest event finished, with status 200, the registration begun as transaction `t`. */
  predicate Registers(r: Run, t: nat)
    requires r.Then?
  {
    && r.event.Finish? && Reply(r) == 200
    && r.event.username in Exec(r.before).txnStore && Exec(r.before).txnStore[r.event.username].txn == t
  }

  function RegisterCount(r: Run, t: nat): nat {
    match r
    case Boot => 0
    case Then(p, _) => RegisterCount(p, t) + if Registers(r, t) then 1 else 0
  }

  predicate IsCommitted(s: Server, t: nat) {
    t < |s.txns| && s.txns[t].Committed?
  }

  lemma CommittedByFinish(s: Server, e: Event, t: nat)
    ensures var (s', reply) := Step(s, e);
      var finishes := e.Finish? && reply == 200 && e.username in s.txnStore && s.txnStore[e.username].txn == t;
      && (IsCommitted(s', t) <==> IsCommitted(s, t) || finishes)
      && (finishes ==> !IsCommitted(s, t))
  {
    if e.Begin? {
      BeginShapes(s, e);
    }
  }

  /** No BeginRegistration leads to more than one commit; and one it does lead to leaves
      the transaction committed. */
  lemma {:induction false} RegisterOnce(r: Run, t: nat)
    ensures RegisterCount(r, t) <= 1
    ensures RegisterCount(r, t) == 1 <==> IsCommitted(Exec(r), t)
  {
    match r
    case Boot =>
    case Then(p, e) =>
      RegisterOnce(p, t);
      CommittedByFinish(Exec(p), e, t);
  }

  // ---------- whose credentials there are ----------

  /** The user ids drawn by begins that were answered 200. */
  function Begun(r: Run): set<string> {
    match r
    case Boot => {}
    case Then(p, e) => Begun(p) + if e.Begin? && Reply(r) == 200 then {e.newId} else {}
  }

  lemma SessionsStep(s: Server, e: Event, id: string)
    requires id in Step(s, e).0.sessions && id !in s.sessions
    ensures e.Begin? && Step(s, e).1 == 200 && e.newId == id
  {
  }

  lemma {:induction false} SessionsWereBegun(r: Run, id: string)
    requires id in Exec(r).sessions
    ensures id in Begun(r)
  {
    if id in Exec(r.before).sessions {
      SessionsWereBegun(r.before, id);
    } else {
      SessionsStep(Exec(r.before), r.event, id);
    }
  }

  lemma CredentialsStep(s: Server, e: Event, c: string)
    requires c in Step(s, e).0.credentials
    ensures var owner := Step(s, e).0.credentials[c];
      (c in s.credentials && s.credentials[c] == owner) || owner in s.sessions
  {
    if !e.Finish? {
      OthersKeepCredentials(s, e);
    }
  }

  /** Every stored credential belongs to a user id that a begin of the run drew and announced
      with 200. */
  lemma {:induction false} CredentialsWereBegun(r: Run, c: string)
    requires c in Exec(r).credentials
    ensures Exec(r).credentials[c] in Begun(r)
  {
    var s := Exec(r.before);
    CredentialsStep(s, r.event, c);
    if c in s.credentials && Exec(r).credentials[c] == s.credentials[c] {
      CredentialsWereBegun(r.before, c);
    } else {
      SessionsWereBegun(r.before, Exec(r).credentials[c]);
    }
  }

  // ---------- credentials without a user ----------

  /** All a finish checks before it writes the credential: a transaction that still answers
      and shows a user of this name, a registration session of that user, a valid response,
      and a credential id nobody has. */
  predicate ReachesCommit(s: Server, e: Event)
    requires e.Finish?
  {
    && e.username in s.txnStore
    && var t := s.txnStore[e.username].txn;
       && s.IsOpen(t) && !e.finish.readFails && s.UserInTxn(t, e.username).Some?
       && !e.finish.sessionFails && s.UserInTxn(t, e.username).value.id in s.sessions
       && !e.finish.verifyFails && !e.finish.writeFails && e.credentialId !in s.credentials
  }

  predicate IsDurable(s: Server, username: string, id: string) {
    username in s.users && s.users[username].id == id
  }

  /** The price of writing the credential outside the transaction. A finish stores one, for
      the user its transaction shows, exactly when it reaches the commit; and that user is
      missing afterwards exactly when the commit then fails and nobody of that name was
      durable before. */
  lemma {:induction false} CredentialWithoutUser(r: Run, e: Event)
    requires e.Finish?
    ensures var s, s' := Exec(r), Exec(Then(r, e));
      && (s'.credentials != s.credentials <==> ReachesCommit(s, e))
      && (ReachesCommit(s, e) ==>
            var owner := s.UserInTxn(s.txnStore[e.username].txn, e.username).value;
            && s'.credentials == s.credentials[e.credentialId := owner.id]
            && (!IsDurable(s', e.username, owner.id) <==> e.finish.commitFails && e.username !in s.users))
  {
    UniqueUsersAlways(r);
    var s := Exec(r);
    if ReachesCommit(s, e) {
      assert Free(s.txns[s.txnStore[e.username].txn], s.users);
      assert e.credentialId in Exec(Then(r, e)).credentials;
    }
  }

  const NO_BEGIN_FAULTS := BeginFaults(false, false, Works, false, false, false)

  /** Two requests and one failed commit are enough. */
  lemma {:induction false} OwnerlessCredential(r: Run)
    requires r == Then(Then(Boot, Begin(0, "ann", "ann@example.org", true, "7", NO_BEGIN_FAULTS)),
                       Finish(0, "ann", "key", FinishFaults(false, false, false, false, true)))
    ensures Reply(r.before) == 200 && Reply(r) == 500
    ensures Exec(r).credentials == map["key" := "7"] && Exec(r).users == map[]
  {
    assert Exec(Boot) == Init();
    assert Exec(r.before).txns == [Open(Some(User("7", "ann", "ann@example.org")), false)];
  }

  // ---------- what begin and rollback leave, and that registration can succeed ----------

  /** After a begin that got its transaction, that transaction is open unless the service
      failed on an inserted user and the cleaning up worked; it holds a user exactly when the
      reply is 200, or 500 with the cleaning up failed. */
  lemma {:induction false} WhatBeginLeaves(r: Run, e: Event)
    requires e.Begin? && e.validEmail && !e.begin.newTxnFails
    ensures var s := Exec(Then(r, e));
      var reply := Reply(Then(r, e));
      && e.username in s.txnStore
      && var t := s.txnStore[e.username].txn;
         && (s.IsOpen(t) <==> !(reply == 500 && !e.begin.cleanupFails))
         && (s.IsOpen(t) ==>
               s.txns[t].pending == if reply == 400 then None else Some(User(e.newId, e.username, e.email)))
  {
  }

  /** After a rollback request the username has no open transaction. */
  lemma {:induction false} RollbackEnds(r: Run, at: nat, username: string, fails: bool)
    ensures var s := Exec(Then(r, Rollback(at, username, fails)));
      username in s.txnStore ==> !s.IsOpen(s.txnStore[username].txn)
  {
  }

  /** Since `p`, nobody else used this username or this user id, and no sweep was due. */
  predicate LeftAlone(p: Run, r: Run, username: string, id: string, deadline: nat) {
    r == p
    || (&& r.Then?
        && LeftAlone(p, r.before, username, id, deadline)
        && match r.event
           case Begin(_, u, _, _, newId, _) => u != username && newId != id
           case Finish(_, u, _, _) => u != username
           case Rollback(_, u, _) => u != username
           case Sweep(at) => !Due(at, deadline)
           case SignUp(_, _) => true)
  }

  ghost predicate Awaits(s: Server, user: User, deadline: nat) {
    && user.username in s.txnStore && s.txnStore[user.username].expiresAt == deadline
    && s.txnStore[user.username].txn < |s.txns|
    && s.txns[s.txnStore[user.username].txn] == Open(Some(user), false)
    && user.id in s.sessions
  }

  lemma AwaitsBegin(s: Server, e: Event, user: User, deadline: nat)
    requires Tidy(s.txns, s.txnStore) && Awaits(s, user, deadline)
    requires e.Begin? && e.username != user.username && e.newId != user.id
    ensures Awaits(Step(s, e).0, user, deadline)
  {
    BeginShapes(s, e);
    var t := s.txnStore[user.username].txn;
    assert s.Invalidated(e.username).txns[t] == s.txns[t];
  }

  lemma AwaitsStep(s: Server, e: Event, user: User, deadline: nat)
    requires Tidy(s.txns, s.txnStore) && Awaits(s, user, deadline)
    requires match e
      case Begin(_, u, _, _, newId, _) => u != user.username && newId != user.id
      case Finish(_, u, _, _) => u != user.username
      case Rollback(_, u, _) => u != user.username
      case Sweep(at) => !Due(at, deadline)
      case SignUp(_, _) => true
    ensures Awaits(Step(s, e).0, user, deadline)
  {
    if e.Begin? {
      AwaitsBegin(s, e, user, deadline);
    }
  }

  lemma {:induction false} RegistrationIsKept(p: Run, r: Run)
    requires p.Then? && p.event.Begin? && Reply(p) == 200
    requires LeftAlone(p, r, p.event.username, p.event.newId, p.event.at + TXN_TIMEOUT)
    ensures Awaits(Exec(r), User(p.event.newId, p.event.username, p.event.email), p.event.at + TXN_TIMEOUT)
  {
    if r != p {
      RegistrationIsKept(p, r.before);
      TidyAlways(r.before);
      AwaitsStep(Exec(r.before), r.event,
                 User(p.event.newId, p.event.username, p.event.email), p.event.at + TXN_TIMEOUT);
    }
  }

  /** A begin answered 200 can be finished: within its minute, whatever other users do, a
      finish with a new credential and no failure registers exactly the user it named. */
  lemma {:induction false} RegistrationSucceeds(p: Run, r: Run, e: Event)
    requires p.Then? && p.event.Begin? && Reply(p) == 200
    requires LeftAlone(p, r, p.event.username, p.event.newId, p.event.at + TXN_TIMEOUT)
    requires e.Finish? && e.username == p.event.username && e.credentialId !in Exec(r).credentials
    requires e.finish == FinishFaults(false, false, false, false, false)
    ensures Reply(Then(r, e)) == 200
    ensures var s := Exec(Then(r, e));
      && e.username in s.users
      && s.users[e.username] == User(p.event.newId, p.event.username, p.event.email)
      && e.credentialId in s.credentials && s.credentials[e.credentialId] == p.event.newId
  {
    RegistrationIsKept(p, r);
  }

  // ---------- what each request answers and changes ----------

  /** Another registration in flight holds the username or the email; the username's own
      previous one does not count, it ends first. */
  predicate ClashesInFlight(s: Server, username: string, email: string) {
    exists t :: 0 <= t < |s.txns| && s.txns[t].Open? && s.txns[t].pending.Some?
                && !(username in s.txnStore && s.txnStore[username].txn == t)
                && (s.txns[t].pending.value.username == username || s.txns[t].pending.value.email == email)
  }

  /** The status of a begin: 200 exactly when the input is valid, username and email are free
      among the durable users and those in flight, and nothing fails. */
  lemma {:induction false} BeginStatus(r: Run, e: Event)
    requires e.Begin?
    ensures var s := Exec(r);
      var free := e.username !in s.users && (forall k :: k in s.users ==> s.users[k].email != e.email)
                  && !ClashesInFlight(s, e.username, e.email);
      Reply(Then(r, e)) ==
        if !e.validEmail || e.begin.newTxnFails || e.begin.lookupFails || !e.begin.addUser.Works? || !free then 400
        else if e.begin.serviceFails then 500
        else 200
  {
    TidyAlways(r);
    InFlightAfterInvalidation(Exec(r), e.at, e.username, e.email);
  }

  lemma InFlightAfterInvalidation(s: Server, at: nat, username: string, email: string)
    requires Tidy(s.txns, s.txnStore)
    ensures s.Invalidated(username).Begun(at, username).InFlight(username, email)
      <==> ClashesInFlight(s, username, email)
  {
    var begun := s.Invalidated(username).Begun(at, username);
    assert forall t :: 0 <= t < |s.txns| && !(username in s.txnStore && s.txnStore[username].txn == t) ==>
      begun.txns[t] == s.txns[t];
  }

  /** A begin with a valid input ends the username's previous transaction and leaves all others
      as they are; it touches neither users nor credentials. An invalid one changes nothing. */
  lemma BeginEndsPrevious(s: Server, e: Event)
    requires e.Begin?
    ensures var s' := Step(s, e).0;
      && s'.users == s.users && s'.credentials == s.credentials
      && (!e.validEmail ==> s' == s)
      && (e.validEmail ==>
            && |s'.txns| == |s.txns| + (if e.begin.newTxnFails then 0 else 1)
            && forall t :: 0 <= t < |s.txns| ==>
                 s'.txns[t] == if e.username in s.txnStore && s.txnStore[e.username].txn == t && s.txns[t].Open?
                               then RolledBack else s.txns[t])
  {
    BeginShapes(s, e);
  }

  /** The transaction a begin opens: stored under the username for a minute, unless it could not
      be had; with the new user in it on 200; without one on 400, and unusable if its insert
      was refused; over after a service failure, unless the session data could not be removed. */
  lemma BeginOpens(s: Server, e: Event)
    requires e.Begin? && e.validEmail
    ensures var (s', reply) := Step(s, e);
      var n, user := |s.txns|, User(e.newId, e.username, e.email);
      && s'.txnStore == (if e.begin.newTxnFails then s.txnStore
                         else s.txnStore[e.username := Meta(e.at + 60_000_000_000, n)])
      && s'.sessions == (if reply == 200 then s.sessions + {e.newId}
                         else if reply == 500 && !e.begin.cleanupFails then s.sessions - {e.newId}
                         else s.sessions)
      && (!e.begin.newTxnFails ==>
            && |s'.txns| == n + 1
            && if reply == 400 then
                 s'.txns[n] == Open(None, !e.begin.lookupFails && !e.begin.addUser.Unsent?
                                          && forall k :: k in s.users ==> s.users[k].email != e.email)
               else if reply == 500 && !e.begin.cleanupFails then s'.txns[n] == RolledBack
               else s'.txns[n] == Open(Some(user), false))
  {
  }

  /** The status of a finish, and what it changes: whatever its outcome, the username's
      transaction is over afterwards; its user becomes durable exactly on 200. */
  lemma {:induction false} FinishEnds(r: Run, e: Event)
    requires e.Finish?
    ensures var s, s' := Exec(r), Exec(Then(r, e));
      var reply := Reply(Then(r, e));
      && reply == (if !ReachesCommit(s, e) then 400 else if e.finish.commitFails then 500 else 200)
      && s'.txnStore == s.txnStore && s'.sessions == s.sessions && |s'.txns| == |s.txns|
      && (e.username in s.txnStore ==> !s'.IsOpen(s.txnStore[e.username].txn))
      && (forall t :: 0 <= t < |s.txns| && !(e.username in s.txnStore && s.txnStore[e.username].txn == t) ==>
            s'.txns[t] == s.txns[t])
      && s'.users == (if reply == 200 && s.txns[s.txnStore[e.username].txn].pending.Some?
                      then s.users[e.username := s.txns[s.txnStore[e.username].txn].pending.value] else s.users)
  {
    TidyAlways(r);
  }

  /** The user a transaction shows: its own, a durable one, or none once it has been refused. */
  lemma WhatTxnShows(s: Server, t: nat, username: string, user: User)
    requires s.IsOpen(t)
    ensures s.UserInTxn(t, username) == Some(user) <==>
      && !s.txns[t].refused
      && if s.txns[t].pending.Some? && s.txns[t].pending.value.username == username
         then s.txns[t].pending.value == user
         else username in s.users && s.users[username] == user
  {
  }

  /** No begin of this username since `p`. */
  predicate NotBegunSince(p: Run, r: Run, username: string) {
    r == p || (r.Then? && NotBegunSince(p, r.before, username)
               && !(r.event.Begin? && r.event.username == username))
  }

  lemma OverStaysOver(s: Server, e: Event, username: string)
    requires Tidy(s.txns, s.txnStore)
    requires username in s.txnStore ==> !s.IsOpen(s.txnStore[username].txn)
    requires !(e.Begin? && e.username == username)
    ensures var s' := Step(s, e).0; username in s'.txnStore ==> !s'.IsOpen(s'.txnStore[username].txn)
  {
    if e.Begin? {
      BeginShapes(s, e);
    }
  }

  lemma {:induction false} OverUntilBegin(p: Run, r: Run, username: string)
    requires NotBegunSince(p, r, username)
    requires username in Exec(p).txnStore ==> !Exec(p).IsOpen(Exec(p).txnStore[username].txn)
    ensures username in Exec(r).txnStore ==> !Exec(r).IsOpen(Exec(r).txnStore[username].txn)
  {
    if r != p {
      OverUntilBegin(p, r.before, username);
      TidyAlways(r.before);
      OverStaysOver(Exec(r.before), r.event, username);
    }
  }

  /** One finish to a begin: after any finish of a username, or a rollback, every further finish
      of it is answered 400 and changes nothing, until it begins again. */
  lemma {:induction false} SecondFinishIsRefused(p: Run, r: Run, e: Event)
    requires p.Then? && (p.event.Finish? || p.event.Rollback?)
    requires NotBegunSince(p, r, p.event.username)
    requires e.Finish? && e.username == p.event.username
    ensures Reply(Then(r, e)) == 400 && Exec(Then(r, e)) == Exec(r)
  {
    if p.event.Finish? {
      FinishEnds(p.before, p.event);
    } else {
      RollbackReplies(p.before, p.event);
    }
    OverUntilBegin(p, r, p.event.username);
    FinishEnds(r, e);
  }

  lemma {:induction false} RollbackReplies(r: Run, e: Event)
    requires e.Rollback?
    ensures var s, s' := Exec(r), Exec(Then(r, e));
      && Reply(Then(r, e)) == (if e.username in s.txnStore
                               && (!s.IsOpen(s.txnStore[e.username].txn) || e.rollbackFails) then 500 else 200)
      && (e.username in s.txnStore ==> !s'.IsOpen(s.txnStore[e.username].txn))
      && s' == s.(txns := s'.txns) && |s'.txns| == |s.txns|
      && forall t :: 0 <= t < |s.txns| && !(e.username in s.txnStore && s.txnStore[e.username].txn == t) ==>
           s'.txns[t] == s.txns[t]
  {
  }

  /** A sweep forgets exactly the entries whose minute is over, to the second. */
  lemma {:induction false} SweepForgets(r: Run, at: nat, username: string)
    ensures var s, s' := Exec(r), Exec(Then(r, Sweep(at)));
      && (username in s'.txnStore <==>
            username in s.txnStore && at / 1_000_000_000 < s.txnStore[username].expiresAt / 1_000_000_000)
      && (username in s'.txnStore ==> s'.txnStore[username] == s.txnStore[username])
      && s'.users == s.users && s'.credentials == s.credentials && s'.sessions == s.sessions
  {
  }

  /** The other route in: a user is added exactly when username and email are free. */
  lemma {:induction false} SignUpAdds(r: Run, at: nat, user: User)
    ensures var s, s' := Exec(r), Exec(Then(r, SignUp(at, user)));
      var free := user.username !in s.users && (forall k :: k in s.users ==> s.users[k].email != user.email)
        && !exists t :: 0 <= t < |s.txns| && s.txns[t].Open? && s.txns[t].pending.Some?
             && (s.txns[t].pending.value.username == user.username || s.txns[t].pending.value.email == user.email);
      s' == if free then s.(users := s.users[user.username := user]) else s
  {
  }
}
