/** Favourite repositories: a list per user, and a denormalised counter per repository that
    is kept in step by a second, separate statement. */
module Favorites {
  /** `favorite_repositories` by user, `favorite_count` by repository. */
  datatype Db = Db(lists: map<string, seq<string>>, counts: map<string, int>)
  {
    /** array_remove: every occurrence goes. */
    static function Without(list: seq<string>, repo: string): (rest: seq<string>)
      ensures repo !in rest
      ensures forall x :: x in rest <==> x in list && x != repo
      ensures NoDuplicates(list) ==> NoDuplicates(rest)
    {
      if list == [] then []
      else
        assert NoDuplicates(list) ==> NoDuplicates(list[1..]) && list[0] !in list[1..];
        if list[0] == repo then Without(list[1..], repo) else [list[0]] + Without(list[1..], repo)
    }

    function Count(repo: string, delta: int): Db {
      if repo in counts then this.(counts := counts[repo := counts[repo] + delta]) else this
    }

    /** The guarded update touches the user's row only if it is not listed yet. */
    predicate Adds(repo: string, user: string) {
      user in lists && repo !in lists[user]
    }

    predicate Drops(repo: string, user: string) {
      user in lists && repo in lists[user]
    }

    function Add(repo: string, user: string, listFails: bool, countFails: bool): (Db, bool) {
      if listFails || !Adds(repo, user) then (this, false)
      else
        var listed := this.(lists := lists[user := lists[user] + [repo]]);
        if countFails then (listed, false) else (listed.Count(repo, 1), true)
    }

    function Remove(repo: string, user: string, listFails: bool, countFails: bool): (Db, bool) {
      if listFails || !Drops(repo, user) then (this, false)
      else
        var dropped := this.(lists := lists[user := Without(lists[user], repo)]);
        if countFails then (dropped, false) else (dropped.Count(repo, -1), true)
    }
  }

  predicate NoDuplicates(list: seq<string>) {
    forall i, j :: 0 <= i < j < |list| ==> list[i] != list[j]
  }

  datatype Event =
    | Add(repo: string, user: string, listFails: bool, countFails: bool)
    | Remove(repo: string, user: string, listFails: bool, countFails: bool)
    | NewUser(user: string)
    | NewRepository(repo: string)

  function Step(s: Db, e: Event): (Db, bool) {
    match e
    case Add(repo, user, listFails, countFails) => s.Add(repo, user, listFails, countFails)
    case Remove(repo, user, listFails, countFails) => s.Remove(repo, user, listFails, countFails)
    case NewUser(user) => if user in s.lists then (s, false) else (s.(lists := s.lists[user := []]), true)
    case NewRepository(repo) =>
      if repo in s.counts then (s, false) else (s.(counts := s.counts[repo := 0]), true)
  }

  datatype Run = Boot | Then(before: Run, event: Event)

  function Exec(r: Run): Db {
    match r
    case Boot => Db(map[], map[])
    case Then(p, e) => Step(Exec(p), e).0
  }

  class FavoritesStore {
    var lists: map<string, seq<string>>
    var counts: map<string, int>

    ghost function State(): Db
      reads this
    {
      Db(lists, counts)
    }

    constructor ()
      ensures State() == Db(map[], map[])
    {
      lists, counts := map[], map[];
    }

    method AddRepositoryToFavorites(repoID: string, userID: string, listFails: bool, countFails: bool)
      returns (ok: bool)
      modifies this
      ensures (State(), ok) == old(State()).Add(repoID, userID, listFails, countFails)
    {
      if listFails {
        return false;
      }
      var rowsAffected := 0;
      if userID in lists && repoID !in lists[userID] {
        lists := lists[userID := lists[userID] + [repoID]];
        rowsAffected := 1;
      }
      if rowsAffected == 1 {
        if countFails {
          return false;
        }
        if repoID in counts {
          counts := counts[repoID := counts[repoID] + 1];
        }
        return true;
      }
      ok := false;
    }

    method RemoveRepositoryFromFavorites(repoID: string, userID: string, listFails: bool, countFails: bool)
      returns (ok: bool)
      modifies this
      ensures (State(), ok) == old(State()).Remove(repoID, userID, listFails, countFails)
    {
      if listFails {
        return false;
      }
      var rowsAffected := 0;
      if userID in lists && repoID in lists[userID] {
        lists := lists[userID := Db.Without(lists[userID], repoID)];
        rowsAffected := 1;
      }
      if rowsAffected == 1 {
        if countFails {
          return false;
        }
        if repoID in counts {
          counts := counts[repoID := counts[repoID] - 1];
        }
        return true;
      }
      ok := false;
    }
  }

  // ---------- conservation ----------

  /** The users who list a repository. */
  function Fans(s: Db, repo: string): set<string> {
    set u | u in s.lists && repo in s.lists[u]
  }

  predicate Mentioned(r: Run, repo: string) {
    match r
    case Boot => false
    case Then(p, e) => (e.Add? && e.repo == repo) || Mentioned(p, repo)
  }

  /** A new repository gets an id nobody has used before. */
  predicate FreshRepositories(r: Run) {
    match r
    case Boot => true
    case Then(p, e) => FreshRepositories(p) && (e.NewRepository? ==> !Mentioned(p, e.repo))
  }

  function DriftStep(s: Db, e: Event, repo: string): int {
    if e.Add? && e.repo == repo && s.Adds(repo, e.user) && !e.listFails && e.countFails then 1
    else if e.Remove? && e.repo == repo && s.Drops(repo, e.user) && !e.listFails && e.countFails then -1
    else 0
  }

  /** Second statements that failed after their first one took effect: increments missed
      less decrements missed. */
  function Drift(r: Run, repo: string): int {
    match r
    case Boot => 0
    case Then(p, e) => Drift(p, repo) + DriftStep(Exec(p), e, repo)
  }

  lemma FansStep(s: Db, e: Event, repo: string)
    ensures var s' := Step(s, e).0;
      Fans(s', repo) ==
        if e.Add? && e.repo == repo && s.Adds(repo, e.user) && !e.listFails then Fans(s, repo) + {e.user}
        else if e.Remove? && e.repo == repo && s.Drops(repo, e.user) && !e.listFails then Fans(s, repo) - {e.user}
        else Fans(s, repo)
  {
  }

  lemma CountStep(s: Db, e: Event, repo: string)
    requires repo in s.counts
    ensures var s' := Step(s, e).0;
      && repo in s'.counts
      && s'.counts[repo] - s.counts[repo] ==
        if e.Add? && e.repo == repo && s.Adds(repo, e.user) && !e.listFails && !e.countFails then 1
        else if e.Remove? && e.repo == repo && s.Drops(repo, e.user) && !e.listFails && !e.countFails then -1
        else 0
  {
  }

  lemma ConservedStep(s: Db, e: Event, repo: string, drift: int)
    requires repo in s.counts ==> s.counts[repo] + drift == |Fans(s, repo)|
    requires e.NewRepository? && e.repo == repo && repo !in s.counts ==> Fans(s, repo) == {} && drift == 0
    ensures var s' := Step(s, e).0;
      repo in s'.counts ==> s'.counts[repo] + drift + DriftStep(s, e, repo) == |Fans(s', repo)|
    ensures Fans(s, repo) == {} && !(e.Add? && e.repo == repo) ==>
      Fans(Step(s, e).0, repo) == {} && DriftStep(s, e, repo) == 0
  {
    FansStep(s, e, repo);
    if repo in s.counts {
      CountStep(s, e, repo);
    }
  }

  /** Conservation, with the failures in the ledger: a repository's counter plus the drift
      is the number of users listing it, in every run. */
  lemma {:induction false} FavoritesConserved(r: Run, repo: string)
    requires FreshRepositories(r)
    ensures repo in Exec(r).counts ==> Exec(r).counts[repo] + Drift(r, repo) == |Fans(Exec(r), repo)|
    ensures !Mentioned(r, repo) ==> Fans(Exec(r), repo) == {} && Drift(r, repo) == 0
  {
    match r
    case Boot =>
    case Then(p, e) =>
      FavoritesConserved(p, repo);
      ConservedStep(Exec(p), e, repo, Drift(p, repo));
  }

  /** The counter is right exactly when missed increments and decrements balance; it is
      right, and so never negative, when no second statement has failed. */
  lemma {:induction false} FavoriteCountIsRight(r: Run, repo: string)
    requires FreshRepositories(r) && repo in Exec(r).counts
    ensures Exec(r).counts[repo] == |Fans(Exec(r), repo)| <==> Drift(r, repo) == 0
    ensures NoCountFaults(r) ==> Exec(r).counts[repo] == |Fans(Exec(r), repo)|
  {
    FavoritesConserved(r, repo);
    if NoCountFaults(r) {
      NoFaultsNoDrift(r, repo);
    }
  }

  /** Three requests, the last with a failed second statement, are enough to get it wrong. */
  lemma {:induction false} MissedIncrement(r: Run, repo: string, user: string)
    requires r == Then(Then(Then(Boot, NewUser(user)), NewRepository(repo)), Add(repo, user, false, true))
    ensures FreshRepositories(r)
    ensures repo in Exec(r).counts && Exec(r).counts[repo] == 0 && Fans(Exec(r), repo) == {user}
  {
    var first := r.before.before;
    assert FreshRepositories(first) && !Mentioned(Boot, repo) && !Mentioned(first, repo);
    assert FreshRepositories(r.before);
    assert Exec(Boot) == Db(map[], map[]) && Exec(first) == Db(map[user := []], map[]);
    assert Exec(r.before).lists == map[user := []] && Exec(r.before).counts == map[repo := 0];
    assert [] + [repo] == [repo];
    assert Exec(r).lists == map[user := [repo]];
  }

  predicate NoCountFaults(r: Run) {
    match r
    case Boot => true
    case Then(p, e) => NoCountFaults(p) && (e.Add? || e.Remove? ==> !e.countFails)
  }

  lemma {:induction false} NoFaultsNoDrift(r: Run, repo: string)
    requires NoCountFaults(r)
    ensures Drift(r, repo) == 0
  {
    if r.Then? {
      NoFaultsNoDrift(r.before, repo);
    }
  }

  /** An add: exactly what it appends and counts, and that it reports success only when both
      statements took effect. */
  lemma AddReplies(s: Db, e: Event)
    requires e.Add?
    ensures var (s', ok) := Step(s, e);
      var listed := !e.listFails && e.user in s.lists && e.repo !in s.lists[e.user];
      && ok == (listed && !e.countFails)
      && s'.lists == (if listed then s.lists[e.user := s.lists[e.user] + [e.repo]] else s.lists)
      && s'.counts == (if ok && e.repo in s.counts then s.counts[e.repo := s.counts[e.repo] + 1] else s.counts)
  {
  }

  /** A removal, likewise; the other entries of the list keep their order. */
  lemma RemoveReplies(s: Db, e: Event)
    requires e.Remove?
    ensures var (s', ok) := Step(s, e);
      var dropped := !e.listFails && e.user in s.lists && e.repo in s.lists[e.user];
      && ok == (dropped && !e.countFails)
      && s'.lists == (if dropped then s.lists[e.user := Db.Without(s.lists[e.user], e.repo)] else s.lists)
      && s'.counts == (if ok && e.repo in s.counts then s.counts[e.repo := s.counts[e.repo] - 1] else s.counts)
  {
  }

  /** New users list nothing, new repositories count zero; known ones are refused. */
  lemma NewcomersStartEmpty(s: Db, e: Event)
    requires e.NewUser? || e.NewRepository?
    ensures var known := if e.NewUser? then e.user in s.lists else e.repo in s.counts;
      Step(s, e) ==
        if known then (s, false)
        else (Db(if e.NewUser? then s.lists[e.user := []] else s.lists,
                 if e.NewRepository? then s.counts[e.repo := 0] else s.counts), true)
  {
  }

  /** What an undone add leaves: the list it found. */
  lemma {:induction false} AddThenRemove(list: seq<string>, repo: string)
    requires repo !in list
    ensures Db.Without(list + [repo], repo) == list
  {
    if list != [] {
      AddThenRemove(list[1..], repo);
      assert (list + [repo])[1..] == list[1..] + [repo];
    }
  }

  /** Adding and then removing, with no failure in between, restores the whole database. */
  lemma RemoveUndoesAdd(s: Db, repo: string, user: string)
    requires user in s.lists && repo !in s.lists[user]
    ensures Step(Step(s, Add(repo, user, false, false)).0, Remove(repo, user, false, false)) == (s, true)
  {
    AddThenRemove(s.lists[user], repo);
    var list := s.lists[user];
    assert s.lists[user := list + [repo]][user := list] == s.lists;
    if repo in s.counts {
      assert s.counts[repo := s.counts[repo] + 1][repo := s.counts[repo]] == s.counts;
    }
  }

  /** No list ever holds a repository twice. */
  lemma {:induction false} ListsStayDuplicateFree(r: Run, user: string)
    requires user in Exec(r).lists
    ensures NoDuplicates(Exec(r).lists[user])
  {
    if r.Then? && user in Exec(r.before).lists {
      ListsStayDuplicateFree(r.before, user);
    }
  }
}
