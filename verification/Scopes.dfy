/** Token scopes: the printer the registry challenges clients with, and the two parsers the
    token endpoint reads the answers with. */
module Scopes {
  import opened Prelude
  import opened Text

  datatype Claim = Claim(kind: string, name: string, actions: seq<string>)

  datatype Scope = Scope(kind: string, name: string, actions: map<string, bool>)

  /** One scope, list form. */
  function ParseClaim(scope: string): Option<Claim> {
    var parts := Split(scope, ':');
    if |parts| != 3 then None else Some(Claim(parts[0], parts[1], Split(parts[2], ',')))
  }

  /** One scope, map form: empty actions are dropped. */
  function ParseScope(param: string): Option<Scope> {
    var parts := Split(param, ':');
    if |parts| != 3 then None
    else Some(Scope(parts[0], parts[1], map a | a in Split(parts[2], ',') && a != "" :: true))
  }

  function ParseClaims(scopes: seq<string>): Option<seq<Claim>> {
    if scopes == [] then Some([])
    else
      var front, last := ParseClaims(scopes[..|scopes| - 1]), ParseClaim(scopes[|scopes| - 1]);
      if front.None? || last.None? then None else Some(front.value + [last.value])
  }

  /** A login request names an account; its scopes are not looked at. */
  function ParseRequest(account: string, scopes: seq<string>): Option<seq<Claim>> {
    if account != "" then Some([Claim("account", account, ["offline_token"])]) else ParseClaims(scopes)
  }

  method ParseOCITokenPermissionRequest(account: string, scopes: seq<string>) returns (claims: Option<seq<Claim>>)
    ensures claims == ParseRequest(account, scopes)
  {
    if account != "" {
      return Some([Claim("account", account, ["offline_token"])]);
    }
    var claimList: seq<Claim> := [];
    for i := 0 to |scopes|
      invariant ParseClaims(scopes[..i]) == Some(claimList)
    {
      assert scopes[..i + 1][..i] == scopes[..i];
      var scopeParts := Split(scopes[i], ':');
      if |scopeParts| != 3 {
        RefusalSpreads(scopes, i);
        return None;
      }
      claimList := claimList + [Claim(scopeParts[0], scopeParts[1], Split(scopeParts[2], ','))];
    }
    assert scopes[..|scopes|] == scopes;
    claims := Some(claimList);
  }

  /** One bad scope refuses the whole request. */
  lemma {:induction false} RefusalSpreads(scopes: seq<string>, i: nat)
    requires i < |scopes| && ParseClaim(scopes[i]).None?
    ensures ParseClaims(scopes).None?
  {
    if i < |scopes| - 1 {
      RefusalSpreads(scopes[..|scopes| - 1], i);
    }
  }

  method GetScopeFromQueryParams(param: string) returns (scope: Option<Scope>)
    ensures scope == ParseScope(param)
  {
    var parts := Split(param, ':');
    if |parts| != 3 {
      return None;
    }
    var actions: map<string, bool> := map[];
    var names := Split(parts[2], ',');
    for i := 0 to |names|
      invariant actions == map a | a in names[..i] && a != "" :: true
    {
      if names[i] != "" {
        actions := actions[names[i] := true];
      }
    }
    assert names[..|names|] == names;
    scope := Some(Scope(parts[0], parts[1], actions));
  }

  // ---------- printing ----------

  function PrintClaim(c: Claim): string
    requires |c.actions| >= 1
  {
    Join([c.kind, c.name, Join(c.actions, ',')], ':')
  }

  /** The scope of the challenge header. */
  function ChallengeScope(repoNamespace: string): string {
    "repository" + ":" + repoNamespace + ":" + "pull,push"
  }

  // ---------- the parsers undo the printers ----------

  /** A scope is accepted exactly when it holds two colons, and printing what was parsed
      gives the very text back: nothing is lost or made up. */
  lemma ParsePrints(scope: string)
    ensures ParseClaim(scope).Some? <==> Count(scope, ':') == 2
    ensures ParseClaim(scope).Some? ==>
      |ParseClaim(scope).value.actions| >= 1 && PrintClaim(ParseClaim(scope).value) == scope
  {
    SplitJoins(scope, ':');
    var parts := Split(scope, ':');
    if |parts| == 3 {
      SplitJoins(parts[2], ',');
      assert parts == [parts[0], parts[1], parts[2]];
    }
  }

  /** The other way round: a claim whose fields do not hold the separators parses back. */
  lemma PrintParses(c: Claim)
    requires ':' !in c.kind && ':' !in c.name && |c.actions| >= 1
    requires forall k :: 0 <= k < |c.actions| ==> ':' !in c.actions[k] && ',' !in c.actions[k]
    ensures ParseClaim(PrintClaim(c)) == Some(c)
  {
    JoinSplits(c.actions, ',');
    JoinAvoids(c.actions, ',', ':');
    JoinSplits([c.kind, c.name, Join(c.actions, ',')], ':');
  }

  lemma {:induction false} JoinAvoids(parts: seq<string>, sep: char, c: char)
    requires |parts| >= 1 && sep != c
    requires forall k :: 0 <= k < |parts| ==> c !in parts[k]
    ensures c !in Join(parts, sep)
  {
    if |parts| > 1 {
      JoinAvoids(parts[1..], sep, c);
    }
  }

  lemma {:induction false} CountAppend(a: string, b: string, c: char)
    ensures Count(a + b, c) == Count(a, c) + Count(b, c)
  {
    if a == "" {
      assert a + b == b;
    } else {
      CountAppend(a[1..], b, c);
      assert (a + b)[1..] == a[1..] + b;
    }
  }

  lemma {:induction false} CountZero(a: string, c: char)
    ensures Count(a, c) == 0 <==> c !in a
  {
    if a != "" {
      CountZero(a[1..], c);
      assert a == [a[0]] + a[1..];
    }
  }

  lemma JoinThree(a: string, b: string, c: string)
    ensures Join([a, b, c], ':') == a + ":" + b + ":" + c
  {
    var fields := [a, b, c];
    assert fields[1..] == [b, c] && [b, c][1..] == [c];
    assert Join([b, c], ':') == b + ":" + c;
    assert a + ":" + (b + ":" + c) == a + ":" + b + ":" + c;
  }

  lemma CountThree(a: string, b: string, c: string)
    ensures Count(a + ":" + b + ":" + c, ':') == 2 + Count(a, ':') + Count(b, ':') + Count(c, ':')
  {
    CountAppend(a + ":" + b + ":", c, ':');
    CountAppend(a + ":" + b, ":", ':');
    CountAppend(a + ":", b, ':');
    CountAppend(a, ":", ':');
    assert Count(":", ':') == 1;
  }

  lemma PullPush()
    ensures Join(["pull", "push"], ',') == "pull,push"
  {
  }

  /** The scope the registry asks for is accepted by its own token endpoint exactly when the
      namespace is colon-free, and then means pull and push on that namespace. */
  lemma ChallengeRoundTrip(repoNamespace: string)
    ensures ParseClaim(ChallengeScope(repoNamespace)).Some? <==> ':' !in repoNamespace
    ensures ':' !in repoNamespace ==>
      ParseClaim(ChallengeScope(repoNamespace)) == Some(Claim("repository", repoNamespace, ["pull", "push"]))
  {
    ChallengeShape("repository", repoNamespace, ["pull", "push"], "pull,push");
    PullPush();
  }

  lemma ChallengeShape(kind: string, name: string, actions: seq<string>, tail: string)
    requires ':' !in kind && ':' !in tail && |actions| >= 1
    requires forall k :: 0 <= k < |actions| ==> ':' !in actions[k] && ',' !in actions[k]
    ensures var s := kind + ":" + name + ":" + tail;
      && (ParseClaim(s).Some? <==> ':' !in name)
      && (':' !in name && tail == Join(actions, ',') ==> ParseClaim(s) == Some(Claim(kind, name, actions)))
  {
    var s := kind + ":" + name + ":" + tail;
    ParsePrints(s);
    CountThree(kind, name, tail);
    CountZero(kind, ':');
    CountZero(name, ':');
    CountZero(tail, ':');
    if ':' !in name && tail == Join(actions, ',') {
      JoinThree(kind, name, tail);
      PrintParses(Claim(kind, name, actions));
    }
  }

  /** The two parsers accept the same strings and agree on type, name and every non-empty
      action. */
  lemma ParsersAgree(scope: string)
    ensures ParseClaim(scope).Some? <==> ParseScope(scope).Some?
    ensures ParseClaim(scope).Some? ==>
      var c, s := ParseClaim(scope).value, ParseScope(scope).value;
      && c.kind == s.kind && c.name == s.name
      && (forall a :: a in s.actions <==> a != "" && a in c.actions)
      && (forall a :: a in s.actions ==> s.actions[a])
  {
  }

  /** A request with an account is a login: one claim, for an offline token of that account,
      whatever scopes it carries. */
  lemma LoginMeaning(account: string, scopes: seq<string>)
    requires account != ""
    ensures ParseRequest(account, scopes).Some?
    ensures var claims := ParseRequest(account, scopes).value;
      |claims| == 1 && claims[0] == Claim("account", account, ["offline_token"])
  {
  }

  /** A request without an account is granted claims exactly when each of its scopes holds
      two colons, and then one claim for each, in order. */
  lemma {:induction false} RequestMeaning(scopes: seq<string>)
    ensures ParseRequest("", scopes).Some? <==> forall i :: 0 <= i < |scopes| ==> Count(scopes[i], ':') == 2
    ensures ParseRequest("", scopes).Some? ==>
      var claims := ParseRequest("", scopes).value;
      && |claims| == |scopes|
      && forall i :: 0 <= i < |scopes| ==> ParseClaim(scopes[i]) == Some(claims[i])
  {
    if scopes != [] {
      var n := |scopes| - 1;
      RequestMeaning(scopes[..n]);
      ParsePrints(scopes[n]);
    }
  }
}
