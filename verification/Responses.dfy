/**
 A Responses request as chat: declared functions get one flat alias each, a call in the history finds
 the declaration it means, and the input items become messages, adjacent calls one assistant turn.
 The hash of a namespaced name and the conversion of content are parameters.
 */
module Responses {
  import opened Prelude

  datatype Tool = Tool(namespace: string, name: string)

  type Tools = map<string, Tool>

  predicate ValidChar(c: char) {
    'a' <= c <= 'z' || 'A' <= c <= 'Z' || '0' <= c <= '9' || c == '_' || c == '-'
  }

  /** `validToolName`. */
  predicate ValidName(s: string) {
    0 < |s| <= 64 && forall c <- s :: ValidChar(c)
  }

  /** `chatToolName`; none for a name that is not one. */
  function Alias(t: Tool, hash: (string, string) -> string): Option<string> {
    if !ValidName(t.name) || (t.namespace != "" && !ValidName(t.namespace)) then None
    else if t.namespace == "" then Some(t.name)
    else Some("ns_" + hash(t.namespace, t.name))
  }

  /** The adapter's `name`: an alias is one function's only. */
  function Name(tools: Tools, t: Tool, hash: (string, string) -> string): Option<(Tools, string)> {
    var alias := Alias(t, hash);
    if alias.None? || (alias.value in tools && tools[alias.value] != t) then None
    else Some((tools[alias.value := t], alias.value))
  }

  /** The declarations in order; `seen` are the aliases they have taken. */
  function Declare(ts: seq<Tool>, tools: Tools, seen: seq<string>, hash: (string, string) -> string)
    : Option<(Tools, seq<string>)>
    decreases ts
  {
    if ts == [] then Some((tools, seen))
    else
      var n := Name(tools, ts[0], hash);
      if n.None? || n.value.1 in seen then None
      else Declare(ts[1..], n.value.0, seen + [n.value.1], hash)
  }

  ghost predicate Distinct(s: seq<string>) {
    forall i, j :: 0 <= i < j < |s| ==> s[i] != s[j]
  }

  /** `tools` says, of each alias in `seen` and of no other, which function it is. */
  ghost predicate Knows(tools: Tools, seen: seq<string>, ts: seq<Tool>) {
    && |seen| == |ts| && Distinct(seen)
    && (forall a :: a in tools <==> a in seen)
    && (forall i :: 0 <= i < |ts| ==> seen[i] in tools && tools[seen[i]] == ts[i])
  }

  ghost predicate AliasesAre(ts: seq<Tool>, aliases: seq<string>, hash: (string, string) -> string) {
    |aliases| == |ts| && forall i :: 0 <= i < |ts| ==> Alias(ts[i], hash) == Some(aliases[i])
  }

  lemma KnowsMore(tools: Tools, seen: seq<string>, ts: seq<Tool>, t: Tool, a: string)
    requires Knows(tools, seen, ts) && a !in seen
    ensures Knows(tools[a := t], seen + [a], ts + [t])
  {
  }

  lemma {:induction false} DeclareKnows(ts: seq<Tool>, tools: Tools, seen: seq<string>, before: seq<Tool>,
                                        hash: (string, string) -> string)
    requires Knows(tools, seen, before) && AliasesAre(before, seen, hash)
    ensures var r := Declare(ts, tools, seen, hash);
            && (r.Some? ==> Knows(r.value.0, r.value.1, before + ts) && AliasesAre(before + ts, r.value.1, hash))
            && (r.None? ==> forall aliases :: AliasesAre(before + ts, aliases, hash) ==> !Distinct(aliases))
    decreases ts
  {
    if ts == [] {
      assert before + ts == before;
    } else {
      var t, rest := ts[0], ts[1..];
      assert before + ts == before + [t] + rest;
      var alias := Alias(t, hash);
      if alias.Some? && alias.value !in seen {
        KnowsMore(tools, seen, before, t, alias.value);
        DeclareKnows(rest, tools[alias.value := t], seen + [alias.value], before + [t], hash);
      } else {
        Refused(before, t, rest, seen, hash);
      }
    }
  }

  /** A bad name has no alias, and a taken alias would be there twice. */
  lemma Refused(before: seq<Tool>, t: Tool, rest: seq<Tool>, seen: seq<string>, hash: (string, string) -> string)
    requires AliasesAre(before, seen, hash) && (Alias(t, hash).None? || Alias(t, hash).value in seen)
    ensures forall aliases :: AliasesAre(before + [t] + rest, aliases, hash) ==> !Distinct(aliases)
  {
    var all := before + [t] + rest;
    forall aliases | AliasesAre(all, aliases, hash) ensures !Distinct(aliases) {
      assert all[|before|] == t && Alias(all[|before|], hash) == Some(aliases[|before|]);
      var i :| 0 <= i < |seen| && seen[i] == aliases[|before|];
      assert all[i] == before[i];
    }
  }

  /**
   Declarations are accepted exactly when every name is valid and no two get the same alias; and then
   each function has its own alias, which leads back to it.
   */
  lemma EachItsOwnAlias(ts: seq<Tool>, hash: (string, string) -> string)
    ensures var r := Declare(ts, map[], [], hash);
            && (r.Some? <==> exists aliases :: AliasesAre(ts, aliases, hash) && Distinct(aliases))
            && (r.Some? ==> Knows(r.value.0, r.value.1, ts) && AliasesAre(ts, r.value.1, hash))
  {
    DeclareKnows(ts, map[], [], [], hash);
    assert [] + ts == ts;
  }

  /** Two declarations of one function have one alias, so that none is accepted twice. */
  lemma NoFunctionTwice(ts: seq<Tool>, hash: (string, string) -> string, i: nat, j: nat)
    requires Declare(ts, map[], [], hash).Some? && i < j < |ts|
    ensures ts[i] != ts[j]
  {
    EachItsOwnAlias(ts, hash);
    var aliases := Declare(ts, map[], [], hash).value.1;
    assert aliases[i] != aliases[j];
  }

  /** A hash by which an alias is a name the engine takes. */
  ghost predicate NamesWell(hash: (string, string) -> string) {
    forall namespace, name :: 0 < |hash(namespace, name)| <= 61 && forall c <- hash(namespace, name) :: ValidChar(c)
  }

  /** Accepted declarations have aliases an engine takes for names; a function in no namespace keeps its own. */
  lemma AliasesAreNames(ts: seq<Tool>, hash: (string, string) -> string)
    requires NamesWell(hash) && Declare(ts, map[], [], hash).Some?
    ensures var aliases := Declare(ts, map[], [], hash).value.1;
            && |aliases| == |ts|
            && forall i :: 0 <= i < |ts| ==>
                 && ValidName(aliases[i]) && ValidName(ts[i].name)
                 && (ts[i].namespace == "" ==> aliases[i] == ts[i].name)
                 && (ts[i].namespace != "" ==>
                       ValidName(ts[i].namespace) && aliases[i] == "ns_" + hash(ts[i].namespace, ts[i].name))
  {
    EachItsOwnAlias(ts, hash);
    var aliases := Declare(ts, map[], [], hash).value.1;
    forall i | 0 <= i < |ts| ensures ValidName(aliases[i]) {
      assert Alias(ts[i], hash) == Some(aliases[i]);
      if ts[i].namespace != "" {
        PrefixedIsName(hash(ts[i].namespace, ts[i].name));
      }
    }
  }

  lemma PrefixedIsName(h: string)
    requires 0 < |h| <= 61 && forall c <- h :: ValidChar(c)
    ensures ValidName("ns_" + h)
  {
    forall c | c in "ns_" + h ensures ValidChar(c) {
      assert c in "ns_" || c in h;
    }
  }

  // ---- the function a client asks for by name ----

  /** `tool_choice`: accepted when its alias is one that was declared. */
  function Choice(tools: Tools, t: Tool, hash: (string, string) -> string): Option<string> {
    var alias := Alias(t, hash);
    if alias.Some? && alias.value in tools then alias else None
  }

  /** Some declared function has the alias of `t`. */
  ghost predicate SharesAlias(ts: seq<Tool>, t: Tool, hash: (string, string) -> string) {
    exists other :: other in ts && Alias(other, hash).Some? && Alias(other, hash) == Alias(t, hash)
  }

  /**
   A choice is accepted exactly when a declared function has its alias, and what it chooses is the one
   that has. So a declared function can always be chosen; and one nobody declared is accepted exactly
   when another's alias is also its own, and then that other is meant.
   */
  lemma ChoiceIsDeclared(ts: seq<Tool>, t: Tool, hash: (string, string) -> string)
    requires Declare(ts, map[], [], hash).Some?
    ensures var tools := Declare(ts, map[], [], hash).value.0;
            && (Choice(tools, t, hash).Some? <==> SharesAlias(ts, t, hash))
            && (t in ts ==> Choice(tools, t, hash).Some?)
            && (Choice(tools, t, hash).Some? ==>
                  var chosen := tools[Choice(tools, t, hash).value];
                  && chosen in ts && Alias(chosen, hash) == Alias(t, hash)
                  && (t !in ts <==> chosen != t)
                  && (forall other :: other in ts && Alias(other, hash) == Alias(t, hash) ==> other == chosen))
  {
    EachItsOwnAlias(ts, hash);
    var (tools, aliases) := Declare(ts, map[], [], hash).value;
    forall other | other in ts && Alias(other, hash) == Alias(t, hash)
      ensures Choice(tools, t, hash).Some? && tools[Choice(tools, t, hash).value] == other && SharesAlias(ts, t, hash)
    {
      var i :| 0 <= i < |ts| && ts[i] == other;
      assert Alias(ts[i], hash) == Some(aliases[i]);
    }
    if Choice(tools, t, hash).Some? {
      var i :| 0 <= i < |aliases| && aliases[i] == Choice(tools, t, hash).value;
      assert tools[aliases[i]] == ts[i] && Alias(ts[i], hash) == Alias(t, hash);
    }
  }

  /** A function nobody declared can be chosen: by the alias of one declared in a namespace. */
  lemma ChosenByAlias(hash: (string, string) -> string)
    requires ValidName("ns_" + hash("files", "read"))
    ensures var declared, chosen := Tool("files", "read"), Tool("", "ns_" + hash("files", "read"));
            var r := Declare([declared], map[], [], hash);
            && r.Some? && chosen != declared && Choice(r.value.0, chosen, hash).Some?
            && r.value.0[Choice(r.value.0, chosen, hash).value] == declared
  {
    var declared := Tool("files", "read");
    var alias := "ns_" + hash("files", "read");
    assert Name(map[], declared, hash) == Some((map[alias := declared], alias));
    assert Declare([declared][1..], map[alias := declared], [] + [alias], hash)
        == Some((map[alias := declared], [] + [alias]));
  }

  // ---- which declaration a call in the history means ----

  datatype Found = Missing | Ambiguous | Means(alias: string)

  predicate Matches(t: Tool, namespace: string, name: string) {
    t.name == name && (namespace == "" || t.namespace == namespace)
  }

  /** `historyName`, going through the aliases in the order given. */
  function Search(order: seq<string>, tools: Tools, namespace: string, name: string, found: Found): Found
    requires forall a <- order :: a in tools
    decreases order
  {
    if order == [] then found
    else if Matches(tools[order[0]], namespace, name) then
      if found != Missing then Ambiguous else Search(order[1..], tools, namespace, name, Means(order[0]))
    else Search(order[1..], tools, namespace, name, found)
  }

  function Matching(tools: Tools, namespace: string, name: string): set<string> {
    set a <- tools | Matches(tools[a], namespace, name)
  }

  /** The matches among some of the aliases. */
  function MatchingIn(aliases: set<string>, tools: Tools, namespace: string, name: string): set<string> {
    set a <- aliases | a in tools && Matches(tools[a], namespace, name)
  }

  lemma OneMore(aliases: set<string>, a: string, tools: Tools, namespace: string, name: string)
    requires a in tools
    ensures MatchingIn(aliases + {a}, tools, namespace, name)
            == MatchingIn(aliases, tools, namespace, name) + (if Matches(tools[a], namespace, name) then {a} else {})
  {
  }

  lemma AllOfThem(tools: Tools, namespace: string, name: string)
    ensures MatchingIn(tools.Keys, tools, namespace, name) == Matching(tools, namespace, name)
  {
  }

  /** The aliases, each once. */
  ghost predicate Enumerates(order: seq<string>, tools: Tools) {
    (forall a :: a in order <==> a in tools) && Distinct(order)
  }

  /** What `historyName` comes to: the one match, if there is exactly one. */
  ghost predicate Resolves(r: Found, matching: set<string>) {
    match r
    case Missing => matching == {}
    case Means(a) => matching == {a}
    case Ambiguous => exists a, b :: a in matching && b in matching && a != b
  }


  lemma {:induction false} SearchResolves(order: seq<string>, tools: Tools, namespace: string, name: string,
                                          found: Found, done: set<string>)
    requires forall a <- order :: a in tools && a !in done
    requires Distinct(order) && found != Ambiguous && Resolves(found, done)
    ensures var matching := set a <- order | Matches(tools[a], namespace, name);
            Resolves(Search(order, tools, namespace, name, found), done + matching)
    decreases order
  {
    var matching := set a <- order | Matches(tools[a], namespace, name);
    if order == [] {
      assert done + matching == done;
    } else {
      var a, rest := order[0], order[1..];
      assert order == [a] + rest && a in order;
      forall x | x in rest ensures x in order && x != a {
        var i :| 0 <= i < |rest| && rest[i] == x;
        assert order[i + 1] == x;
      }
      assert Distinct(rest);
      var more := set x <- rest | Matches(tools[x], namespace, name);
      if Matches(tools[a], namespace, name) {
        assert done + matching == (done + {a}) + more;
        if found == Missing {
          SearchResolves(rest, tools, namespace, name, Means(a), done + {a});
        } else {
          assert found.alias in done + matching && a in done + matching && found.alias != a;
        }
      } else {
        assert matching == more;
        SearchResolves(rest, tools, namespace, name, found, done);
      }
    }
  }

  /** Whatever order the aliases come in, a call means the one declaration it matches, or is refused alike. */
  lemma OrderDoesNotMatter(order: seq<string>, other: seq<string>, tools: Tools, namespace: string, name: string)
    requires Enumerates(order, tools) && Enumerates(other, tools)
    ensures Search(order, tools, namespace, name, Missing) == Search(other, tools, namespace, name, Missing)
    ensures Resolves(Search(order, tools, namespace, name, Missing), Matching(tools, namespace, name))
  {
    SearchResolves(order, tools, namespace, name, Missing, {});
    SearchResolves(other, tools, namespace, name, Missing, {});
    var a := set x <- order | Matches(tools[x], namespace, name);
    var b := set x <- other | Matches(tools[x], namespace, name);
    assert a == Matching(tools, namespace, name) && b == Matching(tools, namespace, name);
    assert {} + a == a && {} + b == b;
    OneResolution(Search(order, tools, namespace, name, Missing), Search(other, tools, namespace, name, Missing), a);
  }

  lemma OneResolution(r: Found, s: Found, matching: set<string>)
    requires Resolves(r, matching) && Resolves(s, matching)
    ensures r == s
  {
    if r.Means? && s.Means? {
      assert r.alias in {s.alias};
    }
  }

  /** Whatever resolves the matches is what the search in any order finds. */
  lemma SearchIs(r: Found, order: seq<string>, tools: Tools, namespace: string, name: string)
    requires Enumerates(order, tools) && Resolves(r, Matching(tools, namespace, name))
    ensures r == Search(order, tools, namespace, name, Missing)
  {
    OrderDoesNotMatter(order, order, tools, namespace, name);
    OneResolution(r, Search(order, tools, namespace, name, Missing), Matching(tools, namespace, name));
  }

  /** A search that has been through all aliases but `left`, and has not been found ambiguous. */
  ghost predicate Partial(tools: Tools, left: set<string>, namespace: string, name: string, found: Found) {
    left <= tools.Keys && found != Ambiguous && Resolves(found, MatchingIn(tools.Keys - left, tools, namespace, name))
  }

  lemma PartialStep(tools: Tools, left: set<string>, namespace: string, name: string, found: Found, alias: string)
    requires Partial(tools, left, namespace, name, found) && alias in left
    ensures !Matches(tools[alias], namespace, name) ==> Partial(tools, left - {alias}, namespace, name, found)
    ensures Matches(tools[alias], namespace, name) && found == Missing ==>
              Partial(tools, left - {alias}, namespace, name, Means(alias))
    ensures Matches(tools[alias], namespace, name) && found != Missing ==>
              Resolves(Ambiguous, Matching(tools, namespace, name))
  {
    var done := tools.Keys - left;
    assert tools.Keys - (left - {alias}) == done + {alias};
    OneMore(done, alias, tools, namespace, name);
    if found.Means? {
      assert found.alias in MatchingIn(done, tools, namespace, name);
      assert found.alias in Matching(tools, namespace, name);
    }
    if Matches(tools[alias], namespace, name) {
      assert alias in Matching(tools, namespace, name);
    }
  }

  lemma PartialEnds(tools: Tools, namespace: string, name: string, found: Found)
    requires Partial(tools, {}, namespace, name, found)
    ensures Resolves(found, Matching(tools, namespace, name))
  {
    assert tools.Keys - {} == tools.Keys;
    AllOfThem(tools, namespace, name);
  }
}
