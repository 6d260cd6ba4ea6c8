// After any history the tree of domains holds what a flat map from domain and user to
// secret would, and removedomain deletes at most two subtrees.

module DirectoryRefinement {
  import opened Common
  import opened Directory
  import opened DirectoryRemoval

  // ---- adding and looking up

  /** The node adddomain returns is the one later lookups find exactly when the domain
      has at most five labels: adddomain accepts more, lookups do not. */
  lemma AddedIsFoundIff(v: View, domain: string)
    ensures LookupDomain(AddDomain(v, domain), domain) == Some(PathOf(domain)) <==> |Split(domain)| <= MAX_LABELS
  {
    AddPathHas(v, PathOf(domain));
  }

  function Letters(s: string): nat {
    if s == "" then 0 else Letters(s[..|s| - 1]) + (if s[|s| - 1] == '.' then 0 else 1)
  }

  function Lengths(l: seq<string>): nat {
    if l == [] then 0 else |l[0]| + Lengths(l[1..])
  }

  lemma {:induction false} LettersAdd(a: string, b: string)
    ensures Letters(a + b) == Letters(a) + Letters(b)
    decreases |b|
  {
    if b == "" {
      assert a + b == a;
    } else {
      assert (a + b)[..|a + b| - 1] == a + b[..|b| - 1];
      LettersAdd(a, b[..|b| - 1]);
    }
  }

  lemma {:induction false} LengthsAdd(a: seq<string>, x: string)
    ensures Lengths(a + [x]) == Lengths(a) + |x|
  {
    if a == [] {
      assert a + [x] == [x];
    } else {
      assert (a + [x])[1..] == a[1..] + [x];
      LengthsAdd(a[1..], x);
    }
  }

  lemma {:induction false} SplitFromLetters(domain: string, item: string)
    ensures Lengths(SplitFrom(domain, item)) == Letters(domain) + |item|
    decreases |domain|
  {
    if domain != "" {
      assert domain == [domain[0]] + domain[1..];
      LettersAdd([domain[0]], domain[1..]);
      assert [domain[0]][..0] == "";
      if domain[0] == '.' {
        var rest := SplitFrom(domain[1..], "");
        SplitFromLetters(domain[1..], "");
        assert ([item] + rest)[1..] == rest;
      } else {
        SplitFromLetters(domain[1..], item + [domain[0]]);
      }
    }
  }

  lemma {:induction false} ReversedLengths(l: seq<string>)
    ensures Lengths(Reversed(l)) == Lengths(l)
  {
    if l != [] {
      ReversedLengths(l[1..]);
      LengthsAdd(Reversed(l[1..]), l[0]);
    }
  }

  lemma PathLetters(domain: string)
    ensures Lengths(PathOf(domain)) == Letters(domain)
  {
    SplitFromLetters(domain, "");
    ReversedLengths(Split(domain));
  }

  lemma NoColonBeforePort(domain: string)
    ensures BeforePort(domain) == domain || Letters(BeforePort(domain)) < Letters(domain)
  {
    var d := BeforePort(domain);
    if |d| < |domain| {
      assert domain == d + domain[|d|..] && domain[|d|..] == [':'] + domain[|d| + 1..];
      LettersAdd(d, domain[|d|..]);
      LettersAdd([':'], domain[|d| + 1..]);
      assert Letters([':']) == 1;
    }
  }

  /** Lookups by realm cut the name at its first colon, adddomain does not: the node is
      found exactly when the name has no colon and at most five labels. */
  lemma AddedIsFoundByRealmIff(v: View, domain: string)
    ensures LookupDomain(AddDomain(v, domain), BeforePort(domain)) == Some(PathOf(domain)) <==>
              |Split(domain)| <= MAX_LABELS && ':' !in domain
  {
    AddedIsFoundIff(v, domain);
    NoColonBeforePort(domain);
    PathLetters(domain);
    PathLetters(BeforePort(domain));
    assert ':' in domain <==> BeforePort(domain) != domain;
  }

  /** Adding a domain creates its missing ancestors and changes no other lookup. */
  lemma AddDomainKeepsLookups(v: View, domain: string, other: string, user: string)
    ensures LookupDomain(AddDomain(v, domain), other) ==
      if |Split(other)| <= MAX_LABELS && Under(PathOf(other), PathOf(domain)) then Some(PathOf(other))
      else LookupDomain(v, other)
    ensures LookupPassword(AddDomain(v, domain), other, user) == LookupPassword(v, other, user)
  {
    AddPathOnlyAdds(v, PathOf(domain));
  }

  /** Every operation keeps ancestors present. */
  lemma OperationsKeepClosed(v: View, domain: string, user: string, secret: string, entries: seq<UserEntry>)
    requires Closed(v)
    ensures Closed(AddDomain(v, domain)) && Closed(AddUser(v, domain, user, secret))
    ensures Closed(Put(v, domain, entries)) && Closed(DeleteUser(v, domain, user))
  {
    var p := PathOf(domain);
    AddPathOnlyAdds(v, p);
    AddPathHas(v, p);
    var w := AddDomain(v, domain);
    forall q, l | Child(q, l) in w && q != []
      ensures q in w
    {
      assert Child(q, l) !in v ==> Under(Child(q, l), p);
      assert Under(Child(q, l), p) ==> Under(q, p);
    }
  }

  lemma PruneKeepsClosed(v: View, q: Path)
    requires Closed(v)
    ensures Closed(Prune(v, q))
  {
    forall p, l | Child(p, l) in Prune(v, q) && p != []
      ensures p in Prune(v, q)
    {
      assert Under(q, p) ==> Under(q, Child(p, l));
    }
  }

  lemma {:induction false} RemoveKeepsClosed(v: View, domain: string, force: bool)
    requires Closed(v)
    ensures Closed(RemoveDomain(v, domain, force).0)
    decreases |domain|
  {
    hide Closed;
    var i := FirstDot(domain);
    if i < |domain| {
      var rest := domain[i + 1..];
      if LookupDomain(v, rest).Some? {
        var q := Child(PathOf(rest), domain[..i]);
        PruneKeepsClosed(v, q);
        RemoveKeepsClosed(Prune(v, q), rest, false);
      }
    } else {
      PruneKeepsClosed(v, [domain]);
    }
  }

  // ---- the flat map

  datatype Op =
    | Create(domain: string)
    | SetUser(domain: string, user: string, secret: string)
    | Replace(domain: string, entries: seq<UserEntry>)
    | Forget(domain: string, user: string)
    | Remove(domain: string)

  function Apply(v: View, op: Op): View {
    match op
    case Create(d) => AddDomain(v, d)
    case SetUser(d, u, s) => AddUser(v, d, u, s)
    case Replace(d, es) => Put(v, d, es)
    case Forget(d, u) => DeleteUser(v, d, u)
    case Remove(d) => RemoveDomain(v, d, true).0
  }

  function RunTree(ops: seq<Op>): View {
    if ops == [] then map[] else Apply(RunTree(ops[..|ops| - 1]), ops[|ops| - 1])
  }

  /** In every reachable tree the ancestors of a node are there. */
  lemma {:induction false} HistoriesAreClosed(ops: seq<Op>)
    ensures Closed(RunTree(ops))
  {
    hide Closed, Apply;
    if ops == [] {
      assert Closed(map[]) by { EmptyIsClosed(); }
    } else {
      HistoriesAreClosed(ops[..|ops| - 1]);
      ApplyKeepsClosed(RunTree(ops[..|ops| - 1]), ops[|ops| - 1]);
    }
  }

  lemma EmptyIsClosed()
    ensures Closed(map[])
  {
  }

  lemma ApplyKeepsClosed(v: View, op: Op)
    requires Closed(v)
    ensures Closed(Apply(v, op))
  {
    hide Closed, AddUser, DeleteUser;
    match op
    case Create(d) => OperationsKeepClosed(v, d, "", "", []);
    case SetUser(d, u, s) => OperationsKeepClosed(v, d, u, s, []);
    case Replace(d, es) => OperationsKeepClosed(v, d, "", "", es);
    case Forget(d, u) => OperationsKeepClosed(v, d, u, "", []);
    case Remove(d) => RemoveKeepsClosed(v, d, true);
  }

  /** The secret of the last complete entry for a user. */
  function LastSecret(entries: seq<UserEntry>, user: string): Option<string> {
    if entries == [] then None
    else
      var e := entries[|entries| - 1];
      if e.username == Some(user) && e.secret.Some? then e.secret
      else LastSecret(entries[..|entries| - 1], user)
  }

  /** What one operation on the tree v leaves in the flat map for a path and user that had
      before. A removal takes away what is at and below the tops it reaches. */
  function FlatEffect(v: View, op: Op, p: Path, user: string, before: Option<string>): Option<string> {
    if op.Remove? then (if Spared(Tops(v, PathOf(op.domain), EndsInDot(op.domain)), p) then before else None)
    else if PathOf(op.domain) != p then before
    else if op.SetUser? then (if op.user == user then Some(op.secret) else before)
    else if op.Replace? then LastSecret(op.entries, user)
    else if op.Forget? && op.user == user && |p| <= MAX_LABELS then None
    else before
  }

  /** The flat map after a history. */
  function FlatEntry(ops: seq<Op>, p: Path, user: string): Option<string> {
    if ops == [] then None
    else
      var front := ops[..|ops| - 1];
      FlatEffect(RunTree(front), ops[|ops| - 1], p, user, FlatEntry(front, p, user))
  }

  function Entry(users: Users, user: string): Option<string> {
    if user in users then Some(users[user]) else None
  }

  function EntryAt(v: View, p: Path, user: string): Option<string> {
    if p in v then Entry(v[p], user) else None
  }

  lemma {:induction false} LastDuplicateWins(entries: seq<UserEntry>, user: string)
    ensures Entry(AddEntries(map[], entries), user) == LastSecret(entries, user)
  {
    if entries != [] {
      LastDuplicateWins(entries[..|entries| - 1], user);
    }
  }

  lemma ApplyEntry(v: View, op: Op, p: Path, user: string)
    requires Closed(v)
    ensures EntryAt(Apply(v, op), p, user) == FlatEffect(v, op, p, user, EntryAt(v, p, user))
  {
    hide Tops, PruneAll, RemoveDomain, Spared;
    if op.Remove? {
      ForcedRemoval(v, op.domain);
      PruneAllSpares(v, Tops(v, PathOf(op.domain), EndsInDot(op.domain)));
    } else {
      AddPathOnlyAdds(v, PathOf(op.domain));
      if op.Replace? { LastDuplicateWins(op.entries, user); }
    }
  }

  /** Whatever the name, forced or not, in any tree: a removal adds and alters no node. */
  lemma {:induction false} RemoveOnlyPrunes(v: View, domain: string, force: bool)
    ensures var w := RemoveDomain(v, domain, force).0; forall p :: p in w ==> p in v && w[p] == v[p]
    decreases |domain|
  {
    hide FirstDot, Subdomains, PathOf;
    var i := FirstDot(domain);
    if i < |domain| {
      var rest := domain[i + 1..];
      if LookupDomain(v, rest).Some? {
        RemoveOnlyPrunes(Prune(v, Child(PathOf(rest), domain[..i])), rest, false);
      }
    }
  }

  lemma {:induction false} TreeHoldsFlatEntries(ops: seq<Op>, p: Path, user: string)
    ensures EntryAt(RunTree(ops), p, user) == FlatEntry(ops, p, user)
  {
    if ops != [] {
      TreeHoldsFlatEntries(ops[..|ops| - 1], p, user);
      HistoriesAreClosed(ops[..|ops| - 1]);
      ApplyEntry(RunTree(ops[..|ops| - 1]), ops[|ops| - 1], p, user);
    }
  }

  /** Main result: after any history, looking up a password in the tree gives what the
      flat map holds, for every domain of at most five labels; longer ones are never found. */
  lemma TreeRefinesFlatMap(ops: seq<Op>, domain: string, user: string)
    ensures LookupPassword(RunTree(ops), domain, user) ==
      if |Split(domain)| <= MAX_LABELS then FlatEntry(ops, PathOf(domain), user) else None
  {
    TreeHoldsFlatEntries(ops, PathOf(domain), user);
  }

  // ---- removing, after any history

  /** Main result: whatever the name, a forced removedomain deletes exactly the subtrees at
      its tops, and answers whether there are any. */
  lemma RemoveDeletesSubtrees(ops: seq<Op>, domain: string)
    ensures var v := RunTree(ops); var tops := Tops(v, PathOf(domain), EndsInDot(domain));
      RemoveDomain(v, domain, true) == (map p | p in v && Spared(tops, p) :: v[p], tops != [])
  {
    HistoriesAreClosed(ops);
    ForcedRemoval(RunTree(ops), domain);
    PruneAllSpares(RunTree(ops), Tops(RunTree(ops), PathOf(domain), EndsInDot(domain)));
  }

  /** A name that does not end in a dot has at most one top, at or above the domain itself. One
      that does may have a second: the empty label, or the node for its last label below that. */
  lemma TopsAreAbove(ops: seq<Op>, domain: string)
    ensures var v, q := RunTree(ops), PathOf(domain); var tops := Tops(v, q, EndsInDot(domain));
      && |tops| <= (if EndsInDot(domain) then 2 else 1)
      && forall i :: 0 <= i < |tops| ==>
           && tops[i] in v && tops[i] != []
           && (Under(tops[i], q) || (EndsInDot(domain) && i == |tops| - 1 && Under(tops[i], ["", q[0]])))
  {
    HistoriesAreClosed(ops);
    TopsPresent(RunTree(ops), PathOf(domain), EndsInDot(domain));
  }

  /** Every lookup outside those subtrees answers as before, and none inside does. */
  lemma RemoveKeepsOtherLookups(ops: seq<Op>, domain: string, other: string, user: string)
    ensures var v, w := RunTree(ops), RemoveDomain(RunTree(ops), domain, true).0;
      LookupPassword(w, other, user) ==
        if Spared(Tops(v, PathOf(domain), EndsInDot(domain)), PathOf(other)) then LookupPassword(v, other, user) else None
  {
    hide Tops, Spared, RemoveDomain;
    RemoveDeletesSubtrees(ops, domain);
  }

  /** removedomain does what its documentation says, whatever the name, exactly under
      RemovesAsDocumented. */
  lemma RemoveAsDocumentedIff(ops: seq<Op>, domain: string)
    ensures var v, q := RunTree(ops), PathOf(domain);
      RemoveDomain(v, domain, true).0 == Documented(v, q) <==> RemovesAsDocumented(v, q, EndsInDot(domain))
  {
    HistoriesAreClosed(ops);
    AsDocumentedIff(RunTree(ops), domain);
  }

  // ---- the documentation's example

  predicate IsLabel(l: string) { l != "" && forall i :: 0 <= i < |l| ==> l[i] != '.' }

  lemma PathOfLabel(l: string)
    requires IsLabel(l)
    ensures PathOf(l) == [l] && !EndsInDot(l) && FirstDot(l) == |l|
  {
    assert FirstDot(l) == |l|;
    PathOfOneLabel(l);
  }

  lemma LabelAtDot(l: string, parent: string)
    requires IsLabel(l)
    ensures var domain := l + "." + parent;
      FirstDot(domain) == |l| && domain[..|l|] == l && domain[|l| + 1..] == parent
  {
    var domain := l + "." + parent;
    assert domain[|l|] == '.' && forall i :: 0 <= i < |l| ==> domain[i] == l[i];
  }

  lemma PathOfChild(l: string, parent: string)
    requires IsLabel(l) && parent != ""
    ensures PathOf(l + "." + parent) == Child(PathOf(parent), l) && EndsInDot(l + "." + parent) == EndsInDot(parent)
  {
    LabelAtDot(l, parent);
    PathAtDot(l + "." + parent, |l|);
  }

  lemma PathOfThree(a: string, b: string, c: string)
    requires IsLabel(a) && IsLabel(b) && IsLabel(c)
    ensures PathOf(a + "." + (b + "." + c)) == [c, b, a] && !EndsInDot(a + "." + (b + "." + c))
  {
    PathOfLabel(c);
    PathOfChild(b, c);
    PathOfChild(a, b + "." + c);
  }

  /** The tree of the example: com with babblevoice and yadaya, and bling below both. */
  lemma ExampleTree(com: string, babblevoice: string, yadaya: string, bling: string)
    requires IsLabel(com) && IsLabel(babblevoice) && IsLabel(yadaya) && IsLabel(bling)
    ensures RunTree([Create(bling + "." + (babblevoice + "." + com)), Create(bling + "." + (yadaya + "." + com))])
         == map[[com] := map[], [com, babblevoice] := map[], [com, babblevoice, bling] := map[],
                [com, yadaya] := map[], [com, yadaya, bling] := map[]]
  {
    PathOfThree(bling, babblevoice, com);
    PathOfThree(bling, yadaya, com);
    var first, second := Create(bling + "." + (babblevoice + "." + com)), Create(bling + "." + (yadaya + "." + com));
    TwoCreated(first.domain, second.domain);
    ThreeNodes(map[], com, babblevoice, bling);
    hide AddPath, RunTree, PathOf;
    var v := AddPath(map[], [com, babblevoice, bling]);
    assert v == map[[com] := map[], [com, babblevoice] := map[], [com, babblevoice, bling] := map[]];
    ThreeNodes(v, com, yadaya, bling);
  }

  lemma TwoCreated(first: string, second: string)
    ensures RunTree([Create(first), Create(second)]) == AddPath(AddPath(map[], PathOf(first)), PathOf(second))
  {
    hide AddPath, PathOf;
    var ops := [Create(first), Create(second)];
    assert ops[..1] == [Create(first)] && [Create(first)][..0] == [];
    assert RunTree([]) == map[];
    assert RunTree(ops[..1]) == AddPath(map[], PathOf(first));
  }

  lemma ThreeNodes(v: View, a: string, b: string, c: string)
    ensures AddPath(v, [a, b, c]) == AddNode(AddNode(AddNode(v, [a]), [a, b]), [a, b, c])
  {
    assert [a, b, c][..2] == [a, b] && [a, b][..1] == [a] && [a][..0] == [];
    assert AddPath(v, [a]) == AddNode(v, [a]);
    assert AddPath(v, [a, b]) == AddNode(AddPath(v, [a]), [a, b]);
  }

  /** The documentation's own example: com holds babblevoice with bling, and yadaya with
      bling. Removing bling.babblevoice.com is said to leave yadaya; it leaves nothing. */
  lemma DocumentedExampleFails(com: string, babblevoice: string, yadaya: string, bling: string)
    requires IsLabel(com) && IsLabel(babblevoice) && IsLabel(yadaya) && IsLabel(bling) && babblevoice != yadaya
    ensures var first, second := bling + "." + (babblevoice + "." + com), bling + "." + (yadaya + "." + com);
            RemoveDomain(RunTree([Create(first), Create(second)]), first, true) == (map[], true)
  {
    var first, second := bling + "." + (babblevoice + "." + com), bling + "." + (yadaya + "." + com);
    var ops := [Create(first), Create(second)];
    PathOfThree(bling, babblevoice, com);
    ExampleTree(com, babblevoice, yadaya, bling);
    HistoriesAreClosed(ops);
    ForcedRemoval(RunTree(ops), first);
    hide RemoveDomain, RunTree, PathOf, ActualTop, Prune, IsLabel, EndsInDot;
    ExampleTop(RunTree(ops), com, babblevoice, yadaya, bling);
    ExamplePruned(RunTree(ops), com, babblevoice, yadaya, bling);
  }

  lemma ExamplePruned(v: View, com: string, babblevoice: string, yadaya: string, bling: string)
    requires v == map[[com] := map[], [com, babblevoice] := map[], [com, babblevoice, bling] := map[],
                      [com, yadaya] := map[], [com, yadaya, bling] := map[]]
    ensures Prune(v, [com]) == map[] && [com, babblevoice, bling] in v
  {
    assert forall p :: p in v ==> Under([com], p);
  }

  lemma ExampleTop(v: View, com: string, babblevoice: string, yadaya: string, bling: string)
    requires babblevoice != yadaya
    requires v == map[[com] := map[], [com, babblevoice] := map[], [com, babblevoice, bling] := map[],
                      [com, yadaya] := map[], [com, yadaya, bling] := map[]]
    ensures ActualTop(v, [com, babblevoice, bling], 3) == 1 && [com, babblevoice, bling][..1] == [com]
  {
    var q := [com, babblevoice, bling];
    assert q[..3] == q && q[..2] == [com, babblevoice] && q[..1] == [com];
    forall p | p in Subdomains(v, q[..2])
      ensures p == q
    {
      assert p == q || p == [com, yadaya, bling];
      assert [com, yadaya, bling][1] == yadaya;
    }
    assert Deserted(v, q[..2], q[..3]);
    assert ActualTop(v, q, 2) == 1;
  }

  // ---- names that end in a dot

  lemma PathOfDottedLabel(l: string)
    requires IsLabel(l)
    ensures PathOf(l + ".") == [l] && EndsInDot(l + ".")
    ensures PathOf(l + "..") == ["", l] && EndsInDot(l + "..")
  {
    var one, two := l + ".", l + "..";
    assert one == l + "." + "" && two == l + "." + ".";
    LabelAtDot(l, "");
    LabelAtDot(l, ".");
    hide IsLabel;
    PathOfDotted(one, |l|);
    assert FirstDot(".") == 0 && "."[..0] == "";
    hide FirstDot, PathOf;
    PathOfDotted(".", 0);
    PathAtDot(two, |l|);
  }

  /** The tree with com and host.com in it, and with com and the empty label besides. */
  function Two(com: string, host: string): View { map[[com] := map[], [com, host] := map[]] }
  function Four(com: string, host: string): View { Two(com, host)[[""] := map[]][["", com] := map[]] }

  lemma TwoMade(com: string, host: string)
    requires IsLabel(com) && IsLabel(host)
    ensures PathOf(host + "." + com) == [com, host] && !EndsInDot(host + "." + com)
    ensures RunTree([Create(host + "." + com)]) == Two(com, host)
    ensures RunTree([Create(host + "." + com), Create(com + "..")]) == Four(com, host)
  {
    PathOfLabel(com);
    PathOfChild(host, com);
    PathOfDottedLabel(com);
    TwoCreated(host + "." + com, com + "..");
    hide AddPath, RunTree, PathOf;
    TwoNodes(map[], com, host);
    TwoNodes(Two(com, host), "", com);
    assert [com] != [""];
  }

  lemma TwoNodes(v: View, a: string, b: string)
    ensures AddPath(v, [a, b]) == AddNode(AddNode(v, [a]), [a, b])
  {
    assert [a, b][..1] == [a] && [a][..0] == [];
    assert AddPath(v, [a]) == AddNode(v, [a]);
  }

  lemma TwoPruned(com: string, host: string)
    requires com != "" && host != ""
    ensures Prune(Two(com, host), [com]) == map[]
    ensures Prune(Two(com, host), [com, host]) == map[[com] := map[]]
    ensures Prune(Prune(Four(com, host), [com, host]), [""]) == map[[com] := map[]]
  {
    assert [com, host][0] == com && [com][0] == com && ["", com][0] == "";
    assert Under([com], [com, host]) && Under([""], ["", com]);
  }

  lemma TwoTopsHere(com: string, host: string)
    requires com != "" && host != ""
    ensures var q := [com, host];
      && Tops(Two(com, host), q, false) == [[com]] && Tops(Two(com, host), q, true) == [q]
      && Tops(Two(com, host), [com], true) == [] && Tops(Four(com, host), q, true) == [q, [""]]
  {
    var q, v, u := [com, host], Two(com, host), Four(com, host);
    assert q[..1] == [com] && q[..2] == q && ["", com][..1] == [""] && ["", com][..2] == ["", com];
    assert Subdomains(v, [com]) - {q} == {};
    var w := Prune(u, q);
    assert [""] in w && ["", com] in w && !Under(q, [""]) && !Under(q, ["", com]);
    forall p ensures p !in Subdomains(w, ["", com]) {}
    assert Stray(w, com);
  }

  /** A dot at the end of the name: host.com. leaves the deserted com, which host.com does not;
      com. is found by lookups but not removed; and if a node for com is below the empty
      label, removing host.com. takes it away too. */
  lemma TrailingDotFails(com: string, host: string)
    requires IsLabel(com) && IsLabel(host)
    ensures var v, u := RunTree([Create(host + "." + com)]), RunTree([Create(host + "." + com), Create(com + "..")]);
      && RemoveDomain(v, host + "." + com, true) == (map[], true)
      && RemoveDomain(v, host + "." + (com + "."), true) == (map[[com] := map[]], true)
      && LookupDomain(v, com + ".") == Some([com]) && RemoveDomain(v, com + ".", true) == (v, false)
      && [""] in u && ["", com] in u && RemoveDomain(u, host + "." + (com + "."), true) == (map[[com] := map[]], true)
  {
    var v, u := Two(com, host), Four(com, host);
    TwoMade(com, host);
    PathOfDottedLabel(com);
    PathOfChild(host, com + ".");
    TwoTopsHere(com, host);
    TwoPruned(com, host);
    HistoriesAreClosed([Create(host + "." + com)]);
    HistoriesAreClosed([Create(host + "." + com), Create(com + "..")]);
    hide RunTree, Tops, RemoveDomain, Prune, EndsInDot, Closed;
    ForcedRemoval(v, host + "." + com);
    ForcedRemoval(v, host + "." + (com + "."));
    ForcedRemoval(v, com + ".");
    ForcedRemoval(u, host + "." + (com + "."));
    OneTop(v, [com]);
    OneTop(v, [com, host]);
    TwoTops(u, [com, host], [""]);
    assert |Split(com + ".")| == 1;
  }
}
