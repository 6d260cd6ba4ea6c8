// removedomain on the map of paths: which subtrees it deletes, and exactly when those are
// the ones its documentation names.

module DirectoryRemoval {
  import opened Directory

  // ---- names and paths

  predicate EndsInDot(domain: string) { domain != "" && domain[|domain| - 1] == '.' }

  lemma {:induction false} SplitFromAtDot(domain: string, item: string)
    ensures var i := FirstDot(domain);
      if i < |domain| then SplitFrom(domain, item) == [item + domain[..i]] + SplitFrom(domain[i + 1..], "")
      else SplitFrom(domain, item) == if item + domain == "" then [] else [item + domain]
    decreases |domain|
  {
    var i := FirstDot(domain);
    assert item + "" == item && domain[..0] == "";
    if domain != "" && domain[0] != '.' {
      SplitFromAtDot(domain[1..], item + [domain[0]]);
      assert item + [domain[0]] + domain[1..] == item + domain;
      if i < |domain| {
        assert item + [domain[0]] + domain[1..][..i - 1] == item + domain[..i];
        assert domain[1..][i..] == domain[i + 1..];
      }
    }
  }

  lemma SplitFromNonempty(domain: string)
    requires domain != ""
    ensures SplitFrom(domain, "") != []
  {
    SplitFromAtDot(domain, "");
    assert "" + domain == domain;
  }

  lemma SplitAtDot(domain: string, i: nat, host: string, rest: string)
    requires i == FirstDot(domain) < |domain| && host == domain[..i] && rest == domain[i + 1..]
    requires rest != ""
    ensures Split(domain) == [host] + Split(rest)
  {
    SplitFromAtDot(domain, "");
    SplitFromNonempty(rest);
    assert "" + host == host;
    SplitParts(domain, host, rest);
  }

  lemma SplitParts(domain: string, host: string, rest: string)
    requires SplitFrom(domain, "") == [host] + SplitFrom(rest, "") && SplitFrom(rest, "") != []
    ensures Split(domain) == [host] + Split(rest)
  {
  }

  lemma SplitWhole(domain: string)
    requires FirstDot(domain) == |domain|
    ensures Split(domain) == [domain]
  {
    SplitFromAtDot(domain, "");
    assert "" + domain == domain;
  }

  lemma ReversedCons(x: string, l: seq<string>)
    ensures Reversed([x] + l) == Child(Reversed(l), x)
  {
    assert ([x] + l)[1..] == l;
  }

  /** Taking off the first label is taking off the last step of the path, and the name
      still ends in a dot or not, unless nothing is left of it. */
  lemma PathAtDot(domain: string, i: nat)
    requires i == FirstDot(domain) < |domain| && domain[i + 1..] != ""
    ensures PathOf(domain) == Child(PathOf(domain[i + 1..]), domain[..i])
    ensures EndsInDot(domain[i + 1..]) == EndsInDot(domain)
  {
    hide FirstDot, Split, PathOf;
    var rest := domain[i + 1..];
    assert rest[|rest| - 1] == domain[|domain| - 1];
    SplitAtDot(domain, i, domain[..i], rest);
    PathFromSplit(domain, domain[..i], rest);
  }

  lemma PathFromSplit(domain: string, host: string, rest: string)
    requires Split(domain) == [host] + Split(rest)
    ensures PathOf(domain) == Child(PathOf(rest), host)
  {
    ReversedCons(host, Split(rest));
  }

  lemma PathOfOneLabel(domain: string)
    requires FirstDot(domain) == |domain|
    ensures PathOf(domain) == [domain]
  {
    SplitWhole(domain);
    ReversedCons(domain, []);
    assert [domain] + [] == [domain];
  }

  /** A single label with a dot after it has the path of the label alone. */
  lemma PathOfDotted(domain: string, i: nat)
    requires i == FirstDot(domain) == |domain| - 1
    ensures PathOf(domain) == [domain[..i]] && EndsInDot(domain)
  {
    var host := domain[..i];
    SplitFromAtDot(domain, "");
    assert "" + host == host && domain[i + 1..] == "";
    hide FirstDot, SplitFrom;
    OneItem(domain, host);
    ReversedCons(host, []);
    assert [host] + [] == [host];
  }

  lemma OneItem(domain: string, host: string)
    requires SplitFrom(domain, "") == [host] + SplitFrom("", "")
    ensures Split(domain) == [host]
  {
  }

  // ---- removing

  /** removedomain on paths. dotted: the name ends in a dot, which the path does not show.
      Its last label is then looked for below the empty label. */
  function RemovePath(v: View, q: Path, dotted: bool, force: bool): (View, bool)
    requires q != []
    decreases |q| + if dotted then 2 else 0
  {
    var p := q[..|q| - 1];
    if p != [] then
      if |p| > MAX_LABELS || p !in v then (v, false)
      else if q in v && (force || (v[q] == map[] && Subdomains(v, q) == {}))
      then (RemovePath(Prune(v, q), p, dotted, false).0, true)
      else (v, false)
    else if dotted then RemovePath(v, ["", q[0]], false, force)
    else if q in v && (force || v[q] == map[] || Subdomains(v, q) == {}) then (Prune(v, q), true)
    else (v, false)
  }

  lemma {:induction false} RemoveDomainIsRemovePath(v: View, domain: string, force: bool)
    ensures RemoveDomain(v, domain, force) == RemovePath(v, PathOf(domain), EndsInDot(domain), force)
    decreases |domain|
  {
    hide Prune, Subdomains, FirstDot, EndsInDot;
    var i := FirstDot(domain);
    if i == |domain| {
      PathOfOneLabel(domain);
      NoDot(domain);
    } else if domain[i + 1..] == "" {
      OneDottedLabel(v, domain, force);
    } else {
      PathAtDot(domain, i);
      var rest := domain[i + 1..];
      var q := PathOf(domain);
      assert q[..|q| - 1] == PathOf(rest);
      RemoveDomainIsRemovePath(Prune(v, q), rest, false);
    }
  }

  lemma NoDot(domain: string)
    requires FirstDot(domain) == |domain|
    ensures !EndsInDot(domain)
  {
  }

  lemma OneDottedLabel(v: View, domain: string, force: bool)
    requires FirstDot(domain) < |domain| && domain[FirstDot(domain) + 1..] == ""
    ensures RemoveDomain(v, domain, force) == RemovePath(v, PathOf(domain), EndsInDot(domain), force)
  {
    hide Prune, Subdomains;
    var host := domain[..FirstDot(domain)];
    PathOfDotted(domain, FirstDot(domain));
    PathOfOneLabel("");
    assert ["", host][..1] == [""] && Child([""], host) == ["", host];
    assert RemoveDomain(Prune(v, ["", host]), "", false) == RemovePath(Prune(v, ["", host]), [""], false, false);
  }

  /** With its child c gone, p would have neither users nor subdomains. */
  predicate Deserted(v: View, p: Path, c: Path) {
    p in v && v[p] == map[] && Subdomains(v, p) - {c} == {}
  }

  /** As the documentation has it: how much of q is left of the highest node to go when
      its first n labels go, n shrinking while the parent would be left deserted. */
  function DocumentedTop(v: View, q: Path, n: nat): (k: nat)
    requires n <= |q|
    ensures k <= n && (n > 0 ==> k > 0)
  {
    if n <= 1 || !Deserted(v, q[..n - 1], q[..n]) then n else DocumentedTop(v, q, n - 1)
  }

  /** As the code has it: at the top level it is enough to lack users or subdomains. */
  function ActualTop(v: View, q: Path, n: nat): (k: nat)
    requires n <= |q|
    ensures k <= n && (n > 0 ==> k > 0)
  {
    if n <= 1 then n
    else if n == 2 then
      if q[..1] in v && (v[q[..1]] == map[] || Subdomains(v, q[..1]) - {q[..2]} == {}) then 1 else 2
    else if !Deserted(v, q[..n - 1], q[..n]) then n
    else ActualTop(v, q, n - 1)
  }

  lemma PruneTwice(v: View, p: Path, c: Path)
    requires Under(p, c)
    ensures Prune(Prune(v, c), p) == Prune(v, p)
  {
    assert forall r :: Under(c, r) ==> Under(p, r);
  }

  lemma PruneSubdomains(v: View, p: Path, c: Path)
    requires Under(p, c) && |c| == |p| + 1
    ensures Subdomains(Prune(v, c), p) == Subdomains(v, p) - {c}
    ensures p in v ==> p in Prune(v, c) && Prune(v, c)[p] == v[p]
  {
    forall r
      ensures r in Subdomains(Prune(v, c), p) <==> r in Subdomains(v, p) - {c}
    {
      assert |r| == |c| ==> (Under(c, r) <==> r == c);
    }
  }

  /** A node without users and subdomains below the empty label. */
  predicate Stray(v: View, x: string) {
    [""] in v && ["", x] in v && v[["", x]] == map[] && Subdomains(v, ["", x]) == {}
  }

  /** As the code has it for names that end in a dot: the top level is never reached. */
  function DottedTop(v: View, q: Path, n: nat): (k: nat)
    requires n <= |q|
    ensures k <= n && (n >= 2 ==> k >= 2)
  {
    if n <= 2 || !Deserted(v, q[..n - 1], q[..n]) then n else DottedTop(v, q, n - 1)
  }

  function PruneAll(v: View, tops: seq<Path>): View {
    if tops == [] then v else PruneAll(Prune(v, tops[0]), tops[1..])
  }

  /** The top of what goes from below the empty label when q goes and its name ends in a dot. */
  function StrayTop(v: View, q: Path): (r: Path)
    requires |q| >= 2
  {
    ["", q[0]][..ActualTop(Prune(v, q[..2]), ["", q[0]], 2)]
  }

  /** The tops of the subtrees that a forced removedomain deletes: none, one or two. */
  function Tops(v: View, q: Path, dotted: bool): (tops: seq<Path>)
    requires q != []
    ensures |tops| <= 2 && (!dotted ==> |tops| <= 1)
    decreases |q| + if dotted then 2 else 0
  {
    if dotted && |q| == 1 then Tops(v, ["", q[0]], false)
    else if q !in v || |q| > MAX_LABELS + 1 then []
    else if !dotted then [q[..ActualTop(v, q, |q|)]]
    else
      var k := DottedTop(v, q, |q|);
      if k == 2 && Stray(Prune(v, q[..2]), q[0]) then [q[..2], StrayTop(v, q)] else [q[..k]]
  }

  /** After the first n labels of q have gone, the unforced calls go on to ActualTop. */
  lemma {:induction false} TidyUp(v: View, q: Path, n: nat)
    requires Closed(v) && q in v && 2 <= n <= |q| && n - 1 <= MAX_LABELS
    ensures RemovePath(Prune(v, q[..n]), q[..n - 1], false, false).0 == Prune(v, q[..ActualTop(v, q, n)])
    decreases n
  {
    var c, p := q[..n], q[..n - 1];
    PruneSubdomains(v, p, c);
    PruneTwice(v, p, c);
    AncestorPresent(v, q, n - 1);
    if n > 2 {
      AncestorPruned(v, q, n);
      TidyUp(v, q, n - 1);
    } else {
      assert p[..0] == [];
    }
  }

  lemma AncestorPruned(v: View, q: Path, n: nat)
    requires Closed(v) && q in v && 3 <= n <= |q|
    ensures q[..n - 1][..n - 2] == q[..n - 2] && q[..n - 2] in Prune(v, q[..n])
  {
    AncestorPresent(v, q, n - 2);
  }

  /** What an unforced call does to x below the empty label. */
  lemma StrayGoes(v: View, x: string)
    ensures RemovePath(v, ["", x], false, false).0 ==
      if Stray(v, x) then Prune(v, ["", x][..ActualTop(v, ["", x], 2)]) else v
  {
    var c, p := ["", x], [""];
    assert c[..1] == p && c[..2] == c && p[..0] == [];
    if Stray(v, x) {
      PruneSubdomains(v, p, c);
      PruneTwice(v, p, c);
    }
  }

  /** For a name that ends in a dot they go on to DottedTop, and then below the empty label. */
  lemma {:induction false} TidyUpDotted(v: View, q: Path, n: nat)
    requires Closed(v) && q in v && 2 <= n <= |q| && n - 1 <= MAX_LABELS
    ensures var k, w := DottedTop(v, q, n), Prune(v, q[..2]);
      RemovePath(Prune(v, q[..n]), q[..n - 1], true, false).0 ==
        if k == 2 && Stray(w, q[0]) then Prune(w, StrayTop(v, q)) else Prune(v, q[..k])
    decreases n
  {
    if n > 2 {
      var c, p := q[..n], q[..n - 1];
      PruneSubdomains(v, p, c);
      PruneTwice(v, p, c);
      AncestorPresent(v, q, n - 1);
      AncestorPruned(v, q, n);
      TidyUpDotted(v, q, n - 1);
    } else {
      assert q[..1] == [q[0]];
      StrayGoes(Prune(v, q[..2]), q[0]);
    }
  }

  lemma {:induction false} AncestorPresent(v: View, q: Path, k: nat)
    requires Closed(v) && q in v && 0 < k <= |q|
    ensures q[..k] in v
    decreases |q|
  {
    if k == |q| {
      assert q[..k] == q;
    } else {
      var p := q[..|q| - 1];
      assert q == Child(p, q[|q| - 1]);
      AncestorPresent(v, p, k);
      assert p[..k] == q[..k];
    }
  }

  lemma ForcedUndotted(v: View, q: Path)
    requires Closed(v) && q != []
    ensures RemovePath(v, q, false, true) == (PruneAll(v, Tops(v, q, false)), Tops(v, q, false) != [])
  {
    var n := |q|;
    assert q[..n] == q;
    if q in v && 2 <= n <= MAX_LABELS + 1 {
      AncestorPresent(v, q, n - 1);
      TidyUp(v, q, n);
    }
  }

  lemma ForcedDotted(v: View, q: Path)
    requires Closed(v) && |q| >= 2
    ensures RemovePath(v, q, true, true) == (PruneAll(v, Tops(v, q, true)), Tops(v, q, true) != [])
  {
    var n := |q|;
    assert q[..n] == q;
    if q in v && n <= MAX_LABELS + 1 {
      AncestorPresent(v, q, n - 1);
      TidyUpDotted(v, q, n);
      var k := DottedTop(v, q, n);
      assert PruneAll(Prune(v, q[..2]), [StrayTop(v, q)]) == Prune(Prune(v, q[..2]), StrayTop(v, q));
      assert [q[..2], StrayTop(v, q)][1..] == [StrayTop(v, q)];
    }
  }

  /** Main result: what a forced removedomain deletes, whatever the name. */
  lemma ForcedRemoval(v: View, domain: string)
    requires Closed(v)
    ensures var tops := Tops(v, PathOf(domain), EndsInDot(domain));
      RemoveDomain(v, domain, true) == (PruneAll(v, tops), tops != [])
  {
    hide Tops, PruneAll, EndsInDot, PathOf, RemoveDomain;
    var q := PathOf(domain);
    RemoveDomainIsRemovePath(v, domain, true);
    if !EndsInDot(domain) {
      ForcedUndotted(v, q);
    } else if |q| >= 2 {
      ForcedDotted(v, q);
    } else {
      ForcedUndotted(v, ["", q[0]]);
      OneLabelDotted(v, q);
    }
  }

  lemma OneLabelDotted(v: View, q: Path)
    requires |q| == 1
    ensures Tops(v, q, true) == Tops(v, ["", q[0]], false)
    ensures RemovePath(v, q, true, true) == RemovePath(v, ["", q[0]], false, true)
  {
  }

  lemma TopsPresent(v: View, q: Path, dotted: bool)
    requires Closed(v) && q != []
    ensures var tops := Tops(v, q, dotted);
      && |tops| <= (if dotted then 2 else 1)
      && forall i :: 0 <= i < |tops| ==>
           && tops[i] in v && tops[i] != []
           && (Under(tops[i], q) || (dotted && i == |tops| - 1 && Under(tops[i], ["", q[0]])))
  {
    if dotted && |q| == 1 {
      var c := ["", q[0]];
      if c in v { AncestorPresent(v, c, ActualTop(v, c, 2)); }
    } else if q in v && |q| <= MAX_LABELS + 1 {
      if !dotted {
        AncestorPresent(v, q, ActualTop(v, q, |q|));
      } else {
        AncestorPresent(v, q, DottedTop(v, q, |q|));
        var w, c := Prune(v, q[..2]), ["", q[0]];
        if Stray(w, q[0]) { AncestorPresent(v, c, ActualTop(w, c, 2)); }
      }
    }
  }

  /** What is left is what is below none of the tops. */
  predicate Spared(tops: seq<Path>, p: Path) { forall i :: 0 <= i < |tops| ==> !Under(tops[i], p) }

  lemma {:induction false} PruneAllSpares(v: View, tops: seq<Path>)
    ensures PruneAll(v, tops) == map p | p in v && Spared(tops, p) :: v[p]
  {
    if tops != [] {
      PruneAllSpares(Prune(v, tops[0]), tops[1..]);
      forall p ensures Spared(tops, p) <==> !Under(tops[0], p) && Spared(tops[1..], p) {
        if !Under(tops[0], p) && Spared(tops[1..], p) {
          forall i | 0 <= i < |tops| ensures !Under(tops[i], p) {
            if i > 0 { assert tops[i] == tops[1..][i - 1]; }
          }
        }
        if Spared(tops, p) {
          forall i | 0 <= i < |tops[1..]| ensures !Under(tops[1..][i], p) { assert tops[1..][i] == tops[i + 1]; }
        }
      }
    }
  }

  // ---- as documented

  /** What the documentation says: the named domain goes, and with it every ancestor that is
      left without users and subdomains. */
  function Documented(v: View, q: Path): View {
    if q in v then Prune(v, q[..DocumentedTop(v, q, |q|)]) else v
  }

  /** All ancestors below the top level would be left deserted. */
  predicate AllDeserted(v: View, q: Path, n: nat)
    requires n <= |q|
  {
    forall k :: 2 <= k < n ==> Deserted(v, q[..k], q[..k + 1])
  }

  /** And the top level would be left with exactly one of users and other subdomains. */
  predicate HalfEmptyTop(v: View, q: Path) {
    && |q| >= 2 && q[..1] in v && AllDeserted(v, q, |q|)
    && ((v[q[..1]] == map[]) != (Subdomains(v, q[..1]) - {q[..2]} == {}))
  }

  lemma {:induction false} TopsAgreeIff(v: View, q: Path, n: nat)
    requires 1 <= n <= |q| && q[..1] in v
    ensures ActualTop(v, q, n) == DocumentedTop(v, q, n) <==>
      !(n >= 2 && AllDeserted(v, q, n)
        && ((v[q[..1]] == map[]) != (Subdomains(v, q[..1]) - {q[..2]} == {})))
  {
    if n > 2 {
      TopsAgreeIff(v, q, n - 1);
      assert q[..n - 1 + 1] == q[..n];
    }
  }

  lemma {:induction false} DottedTopIs(v: View, q: Path, n: nat)
    requires 2 <= n <= |q|
    ensures DottedTop(v, q, n) == 2 <==> AllDeserted(v, q, n)
    ensures DocumentedTop(v, q, n) ==
      if AllDeserted(v, q, n) then (if Deserted(v, q[..1], q[..2]) then 1 else 2) else DottedTop(v, q, n)
    decreases n
  {
    if n > 2 {
      DottedTopIs(v, q, n - 1);
      assert q[..n - 1 + 1] == q[..n];
    } else {
      assert DocumentedTop(v, q, 1) == 1;
    }
  }

  lemma PruneDiffers(v: View, q: Path, j: nat, k: nat)
    requires Closed(v) && q in v && 0 < j < k <= |q|
    ensures Prune(v, q[..j]) != Prune(v, q[..k])
  {
    AncestorPresent(v, q, j);
    assert q[..j] in Prune(v, q[..k]) && q[..j] !in Prune(v, q[..j]);
  }

  /** The condition, for names of either kind. For a name that ends in a dot: a single label
      is only ever removed from below the empty label; and with more labels, an ancestor
      below the top level has to stop the removal, or else the top level has to be worth
      keeping and no stray node below the empty label may go with it. */
  predicate RemovesAsDocumented(v: View, q: Path, dotted: bool)
    requires q != []
  {
    if q !in v then !(dotted && |q| == 1 && ["", q[0]] in v)
    else if |q| > MAX_LABELS + 1 then false
    else if !dotted then !HalfEmptyTop(v, q)
    else if |q| == 1 then
      q == [""] && ["", ""] in v && (v[q] == map[] || Subdomains(v, q) - {["", ""]} == {})
    else !(AllDeserted(v, q, |q|) && (Deserted(v, q[..1], q[..2]) || Stray(Prune(v, q[..2]), q[0])))
  }

  lemma OneTop(v: View, t: Path)
    ensures PruneAll(v, [t]) == Prune(v, t)
  {
    assert PruneAll(Prune(v, t), []) == Prune(v, t);
  }

  lemma UndottedIff(v: View, q: Path)
    requires Closed(v) && q in v && |q| <= MAX_LABELS + 1 && q != []
    ensures PruneAll(v, Tops(v, q, false)) == Documented(v, q) <==> !HalfEmptyTop(v, q)
  {
    var a, d := ActualTop(v, q, |q|), DocumentedTop(v, q, |q|);
    OneTop(v, q[..a]);
    AncestorPresent(v, q, 1);
    TopsAgreeIff(v, q, |q|);
    if a < d {
      PruneDiffers(v, q, a, d);
    } else if d < a {
      PruneDiffers(v, q, d, a);
    }
  }

  lemma OneDottedIff(v: View, x: string)
    requires Closed(v)
    ensures var q := [x];
      PruneAll(v, Tops(v, q, true)) == Documented(v, q) <==> RemovesAsDocumented(v, q, true)
  {
    var q, c := [x], ["", x];
    assert c[..1] == [""] && c[..2] == c && q[..1] == q;
    if c in v {
      var t := ActualTop(v, c, 2);
      OneTop(v, c[..t]);
      assert Under(c[..t], c);
      if q in v && x != "" {
        assert c[..t][0] == "" && q[0] == x;
        assert q in Prune(v, c[..t]) && q !in Prune(v, q);
      } else if q in v && t == 2 {
        assert q in Prune(v, c) && q !in Prune(v, q);
      }
    }
  }

  lemma TwoTops(v: View, s: Path, t: Path)
    ensures PruneAll(v, [s, t]) == Prune(Prune(v, s), t)
  {
    assert [s, t][1..] == [t];
    OneTop(Prune(v, s), t);
  }

  lemma StrayBelowAnother(v: View, q: Path)
    requires |q| >= 2 && Stray(Prune(v, q[..2]), "") && q[0] == ""
    ensures !Deserted(v, q[..1], q[..2])
  {
    var c := ["", ""];
    assert Under(q[..1], c) && c in Subdomains(v, q[..1]) - {q[..2]};
  }

  lemma StrayDiffers(v: View, q: Path)
    requires Closed(v) && q in v && |q| >= 2 && AllDeserted(v, q, |q|) && Stray(Prune(v, q[..2]), q[0])
    ensures PruneAll(v, [q[..2], StrayTop(v, q)]) != Documented(v, q)
  {
    var w, c, t := Prune(v, q[..2]), ["", q[0]], StrayTop(v, q);
    var r := q[..1];
    TwoTops(v, q[..2], t);
    DottedTopIs(v, q, |q|);
    AncestorPresent(v, q, 1);
    AncestorPresent(v, q, 2);
    assert Under(t, c) && c in w && c !in Prune(w, t);
    if q[0] == "" { StrayBelowAnother(v, q); }
    if Deserted(v, r, q[..2]) {
      assert r in Prune(w, t) && r !in Prune(v, r);
    } else {
      assert c in Prune(v, q[..2]);
    }
  }

  lemma DottedIff(v: View, q: Path)
    requires Closed(v) && q in v && 2 <= |q| <= MAX_LABELS + 1
    ensures PruneAll(v, Tops(v, q, true)) == Documented(v, q) <==> RemovesAsDocumented(v, q, true)
  {
    var k := DottedTop(v, q, |q|);
    DottedTopIs(v, q, |q|);
    if k == 2 && Stray(Prune(v, q[..2]), q[0]) {
      StrayDiffers(v, q);
    } else {
      OneTop(v, q[..k]);
      if DocumentedTop(v, q, |q|) < k { PruneDiffers(v, q, DocumentedTop(v, q, |q|), k); }
    }
  }

  /** removedomain does what its documentation says under exactly this condition. */
  lemma AsDocumentedIff(v: View, domain: string)
    requires Closed(v)
    ensures var q, dotted := PathOf(domain), EndsInDot(domain);
      RemoveDomain(v, domain, true).0 == Documented(v, q) <==> RemovesAsDocumented(v, q, dotted)
  {
    hide RemoveDomain, EndsInDot, PathOf;
    var q, dotted := PathOf(domain), EndsInDot(domain);
    ForcedRemoval(v, domain);
    if dotted && |q| == 1 {
      assert q == [q[0]];
      OneDottedIff(v, q[0]);
    } else if q in v && |q| <= MAX_LABELS + 1 {
      if dotted { DottedIff(v, q); } else { UndottedIff(v, q); }
    } else if q in v {
      TooLong(v, q, dotted);
    }
  }

  lemma TooLong(v: View, q: Path, dotted: bool)
    requires q in v && |q| > MAX_LABELS + 1
    ensures PruneAll(v, Tops(v, q, dotted)) != Documented(v, q)
  {
    var d := DocumentedTop(v, q, |q|);
    assert Under(q[..d], q) && q !in Prune(v, q[..d]);
  }
}
