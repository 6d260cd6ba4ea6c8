// The directory of SIP domains: what it holds, seen as a flat map from label paths
// to the users at that node, and what each operation does to that map.

module Directory {
  import opened Common

  /** A path through the tree, top-level label first: com, babblevoice, bling. */
  type Path = seq<string>
  type Users = map<string, string>

  /** The nodes of the tree below its root, each with its users. */
  type View = map<Path, Users>

  const MAX_LABELS := 5

  /** splitstring( domain, '.' ): the labels from left to right. A last empty item is
      dropped, except that the result is never empty. item is the label being built. */
  function SplitFrom(domain: string, item: string): (r: seq<string>)
    decreases |domain|
  {
    if domain == "" then (if item != "" then [item] else [])
    else if domain[0] == '.' then [item] + SplitFrom(domain[1..], "")
    else SplitFrom(domain[1..], item + [domain[0]])
  }

  function Split(domain: string): (r: seq<string>)
    ensures r != []
  {
    var l := SplitFrom(domain, "");
    if l == [] then [""] else l
  }

  function Reversed(l: seq<string>): (r: Path)
    ensures |r| == |l|
  {
    if l == [] then [] else Reversed(l[1..]) + [l[0]]
  }

  lemma {:induction false} ReversedAt(l: seq<string>, i: nat)
    requires i < |l|
    ensures Reversed(l)[i] == l[|l| - 1 - i]
  {
    if i < |l| - 1 {
      ReversedAt(l[1..], i);
    }
  }

  function PathOf(domain: string): (p: Path)
    ensures |p| == |Split(domain)| && p != []
  {
    Reversed(Split(domain))
  }

  /** q is p or an ancestor of p. */
  predicate Under(q: Path, p: Path) { q <= p }

  function Child(p: Path, name: string): (c: Path)
    ensures |c| == |p| + 1 && c[..|p|] == p && c[|p|] == name
  {
    p + [name]
  }

  /** Every ancestor of a node is a node. The root is not listed. */
  ghost predicate Closed(v: View) {
    && [] !in v
    && forall p, l :: Child(p, l) in v && p != [] ==> p in v
  }

  function LookupDomain(v: View, domain: string): Option<Path> {
    if |Split(domain)| > MAX_LABELS || PathOf(domain) !in v then None else Some(PathOf(domain))
  }

  function LookupPassword(v: View, domain: string, user: string): Option<string> {
    var at := LookupDomain(v, domain);
    if at.Some? && user in v[at.value] then Some(v[at.value][user]) else None
  }

  /** A realm may carry a port; lookups by realm look at what comes before the first colon. */
  function BeforePort(realm: string): (d: string)
    ensures d <= realm && (|d| < |realm| ==> realm[|d|] == ':') && forall i :: 0 <= i < |d| ==> d[i] != ':'
  {
    if realm == "" || realm[0] == ':' then "" else [realm[0]] + BeforePort(realm[1..])
  }

  /** One more node without users, if it is not there yet. */
  function AddNode(v: View, q: Path): View {
    if q in v then v else v[q := map[]]
  }

  /** p and its missing ancestors, added from the top down. */
  function AddPath(v: View, p: Path): View {
    if p == [] then v else AddNode(AddPath(v, p[..|p| - 1]), p)
  }

  /** Adding a path changes nothing that is there, and adds p and its missing
      ancestors without users. */
  lemma {:induction false} AddPathOnlyAdds(v: View, p: Path)
    ensures forall q :: q in AddPath(v, p) <==> q in v || (q != [] && Under(q, p))
    ensures forall q :: q in AddPath(v, p) ==> AddPath(v, p)[q] == if q in v then v[q] else map[]
  {
    if p != [] {
      AddPathOnlyAdds(v, p[..|p| - 1]);
      assert forall q :: Under(q, p) <==> q == p || Under(q, p[..|p| - 1]);
    }
  }

  function AddDomain(v: View, domain: string): View { AddPath(v, PathOf(domain)) }

  /** One entry of the users array of a PUT; either member may be missing. */
  datatype UserEntry = UserEntry(username: Option<string>, secret: Option<string>)

  function AddEntries(users: Users, entries: seq<UserEntry>): Users {
    if entries == [] then users
    else
      var before, e := AddEntries(users, entries[..|entries| - 1]), entries[|entries| - 1];
      if e.username.None? || e.secret.None? then before else before[e.username.value := e.secret.value]
  }

  /** adddomain( domain )->adduser( user, secret ) */
  function AddUser(v: View, domain: string, user: string, secret: string): View {
    var w, p := AddDomain(v, domain), PathOf(domain);
    AddPathHas(v, p);
    w[p := w[p][user := secret]]
  }

  lemma AddPathHas(v: View, p: Path)
    requires p != []
    ensures p in AddPath(v, p)
  {
  }

  /** PUT /dir/<domain>: create it if need be, then replace its users. */
  function Put(v: View, domain: string, entries: seq<UserEntry>): View {
    AddDomain(v, domain)[PathOf(domain) := AddEntries(map[], entries)]
  }

  /** DELETE /dir/<domain>/<user> */
  function DeleteUser(v: View, domain: string, user: string): View {
    var at := LookupDomain(v, domain);
    if at.None? then v else v[at.value := v[at.value] - {user}]
  }

  function Prune(v: View, q: Path): View { map p | p in v && !Under(q, p) :: v[p] }

  function Subdomains(v: View, q: Path): set<Path> { set p | p in v && |p| == |q| + 1 && Under(q, p) }

  /** The position of the first dot, or the length. */
  function FirstDot(s: string): (i: nat)
    ensures i <= |s| && (i < |s| ==> s[i] == '.') && forall k :: 0 <= k < i ==> s[k] != '.'
  {
    if s == "" || s[0] == '.' then 0 else FirstDot(s[1..]) + 1
  }

  /** removedomain, as written: below the top level a node goes if forced or if it has
      neither users nor subdomains; at the top level if it lacks one or the other. */
  function RemoveDomain(v: View, domain: string, force: bool): (r: (View, bool))
    decreases |domain|
  {
    var i := FirstDot(domain);
    if i < |domain| then
      var rest := domain[i + 1..];
      var parent := LookupDomain(v, rest);
      if parent.None? then (v, false)
      else
        var q := Child(parent.value, domain[..i]);
        if q in v && (force || (v[q] == map[] && Subdomains(v, q) == {}))
        then (RemoveDomain(Prune(v, q), rest, false).0, true)
        else (v, false)
    else if [domain] in v && (force || v[[domain]] == map[] || Subdomains(v, [domain]) == {})
      then (Prune(v, [domain]), true)
      else (v, false)
  }
}
