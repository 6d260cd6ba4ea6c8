// The directory as a tree of heap objects, proved to do what Directory says.

module DirectoryTree {
  import opened Common
  import opened Directory

  class DirDomain {
    var subdomains: map<string, DirDomain>
    var users: map<string, string>

    constructor ()
      ensures subdomains == map[] && users == map[]
    {
      subdomains, users := map[], map[];
    }

    method AddUser(user: string, secret: string)
      modifies this`users
      ensures users == old(users)[user := secret]
    {
      if user in users {
        users := users - {user};
      }
      users := users[user := secret];
      assert users == old(users)[user := secret];
    }

    method RemoveUser(user: string)
      modifies this`users
      ensures users == old(users) - {user}
    {
      if user in users {
        users := users - {user};
      } else {
        assert users == users - {user};
      }
    }
  }

  /** nodes lists every node of a tree by its path; links are their subdomain maps. */
  ghost predicate Linked(nodes: map<Path, DirDomain>, links: map<Path, map<string, DirDomain>>) {
    && nodes.Keys == links.Keys && [] in nodes
    && (forall p, l :: p in nodes && l in links[p] ==> Child(p, l) in nodes && nodes[Child(p, l)] == links[p][l])
    && (forall p, l :: Child(p, l) in nodes ==> p in nodes && l in links[p])
    && (forall p, q :: p in nodes && q in nodes && nodes[p] == nodes[q] ==> p == q)
  }

  lemma GrowLinked(nodes: map<Path, DirDomain>, links: map<Path, map<string, DirDomain>>,
                   p: Path, name: string, node: DirDomain)
    requires Linked(nodes, links) && p in nodes && name !in links[p]
    requires node !in nodes.Values
    ensures Child(p, name) !in nodes
    ensures Linked(nodes[Child(p, name) := node], links[p := links[p][name := node]][Child(p, name) := map[]])
  {
    var q := Child(p, name);
    var more, relinked := nodes[q := node], links[p := links[p][name := node]][q := map[]];
    forall r, l | Child(r, l) in more
      ensures r in more && l in relinked[r]
    {
      if Child(r, l) == q {
        SameChild(p, name, r, l);
      } else {
        assert r in nodes && l in links[r];
      }
    }
  }

  lemma SameChild(p: Path, name: string, r: Path, l: string)
    requires Child(p, name) == Child(r, l)
    ensures p == r && name == l
  {
    var q := Child(p, name);
    assert q[..|p|] == p && q[..|r|] == r && q[|p|] == name && q[|r|] == l;
  }

  lemma PruneLinked(nodes: map<Path, DirDomain>, links: map<Path, map<string, DirDomain>>, p: Path, name: string)
    requires Linked(nodes, links) && p in nodes && name in links[p]
    ensures var q := Child(p, name);
      Linked(map r | r in nodes && !Under(q, r) :: nodes[r],
             map r | r in nodes && !Under(q, r) :: if r == p then links[p] - {name} else links[r])
  {
    var q := Child(p, name);
    var fewer := map r | r in nodes && !Under(q, r) :: nodes[r];
    var relinked := map r | r in nodes && !Under(q, r) :: if r == p then links[p] - {name} else links[r];
    assert !Under(q, []) && !Under(q, p);
    hide Under;
    forall r, l | r in fewer ensures l in relinked[r] <==> Child(r, l) in fewer {
      UnderChild(q, r, l);
      if r == p && l == name { assert Child(r, l) == q; }
    }
    forall r, l | Child(r, l) in fewer ensures r in fewer { UnderChild(q, r, l); }
    hide Linked;
    StillLinked(nodes, links, fewer, relinked);
  }

  lemma PrunedLinks(nodes: map<Path, DirDomain>, links: map<Path, map<string, DirDomain>>,
                    left: map<Path, map<string, DirDomain>>, p: Path, name: string)
    requires nodes.Keys == links.Keys && p in nodes
    requires var cut, q := links[p := links[p] - {name}], Child(p, name);
      left == map r | r in cut && !Under(q, r) :: cut[r]
    ensures left == map r | r in nodes && !Under(Child(p, name), r) :: if r == p then links[p] - {name} else links[r]
  {
  }

  /** Nodes taken away together with all below them. */
  lemma StillLinked(nodes: map<Path, DirDomain>, links: map<Path, map<string, DirDomain>>,
                    fewer: map<Path, DirDomain>, relinked: map<Path, map<string, DirDomain>>)
    requires Linked(nodes, links) && fewer.Keys == relinked.Keys && [] in fewer
    requires forall r :: r in fewer ==> r in nodes && fewer[r] == nodes[r]
    requires forall r, l :: r in fewer && l in relinked[r] ==> r in links && l in links[r] && relinked[r][l] == links[r][l]
    requires forall r, l :: r in fewer ==> (l in relinked[r] <==> Child(r, l) in fewer)
    requires forall r, l :: Child(r, l) in fewer ==> r in fewer
    ensures Linked(fewer, relinked)
  {
  }

  /** Going one level further down a path. */
  lemma NextPrefix(path: Path, k: nat, name: string)
    requires k < |path| && path[k] == name
    ensures path[..k + 1] == Child(path[..k], name)
    ensures path[..k + 1][..k] == path[..k]
  {
  }

  /** A child is below q exactly when it is q itself or its parent is below q. */
  lemma UnderChild(q: Path, r: Path, l: string)
    requires q != []
    ensures Under(q, Child(r, l)) <==> q == Child(r, l) || Under(q, r)
    ensures q == Child(r, l) ==> q[..|q| - 1] == r && q[|q| - 1] == l
  {
  }

  class Tree {
    const dir: DirDomain
    ghost var nodes: map<Path, DirDomain>

    ghost predicate Valid()
      reads this, nodes.Values
    {
      Linked(nodes, Links()) && nodes[[]] == dir
    }

    ghost function Links(): map<Path, map<string, DirDomain>>
      reads this, nodes.Values
    {
      map p | p in nodes :: nodes[p].subdomains
    }

    ghost function Abstract(): View
      reads this, nodes.Values
    {
      map p | p in nodes && p != [] :: nodes[p].users
    }

    constructor ()
      ensures Valid() && Abstract() == map[] && fresh(nodes.Values)
    {
      dir := new DirDomain();
      nodes := map[[] := dir];
    }

    lemma {:induction false} PrefixIn(p: Path, k: nat)
      requires Valid() && p in nodes && k <= |p|
      ensures p[..k] in nodes
      decreases |p|
    {
      if k == |p| {
        assert p[..k] == p;
      } else {
        var n := |p| - 1;
        assert p == Child(p[..n], p[n]);
        PrefixIn(p[..n], k);
        assert p[..n][..k] == p[..k];
      }
    }

    /** The walk from the last label to the first; null if a label is missing, if there
        are more than five, or for no labels at all. */
    method LookupDomain(domain: string) returns (ref: DirDomain?)
      requires Valid()
      ensures ref == null <==> Directory.LookupDomain(Abstract(), domain) == None
      ensures ref != null ==> PathOf(domain) in nodes && ref == nodes[PathOf(domain)]
    {
      var l := Split(domain);
      if |l| > MAX_LABELS { return null; }
      ref := null;
      var at := dir;
      var i := |l|;
      ghost var path := PathOf(domain);
      assert path[..0] == [];
      while i != 0
        invariant 0 <= i <= |l|
        invariant path[..|l| - i] in nodes && nodes[path[..|l| - i]] == at
        invariant i < |l| ==> ref == at
      {
        ghost var p := path[..|l| - i];
        ReversedAt(l, |l| - i);
        assert path[..|l| - i + 1] == Child(p, l[i - 1]);
        if l[i - 1] !in at.subdomains {
          if path in nodes {
            PrefixIn(path, |l| - i + 1);
          }
          return null;
        }
        at := at.subdomains[l[i - 1]];
        ref := at;
        i := i - 1;
      }
      assert path[..|l|] == path;
    }

    method LookupPassword(domain: string, user: string) returns (secret: Option<string>)
      requires Valid()
      ensures secret == Directory.LookupPassword(Abstract(), domain, user)
    {
      var ref := LookupDomain(domain);
      if ref != null {
        if user !in ref.users { return None; }
        return Some(ref.users[user]);
      }
      return None;
    }

    /** The overloads for a realm taken from a packet: the port, if any, is cut off. */
    method LookupDomainOfRealm(realm: string) returns (ref: DirDomain?)
      requires Valid()
      ensures ref == null <==> Directory.LookupDomain(Abstract(), BeforePort(realm)) == None
      ensures ref != null ==> PathOf(BeforePort(realm)) in nodes && ref == nodes[PathOf(BeforePort(realm))]
    {
      var end := 0;
      while end < |realm| && realm[end] != ':'
        invariant 0 <= end <= |realm| && forall k :: 0 <= k < end ==> realm[k] != ':'
      {
        end := end + 1;
      }
      assert realm[..end] == BeforePort(realm);
      ref := LookupDomain(realm[..end]);
    }

    method LookupPasswordOfRealm(realm: string, user: string) returns (secret: Option<string>)
      requires Valid()
      ensures secret == Directory.LookupPassword(Abstract(), BeforePort(realm), user)
    {
      var ref := LookupDomainOfRealm(realm);
      if ref != null {
        if user !in ref.users { return None; }
        return Some(ref.users[user]);
      }
      return None;
    }

    method AddDomain(domain: string) returns (retval: DirDomain)
      requires Valid()
      modifies this, nodes.Values
      ensures Valid() && fresh(nodes.Values - old(nodes.Values))
      ensures Abstract() == Directory.AddDomain(old(Abstract()), domain)
      ensures PathOf(domain) in nodes && retval == nodes[PathOf(domain)]
    {
      retval := AddLabels(Split(domain));
    }

    /** The loop: take labels off the end, going one level down for each. */
    method AddLabels(labels: seq<string>) returns (at: DirDomain)
      requires Valid()
      modifies this, nodes.Values
      ensures Valid() && fresh(nodes.Values - old(nodes.Values))
      ensures Abstract() == AddPath(old(Abstract()), Reversed(labels))
      ensures Reversed(labels) in nodes && at == nodes[Reversed(labels)]
    {
      var parts := labels;
      at := dir;
      ghost var k, view, path := 0, Abstract(), Reversed(labels);
      assert path[..0] == [] && AddPath(view, []) == view;
      while parts != []
        invariant |parts| + k == |labels| && parts == labels[..|parts|]
        invariant fresh(nodes.Values - old(nodes.Values))
        invariant Reached(view, path, k, at)
        decreases |parts|
      {
        ReversedAt(labels, k);
        at := DescendTo(view, path, k, at, parts[|parts| - 1]);
        k := k + 1;
        parts := parts[..|parts| - 1];
      }
      assert path[..k] == path;
    }

    /** The walk along path has come k labels far. */
    ghost predicate Reached(view: View, path: Path, k: nat, at: DirDomain)
      reads this, nodes.Values
    {
      && Valid() && k <= |path| && path[..k] in nodes && nodes[path[..k]] == at
      && Abstract() == AddPath(view, path[..k])
    }

    method DescendTo(ghost view: View, ghost path: Path, ghost k: nat, at: DirDomain, name: string)
      returns (node: DirDomain)
      requires Reached(view, path, k, at) && k < |path| && path[k] == name
      modifies this, nodes.Values
      ensures Reached(view, path, k + 1, node) && fresh(nodes.Values - old(nodes.Values))
    {
      NextPrefix(path, k, name);
      node := Descend(path[..k], at, name);
    }

    /** One step of the walk: find the child or create it. */
    method Descend(ghost p: Path, at: DirDomain, name: string) returns (node: DirDomain)
      requires Valid() && p in nodes && nodes[p] == at
      modifies this, at`subdomains
      ensures Valid() && fresh(nodes.Values - old(nodes.Values))
      ensures Child(p, name) in nodes && nodes[Child(p, name)] == node
      ensures Abstract() == AddNode(old(Abstract()), Child(p, name))
    {
      if name !in at.subdomains {
        node := Grow(p, at, name);
      } else {
        node := at.subdomains[name];
      }
    }

    /** Create and link one missing node. */
    method Grow(ghost p: Path, at: DirDomain, name: string) returns (node: DirDomain)
      requires Valid() && p in nodes && nodes[p] == at && name !in at.subdomains
      modifies this, at`subdomains
      ensures Valid() && nodes == old(nodes)[Child(p, name) := node] && fresh(node)
      ensures Abstract() == old(Abstract())[Child(p, name) := map[]]
    {
      hide Child;
      node := new DirDomain();
      GrowLinked(nodes, Links(), p, name, node);
      Emplace(p, at, name, node);
    }

    method Emplace(ghost p: Path, at: DirDomain, name: string, node: DirDomain)
      requires p in nodes && nodes[p] == at && Child(p, name) !in nodes
      requires forall r, q :: r in nodes && q in nodes && nodes[r] == nodes[q] ==> r == q
      requires node !in nodes.Values && node.subdomains == map[] && node.users == map[]
      modifies this, at`subdomains
      ensures nodes == old(nodes)[Child(p, name) := node]
      ensures Links() == old(Links())[p := old(Links())[p][name := node]][Child(p, name) := map[]]
      ensures Abstract() == old(Abstract())[Child(p, name) := map[]]
    {
      at.subdomains := at.subdomains[name := node];
      assert Links() == old(Links())[p := old(Links())[p][name := node]];
      assert Abstract() == old(Abstract());
      nodes := nodes[Child(p, name) := node];
    }

    /** PUT /dir/<domain>: the node is created if need be, its users are cleared and refilled. */
    method Put(domain: string, entries: seq<UserEntry>)
      requires Valid()
      modifies this, nodes.Values
      ensures Valid() && fresh(nodes.Values - old(nodes.Values))
      ensures Abstract() == Directory.Put(old(Abstract()), domain, entries)
    {
      var domentry := AddDomain(domain);
      ghost var base := Abstract();
      Refill(PathOf(domain), domentry, entries);
    }

    method Refill(ghost p: Path, domentry: DirDomain, entries: seq<UserEntry>)
      requires Valid() && p in nodes && p != [] && nodes[p] == domentry
      modifies domentry`users
      ensures Valid() && Abstract() == old(Abstract())[p := AddEntries(map[], entries)]
    {
      ghost var base := Abstract();
      domentry.users := map[];
      var i := 0;
      while i < |entries|
        invariant 0 <= i <= |entries|
        invariant domentry.users == AddEntries(map[], entries[..i])
      {
        assert entries[..i + 1][..i] == entries[..i];
        if entries[i].username.Some? && entries[i].secret.Some? {
          domentry.AddUser(entries[i].username.value, entries[i].secret.value);
        }
        i := i + 1;
      }
      assert entries[..|entries|] == entries;
      assert Links() == old(Links());
      assert Abstract() == base[p := domentry.users];
    }

    /** adddomain( domain )->adduser( user, secret ) */
    method AddUserTo(domain: string, user: string, secret: string)
      requires Valid()
      modifies this, nodes.Values
      ensures Valid() && fresh(nodes.Values - old(nodes.Values))
      ensures Abstract() == Directory.AddUser(old(Abstract()), domain, user, secret)
    {
      var domentry := AddDomain(domain);
      ghost var base, p := Abstract(), PathOf(domain);
      assert base[p] == domentry.users;
      SetUser(p, domentry, user, secret);
    }

    method SetUser(ghost p: Path, domentry: DirDomain, user: string, secret: string)
      requires Valid() && p in nodes && p != [] && nodes[p] == domentry
      modifies domentry`users
      ensures Valid() && Abstract() == old(Abstract())[p := old(Abstract())[p][user := secret]]
    {
      domentry.AddUser(user, secret);
      assert Links() == old(Links());
      assert Abstract() == old(Abstract())[p := domentry.users];
    }

    /** DELETE /dir/<domain>/<user>; false for no such domain. */
    method DeleteUser(domain: string, user: string) returns (found: bool)
      requires Valid()
      modifies this, nodes.Values
      ensures Valid() && nodes == old(nodes)
      ensures Abstract() == Directory.DeleteUser(old(Abstract()), domain, user)
      ensures found == Directory.LookupDomain(old(Abstract()), domain).Some?
    {
      ghost var view := Abstract();
      var ptr := LookupDomain(domain);
      if ptr == null { return false; }
      ptr.RemoveUser(user);
      assert Links() == old(Links());
      assert Abstract() == view[PathOf(domain) := ptr.users];
      return true;
    }

    /** removedomain */
    method RemoveDomain(domain: string, force: bool) returns (removed: bool)
      requires Valid()
      modifies this, nodes.Values
      ensures Valid() && nodes.Values <= old(nodes.Values)
      ensures (Abstract(), removed) == Directory.RemoveDomain(old(Abstract()), domain, force)
      decreases |domain|
    {
      hide Linked, Links, Prune, Subdomains;
      var i := FirstDot(domain);
      if i == |domain| {
        removed := RemoveTop(domain, force);
        return;
      }
      var domdom := domain[i + 1..];
      var ptr := LookupDomain(domdom);
      if ptr == null { return false; }
      var host := domain[..i];
      ghost var p := PathOf(domdom);
      ChildKnown(p, host);
      if host in ptr.subdomains {
        if force || (ptr.subdomains[host].users == map[] && ptr.subdomains[host].subdomains == map[]) {
          Erase(p, ptr, host);
          var up := RemoveDomain(domdom, false);
          return true;
        }
      }
      return false;
    }

    /** The branch for a name without dots. */
    method RemoveTop(domain: string, force: bool) returns (removed: bool)
      requires Valid() && FirstDot(domain) == |domain|
      modifies this, nodes.Values
      ensures Valid() && nodes.Values <= old(nodes.Values)
      ensures (Abstract(), removed) == Directory.RemoveDomain(old(Abstract()), domain, force)
    {
      ChildKnown([], domain);
      assert Child([], domain) == [domain];
      if domain in dir.subdomains {
        if force || dir.subdomains[domain].users == map[] || dir.subdomains[domain].subdomains == map[] {
          Erase([], dir, domain);
          return true;
        }
      }
      return false;
    }

    /** What a node's own fields say about its entry in the map. */
    lemma ChildKnown(p: Path, name: string)
      requires Valid() && p in nodes
      ensures name in nodes[p].subdomains <==> Child(p, name) in Abstract()
      ensures name in nodes[p].subdomains ==>
                && nodes[p].subdomains[name].users == Abstract()[Child(p, name)]
                && (nodes[p].subdomains[name].subdomains == map[] <==> Subdomains(Abstract(), Child(p, name)) == {})
    {
      if name in nodes[p].subdomains {
        assert name in Links()[p];
        ChildlessMeansNoSubdomains(Child(p, name));
      }
    }

    lemma ChildlessMeansNoSubdomains(q: Path)
      requires Valid() && q in nodes && q != []
      ensures nodes[q].subdomains == map[] <==> Subdomains(Abstract(), q) == {}
    {
      if l :| l in nodes[q].subdomains {
        assert Child(q, l) in Abstract() && Under(q, Child(q, l));
        assert Child(q, l) in Subdomains(Abstract(), q);
      }
      if r :| r in Subdomains(Abstract(), q) {
        assert r == Child(q, r[|q|]);
      }
    }

    /** Erase one subdomain entry, and with it every node below. */
    method Erase(ghost p: Path, at: DirDomain, name: string)
      requires Valid() && p in nodes && nodes[p] == at && name in at.subdomains
      modifies this, at`subdomains
      ensures Valid() && nodes.Values <= old(nodes.Values)
      ensures Abstract() == Prune(old(Abstract()), Child(p, name))
    {
      hide Under, Child;
      ghost var q, links := Child(p, name), Links();
      ghost var was := nodes;
      PruneLinked(nodes, links, p, name);
      Unlink(p, at, name);
      Forget(q);
      PrunedLinks(was, links, Links(), p, name);
    }

    method Unlink(ghost p: Path, at: DirDomain, name: string)
      requires p in nodes && nodes[p] == at
      requires forall r, q :: r in nodes && q in nodes && nodes[r] == nodes[q] ==> r == q
      modifies at`subdomains
      ensures Links() == old(Links())[p := old(Links())[p] - {name}]
      ensures Abstract() == old(Abstract())
    {
      at.subdomains := at.subdomains - {name};
    }

    /** Take the nodes below q off the list. */
    ghost method Forget(q: Path)
      modifies this`nodes
      ensures nodes == map r | r in old(nodes) && !Under(q, r) :: old(nodes)[r]
      ensures nodes.Values <= old(nodes.Values)
      ensures Links() == map r | r in old(Links()) && !Under(q, r) :: old(Links())[r]
      ensures Abstract() == Prune(old(Abstract()), q)
    {
      nodes := map r | r in nodes && !Under(q, r) :: nodes[r];
    }
  }
}
