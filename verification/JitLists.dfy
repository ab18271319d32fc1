// The linked lists that translated blocks and their dependencies are kept in. Each node has a pointer to
// the next one and the address of the pointer that points to it, so that it can be taken out wherever it is.

module JitLists {
  import opened Options
  import opened Sequences

  // Where a pointer is kept: in the head of a list, or in a node.
  datatype Cell<H, N> = Head(list: H) | Next(node: N)

  // What each pointer points to, and the address kept in each node (prev_p).
  datatype Pointers<H(==), N(==)> = Pointers(at: map<Cell<H, N>, Option<N>>, prevP: map<N, Option<Cell<H, N>>>)

  // The pointer that leads to element i of a list, or behind its end.
  function CellOf<H, N>(h: H, s: seq<N>, i: nat): Cell<H, N>
    requires i <= |s|
  {
    if i == 0 then Head(h) else Next(s[i - 1])
  }

  function Entry<N>(s: seq<N>, i: nat): Option<N> { if i < |s| then Some(s[i]) else None }

  // The pointers lead through s, forwards and backwards.
  ghost predicate Chain<H(!new), N(!new)>(p: Pointers<H, N>, h: H, s: seq<N>) {
    && (forall i | 0 <= i <= |s| :: CellOf(h, s, i) in p.at && p.at[CellOf(h, s, i)] == Entry(s, i))
    && (forall i {:trigger p.prevP[s[i]]} {:trigger s[i] in p.prevP} |
          0 <= i < |s| :: s[i] in p.prevP && p.prevP[s[i]] == Some(CellOf(h, s, i)))
  }

  // No node is in two places.
  ghost predicate Apart<H(!new), N(!new)>(lists: map<H, seq<N>>) {
    forall h, k, i, j | h in lists && k in lists && 0 <= i < |lists[h]| && 0 <= j < |lists[k]|
      && lists[h][i] == lists[k][j] ::
      h == k && i == j
  }

  ghost predicate Listed<H(!new), N(!new)>(lists: map<H, seq<N>>, n: N) { exists h :: h in lists && n in lists[h] }

  // Nodes that are in no list point nowhere; what those in `loose` hold is of no interest.
  ghost predicate Free<H(!new), N(!new)>(p: Pointers<H, N>, lists: map<H, seq<N>>, loose: set<N>) {
    forall n | n in p.prevP && !Listed(lists, n) && n !in loose ::
      p.prevP[n] == None && Next(n) in p.at && p.at[Next(n)] == None
  }

  ghost predicate Represents<H(!new), N(!new)>(p: Pointers<H, N>, lists: map<H, seq<N>>, loose: set<N>) {
    && (forall h | h in lists :: Chain(p, h, lists[h])) && Free(p, lists, loose)
    && (forall n | n in loose :: !Listed(lists, n) && n in p.prevP && Next(n) in p.at)
  }

  lemma LastOf<H(!new), N(!new)>(p: Pointers<H, N>, h: H, s: seq<N>, i: nat)
    requires Chain(p, h, s) && i < |s|
    ensures Next(s[i]) in p.at && p.at[Next(s[i])] == Entry(s, i + 1)
  {
    assert CellOf(h, s, i + 1) == Next(s[i]);
  }

  lemma FirstOf<H(!new), N(!new)>(p: Pointers<H, N>, h: H, s: seq<N>)
    requires Chain(p, h, s)
    ensures Head(h) in p.at && p.at[Head(h)] == Entry(s, 0)
  {
    assert CellOf(h, s, 0) == Head(h);
  }

  // That follows from what the nodes hold: a node says where it is.
  lemma {:induction false} OnePlace<H(!new), N(!new)>(p: Pointers<H, N>, lists: map<H, seq<N>>, h: H, k: H,
                                                      i: nat, j: nat)
    requires h in lists && k in lists && Chain(p, h, lists[h]) && Chain(p, k, lists[k])
    requires i < |lists[h]| && j < |lists[k]| && lists[h][i] == lists[k][j]
    ensures h == k && i == j
  {
    assert p.prevP[lists[h][i]] == p.prevP[lists[k][j]];
    if i > 0 && j > 0 { OnePlace(p, lists, h, k, i - 1, j - 1); }
  }

  lemma ChainsApart<H(!new), N(!new)>(p: Pointers<H, N>, lists: map<H, seq<N>>)
    requires forall h | h in lists :: Chain(p, h, lists[h])
    ensures Apart(lists)
  {
    hide Chain;
    forall h, k, i, j | h in lists && k in lists && 0 <= i < |lists[h]| && 0 <= j < |lists[k]|
      && lists[h][i] == lists[k][j]
      ensures h == k && i == j
    {
      OnePlace(p, lists, h, k, i, j);
    }
  }

  // ---- taking a node out ----

  ghost function Unlink<H, N>(p: Pointers<H, N>, n: N): Pointers<H, N>
    requires n in p.prevP && Next(n) in p.at
  {
    var c, x := p.prevP[n], p.at[Next(n)];
    Pointers(if c.Some? then p.at[c.value := x] else p.at, if x.Some? then p.prevP[x.value := c] else p.prevP)
  }

  lemma CutCells<H, N>(h: H, s: seq<N>, i: nat, j: nat)
    requires i < |s| && j < |s|
    ensures CellOf(h, Cut(s, i), j) == CellOf(h, s, if j <= i then j else j + 1)
    ensures Entry(Cut(s, i), j) == Entry(s, if j < i then j else j + 1)
  {
  }

  // In its own list: what came before the node leads to what came after it.
  lemma UnlinkChain<H(!new), N(!new)>(p: Pointers<H, N>, h: H, s: seq<N>, i: nat)
    requires Chain(p, h, s) && Distinct(s) && i < |s|
    ensures CellOf(h, s, i + 1) in p.at && Chain(Unlink(p, s[i]), h, Cut(s, i))
  {
    var c, x := CellOf(h, s, i), Entry(s, i + 1);
    assert CellOf(h, s, i + 1) == Next(s[i]);
    var q := Unlink(p, s[i]);
    var t := Cut(s, i);
    forall j | 0 <= j <= |t|
      ensures CellOf(h, t, j) in q.at && q.at[CellOf(h, t, j)] == Entry(t, j)
    {
      CutCells(h, s, i, j);
      assert CellOf(h, s, if j <= i then j else j + 1) in p.at;
    }
    forall j | 0 <= j < |t|
      ensures t[j] in q.prevP && q.prevP[t[j]] == Some(CellOf(h, t, j))
    {
      CutCells(h, s, i, j);
      assert t[j] == s[if j < i then j else j + 1];
    }
  }

  // A list is not affected by what happens to other pointers and other nodes.
  lemma Untouched<H(!new), N(!new)>(p: Pointers<H, N>, q: Pointers<H, N>, h: H, s: seq<N>)
    requires Chain(p, h, s)
    requires forall i | 0 <= i <= |s| ::
      CellOf(h, s, i) in q.at && CellOf(h, s, i) in p.at && q.at[CellOf(h, s, i)] == p.at[CellOf(h, s, i)]
    requires forall i | 0 <= i < |s| :: s[i] in q.prevP && s[i] in p.prevP && q.prevP[s[i]] == p.prevP[s[i]]
    ensures Chain(q, h, s)
  {
  }

  // In another list nothing happens.
  lemma UnlinkOther<H(!new), N(!new)>(p: Pointers<H, N>, lists: map<H, seq<N>>, h: H, i: nat, k: H)
    requires h in lists && k in lists && h != k && i < |lists[h]| && Apart(lists)
    requires Chain(p, h, lists[h]) && Chain(p, k, lists[k])
    ensures CellOf(h, lists[h], i + 1) in p.at && Chain(Unlink(p, lists[h][i]), k, lists[k])
  {
    var s := lists[h];
    assert CellOf(h, s, i) in p.at && CellOf(h, s, i + 1) in p.at;
    assert CellOf(h, s, i + 1) == Next(s[i]);
    assert p.at[CellOf(h, s, i + 1)] == Entry(s, i + 1);
    Untouched(p, Unlink(p, s[i]), k, lists[k]);
  }

  ghost function Removed<H(!new), N(!new)>(lists: map<H, seq<N>>, n: N): map<H, seq<N>> {
    map h | h in lists :: Without(lists[h], n)
  }

  lemma RemovedIs<H(!new), N(!new)>(lists: map<H, seq<N>>, h: H, i: nat)
    requires h in lists && i < |lists[h]| && Apart(lists)
    ensures Removed(lists, lists[h][i]) == lists[h := Cut(lists[h], i)]
    ensures Distinct(lists[h])
  {
    var n := lists[h][i];
    WithoutIsCut(lists[h], i);
    forall k | k in lists && k != h
      ensures Without(lists[k], n) == lists[k]
    {
      WithoutAbsent(lists[k], n);
    }
  }

  lemma CutListed<H(!new), N(!new)>(lists: map<H, seq<N>>, h: H, i: nat)
    requires h in lists && i < |lists[h]| && Apart(lists)
    ensures var cut := lists[h := Cut(lists[h], i)];
      && !Listed(cut, lists[h][i])
      && forall n :: n != lists[h][i] ==> (Listed(cut, n) <==> Listed(lists, n))
  {
    var n, cut, s := lists[h][i], lists[h := Cut(lists[h], i)], lists[h];
    assert forall j | 0 <= j < |cut[h]| :: cut[h][j] == s[if j < i then j else j + 1];
    forall m | m != n && Listed(lists, m)
      ensures Listed(cut, m)
    {
      var k :| k in lists && m in lists[k];
      if k == h {
        var j :| 0 <= j < |s| && s[j] == m;
        assert cut[h][if j < i then j else j - 1] == m;
      }
      assert m in cut[k];
    }
    forall m | Listed(cut, m)
      ensures Listed(lists, m) && m != n
    {
      var k :| k in cut && m in cut[k];
      assert m in lists[k];
    }
  }

  // remove_dep, or remove_from_list and remove_from_cl_list, of a node in a list.
  lemma UnlinkRepresents<H(!new), N(!new)>(p: Pointers<H, N>, lists: map<H, seq<N>>, loose: set<N>, h: H, i: nat)
    requires Represents(p, lists, loose) && h in lists && i < |lists[h]|
    ensures var n := lists[h][i];
      n in p.prevP && Next(n) in p.at && Represents(Unlink(p, n), Removed(lists, n), loose + {n})
  {
    hide Chain, Apart, Free, Listed, Cut, Distinct;
    var n := lists[h][i];
    ChainsApart(p, lists);
    InList(p, lists, h, i);
    RemovedIs(lists, h, i);
    CutListed(lists, h, i);
    UnlinkChain(p, h, lists[h], i);
    forall k | k in lists && k != h
      ensures Chain(Unlink(p, n), k, lists[k])
    {
      UnlinkOther(p, lists, h, i, k);
    }
    UnlinkFree(p, lists, loose, h, i);
    forall m | m in loose + {n}
      ensures !Listed(lists[h := Cut(lists[h], i)], m) && m in Unlink(p, n).prevP && Next(m) in Unlink(p, n).at
    {
    }
  }

  lemma InList<H(!new), N(!new)>(p: Pointers<H, N>, lists: map<H, seq<N>>, h: H, i: nat)
    requires h in lists && i < |lists[h]| && Chain(p, h, lists[h])
    ensures lists[h][i] in p.prevP && Next(lists[h][i]) in p.at && Listed(lists, lists[h][i])
  {
    assert CellOf(h, lists[h], i + 1) in p.at;
  }

  // What is around a node.
  lemma Neighbours<H(!new), N(!new)>(p: Pointers<H, N>, lists: map<H, seq<N>>, h: H, i: nat)
    requires h in lists && i < |lists[h]| && Chain(p, h, lists[h])
    ensures var s := lists[h];
      && s[i] in p.prevP && p.prevP[s[i]] == Some(CellOf(h, s, i)) && Next(s[i]) in p.at
      && p.at[Next(s[i])] == Entry(s, i + 1)
      && (i > 0 ==> Listed(lists, s[i - 1])) && (i + 1 < |s| ==> Listed(lists, s[i + 1]))
  {
    assert CellOf(h, lists[h], i + 1) in p.at;
  }

  lemma UnlinkFree<H(!new), N(!new)>(p: Pointers<H, N>, lists: map<H, seq<N>>, loose: set<N>, h: H, i: nat)
    requires h in lists && i < |lists[h]| && Chain(p, h, lists[h]) && Apart(lists) && Free(p, lists, loose)
    ensures lists[h][i] in p.prevP && Next(lists[h][i]) in p.at
    ensures Free(Unlink(p, lists[h][i]), lists[h := Cut(lists[h], i)], loose + {lists[h][i]})
  {
    hide Apart, Listed, Chain, Cut;
    Neighbours(p, lists, h, i);
    CutListed(lists, h, i);
  }

  // ---- putting a node first ----

  ghost function Link<H, N>(p: Pointers<H, N>, h: H, n: N): Pointers<H, N>
    requires Head(h) in p.at
  {
    var first := p.at[Head(h)];
    Pointers(p.at[Next(n) := first][Head(h) := Some(n)],
             (if first.Some? then p.prevP[first.value := Some(Next(n))] else p.prevP)[n := Some(Head(h))])
  }

  lemma LinkChain<H(!new), N(!new)>(p: Pointers<H, N>, h: H, s: seq<N>, n: N)
    requires Chain(p, h, s) && Distinct(s) && n !in s
    ensures CellOf(h, s, 0) in p.at && Chain(Link(p, h, n), h, [n] + s)
  {
    var q, t := Link(p, h, n), [n] + s;
    assert p.at[CellOf(h, s, 0)] == Entry(s, 0);
    forall j | 0 <= j <= |t|
      ensures CellOf(h, t, j) in q.at && q.at[CellOf(h, t, j)] == Entry(t, j)
    {
      if j > 1 { assert CellOf(h, t, j) == CellOf(h, s, j - 1) && Entry(t, j) == Entry(s, j - 1); }
    }
    forall j | 0 <= j < |t|
      ensures t[j] in q.prevP && q.prevP[t[j]] == Some(CellOf(h, t, j))
    {
      if j > 1 { assert t[j] == s[j - 1] && CellOf(h, t, j) == CellOf(h, s, j - 1); }
    }
  }

  lemma LinkOther<H(!new), N(!new)>(p: Pointers<H, N>, lists: map<H, seq<N>>, h: H, n: N, k: H)
    requires h in lists && k in lists && h != k && Apart(lists) && n !in lists[k]
    requires Chain(p, h, lists[h]) && Chain(p, k, lists[k])
    ensures CellOf(h, lists[h], 0) in p.at && Chain(Link(p, h, n), k, lists[k])
  {
    assert p.at[CellOf(h, lists[h], 0)] == Entry(lists[h], 0);
    Untouched(p, Link(p, h, n), k, lists[k]);
  }

  lemma LinkListed<H(!new), N(!new)>(lists: map<H, seq<N>>, h: H, n: N)
    requires h in lists && Apart(lists) && !Listed(lists, n)
    ensures var more := lists[h := [n] + lists[h]];
      forall m :: Listed(more, m) <==> m == n || Listed(lists, m)
    ensures Distinct(lists[h]) && forall k | k in lists :: n !in lists[k]
  {
    var more := lists[h := [n] + lists[h]];
    assert n in more[h];
    forall m | Listed(lists, m)
      ensures Listed(more, m)
    {
      var k :| k in lists && m in lists[k];
      assert m in more[k];
    }
    forall m | Listed(more, m) && m != n
      ensures Listed(lists, m)
    {
      var k :| k in more && m in more[k];
      assert m in lists[k];
    }
    forall k | k in lists
      ensures n !in lists[k]
    {
    }
  }

  // create_jmpdep, add_to_active, add_to_dormant and add_to_cl_list: a node that is in no list comes first.
  lemma LinkRepresents<H(!new), N(!new)>(p: Pointers<H, N>, lists: map<H, seq<N>>, loose: set<N>, h: H, n: N)
    requires Represents(p, lists, loose) && h in lists && !Listed(lists, n)
    ensures Head(h) in p.at && Represents(Link(p, h, n), lists[h := [n] + lists[h]], loose - {n})
  {
    hide Chain, Apart, Free, Listed, Distinct;
    ChainsApart(p, lists);
    LinkListed(lists, h, n);
    LinkChain(p, h, lists[h], n);
    forall k | k in lists && k != h
      ensures Chain(Link(p, h, n), k, lists[k])
    {
      LinkOther(p, lists, h, n, k);
    }
    LinkFree(p, lists, loose, h, n);
  }

  lemma LinkFree<H(!new), N(!new)>(p: Pointers<H, N>, lists: map<H, seq<N>>, loose: set<N>, h: H, n: N)
    requires h in lists && Chain(p, h, lists[h]) && Apart(lists) && Free(p, lists, loose) && !Listed(lists, n)
    ensures CellOf(h, lists[h], 0) in p.at && Free(Link(p, h, n), lists[h := [n] + lists[h]], loose - {n})
  {
    LinkListed(lists, h, n);
    assert p.at[CellOf(h, lists[h], 0)] == Entry(lists[h], 0);
    assert lists[h] != [] ==> Listed(lists, lists[h][0]);
    hide Apart, Listed, Chain;
  }

  // ---- putting one list before another ----

  // What flush_icache does once it has come to the last node of a list that is not empty.
  ghost function Splice<H, N>(p: Pointers<H, N>, a: H, d: H, last: N): Pointers<H, N>
    requires Head(a) in p.at && Head(d) in p.at && p.at[Head(a)].Some?
  {
    var first := p.at[Head(d)];
    var top := p.at[Head(a)];
    Pointers(p.at[Next(last) := first][Head(d) := top][Head(a) := None],
             (if first.Some? then p.prevP[first.value := Some(Next(last))] else p.prevP)[top.value := Some(Head(d))])
  }

  lemma SpliceCell<H(!new), N(!new)>(p: Pointers<H, N>, a: H, d: H, s: seq<N>, t: seq<N>, j: nat)
    requires Chain(p, a, s) && Chain(p, d, t) && a != d && s != [] && Distinct(s) && j <= |s + t|
    requires forall k | k in s :: k !in t
    ensures CellOf(a, s, 0) in p.at && CellOf(d, t, 0) in p.at && p.at[CellOf(a, s, 0)].Some?
    ensures var q := Splice(p, a, d, s[|s| - 1]);
      CellOf(d, s + t, j) in q.at && q.at[CellOf(d, s + t, j)] == Entry(s + t, j)
  {
    hide Chain;
    FirstOf(p, a, s);
    FirstOf(p, d, t);
    if 0 < j < |s| {
      LastOf(p, a, s, j - 1);
      assert s[j - 1] != s[|s| - 1];
    } else if j > |s| {
      LastOf(p, d, t, j - |s| - 1);
      assert s[|s| - 1] in s && t[j - |s| - 1] in t;
      assert (s + t)[j - 1] == t[j - |s| - 1] && Entry(s + t, j) == Entry(t, j - |s|);
    }
  }

  lemma SpliceNode<H(!new), N(!new)>(p: Pointers<H, N>, a: H, d: H, s: seq<N>, t: seq<N>, j: nat)
    requires Chain(p, a, s) && Chain(p, d, t) && a != d && s != [] && j < |s + t|
    requires Distinct(s) && Distinct(t) && forall k | k in s :: k !in t
    ensures CellOf(a, s, 0) in p.at && CellOf(d, t, 0) in p.at && p.at[CellOf(a, s, 0)].Some?
    ensures var q := Splice(p, a, d, s[|s| - 1]);
      (s + t)[j] in q.prevP && q.prevP[(s + t)[j]] == Some(CellOf(d, s + t, j))
  {
    FirstOf(p, a, s);
    FirstOf(p, d, t);
    if j < |s| {
      assert p.prevP[s[j]] == Some(CellOf(a, s, j));
    } else {
      assert p.prevP[t[j - |s|]] == Some(CellOf(d, t, j - |s|));
    }
  }

  lemma SpliceChain<H(!new), N(!new)>(p: Pointers<H, N>, lists: map<H, seq<N>>, a: H, d: H)
    requires a in lists && d in lists && a != d && Apart(lists) && lists[a] != []
    requires Chain(p, a, lists[a]) && Chain(p, d, lists[d])
    ensures CellOf(a, lists[a], 0) in p.at && CellOf(d, lists[d], 0) in p.at && p.at[CellOf(a, lists[a], 0)].Some?
    ensures var q := Splice(p, a, d, lists[a][|lists[a]| - 1]);
      Chain(q, d, lists[a] + lists[d]) && Chain(q, a, [])
  {
    var s, t := lists[a], lists[d];
    SpliceCell(p, a, d, s, t, 0);
    forall j | 0 <= j <= |s + t|
      ensures var q := Splice(p, a, d, s[|s| - 1]);
        CellOf(d, s + t, j) in q.at && q.at[CellOf(d, s + t, j)] == Entry(s + t, j)
    {
      SpliceCell(p, a, d, s, t, j);
    }
    forall j | 0 <= j < |s + t|
      ensures var q := Splice(p, a, d, s[|s| - 1]);
        (s + t)[j] in q.prevP && q.prevP[(s + t)[j]] == Some(CellOf(d, s + t, j))
    {
      SpliceNode(p, a, d, s, t, j);
    }
  }

  lemma SpliceOther<H(!new), N(!new)>(p: Pointers<H, N>, lists: map<H, seq<N>>, a: H, d: H, k: H)
    requires a in lists && d in lists && k in lists && a != d && k != a && k != d && Apart(lists) && lists[a] != []
    requires Chain(p, a, lists[a]) && Chain(p, d, lists[d]) && Chain(p, k, lists[k])
    ensures CellOf(a, lists[a], 0) in p.at && CellOf(d, lists[d], 0) in p.at && p.at[CellOf(a, lists[a], 0)].Some?
    ensures Chain(Splice(p, a, d, lists[a][|lists[a]| - 1]), k, lists[k])
  {
    assert p.at[CellOf(a, lists[a], 0)] == Entry(lists[a], 0) && p.at[CellOf(d, lists[d], 0)] == Entry(lists[d], 0);
    Untouched(p, Splice(p, a, d, lists[a][|lists[a]| - 1]), k, lists[k]);
  }

  ghost function Spliced<H, N>(lists: map<H, seq<N>>, a: H, d: H): map<H, seq<N>>
    requires a in lists && d in lists
  {
    lists[d := lists[a] + lists[d]][a := []]
  }

  lemma SplicedListed<H(!new), N(!new)>(lists: map<H, seq<N>>, a: H, d: H)
    requires a in lists && d in lists && a != d
    ensures forall m :: Listed(Spliced(lists, a, d), m) <==> Listed(lists, m)
  {
    var more := Spliced(lists, a, d);
    forall m | Listed(lists, m)
      ensures Listed(more, m)
    {
      var k :| k in lists && m in lists[k];
      assert m in more[if k == a then d else k];
    }
    forall m | Listed(more, m)
      ensures Listed(lists, m)
    {
      var k :| k in more && m in more[k];
      assert m in lists[k] || m in lists[a];
    }
  }

  // flush_icache: the active list is put before the dormant one.
  lemma SpliceRepresents<H(!new), N(!new)>(p: Pointers<H, N>, lists: map<H, seq<N>>, loose: set<N>, a: H, d: H)
    requires Represents(p, lists, loose) && a in lists && d in lists && a != d && lists[a] != []
    ensures Head(a) in p.at && Head(d) in p.at && p.at[Head(a)].Some?
    ensures Represents(Splice(p, a, d, lists[a][|lists[a]| - 1]), Spliced(lists, a, d), loose)
  {
    hide Chain, Apart, Free, Listed;
    ChainsApart(p, lists);
    SplicedListed(lists, a, d);
    SpliceChain(p, lists, a, d);
    forall k | k in lists && k != a && k != d
      ensures Chain(Splice(p, a, d, lists[a][|lists[a]| - 1]), k, lists[k])
    {
      SpliceOther(p, lists, a, d, k);
    }
    SpliceFree(p, lists, loose, a, d);
  }

  lemma SpliceFree<H(!new), N(!new)>(p: Pointers<H, N>, lists: map<H, seq<N>>, loose: set<N>, a: H, d: H)
    requires a in lists && d in lists && a != d && lists[a] != [] && Free(p, lists, loose) && Apart(lists)
    requires Chain(p, a, lists[a]) && Chain(p, d, lists[d])
    ensures CellOf(a, lists[a], 0) in p.at && CellOf(d, lists[d], 0) in p.at && p.at[CellOf(a, lists[a], 0)].Some?
    ensures Free(Splice(p, a, d, lists[a][|lists[a]| - 1]), Spliced(lists, a, d), loose)
  {
    SplicedListed(lists, a, d);
    assert p.at[CellOf(a, lists[a], 0)] == Entry(lists[a], 0) && p.at[CellOf(d, lists[d], 0)] == Entry(lists[d], 0);
    assert Listed(lists, lists[a][0]) && Listed(lists, lists[a][|lists[a]| - 1]);
    assert lists[d] != [] ==> Listed(lists, lists[d][0]);
    hide Apart, Listed, Chain;
  }

  // ---- nodes that are in no list ----

  lemma NotListed<H(!new), N(!new)>(p: Pointers<H, N>, lists: map<H, seq<N>>, loose: set<N>, n: N)
    requires Represents(p, lists, loose) && !Listed(lists, n) && n in p.prevP && n !in loose
    ensures p.prevP[n] == None && Next(n) in p.at && p.at[Next(n)] == None && Removed(lists, n) == lists
  {
    forall h | h in lists
      ensures Without(lists[h], n) == lists[h]
    {
      WithoutAbsent(lists[h], n);
    }
  }

  // Forgetting what a loose node holds.
  ghost function Forget<H, N>(p: Pointers<H, N>, n: N): Pointers<H, N> {
    Pointers(p.at[Next(n) := None], p.prevP[n := None])
  }

  lemma ForgetRepresents<H(!new), N(!new)>(p: Pointers<H, N>, lists: map<H, seq<N>>, loose: set<N>, n: N)
    requires Represents(p, lists, loose) && !Listed(lists, n)
    ensures Represents(Forget(p, n), lists, loose - {n})
  {
    forall h | h in lists
      ensures Chain(Forget(p, n), h, lists[h])
    {
      Untouched(p, Forget(p, n), h, lists[h]);
    }
  }

  lemma RemovedNot<H(!new), N(!new)>(lists: map<H, seq<N>>, n: N)
    ensures !Listed(Removed(lists, n), n)
  {
  }

  class Lists<H(==, !new), N(==, !new)> {
    var p: Pointers<H, N>
    ghost var lists: map<H, seq<N>>
    ghost var loose: set<N>

    ghost predicate Valid()
      reads this
    {
      Represents(p, lists, loose)
    }

    // A node that is in a list or has been put into one.
    ghost predicate Known(n: N)
      reads this
    {
      n in p.prevP || Listed(lists, n)
    }

    constructor (heads: set<H>)
      ensures Valid() && loose == {} && lists == map h | h in heads :: []
    {
      p := Pointers(map h | h in heads :: Head(h) := None, map[]);
      lists := map h | h in heads :: [];
      loose := {};
    }

    // A list that was not there before.
    method NewList(h: H)
      requires Valid() && h !in lists
      modifies this
      ensures Valid() && lists == old(lists)[h := []] && loose == old(loose)
    {
      hide Chain, Apart, Free, Represents, Listed;
      NewListRepresents(p, lists, loose, h);
      p := p.(at := p.at[Head(h) := None]);
      lists := lists[h := []];
    }

    // One list is given up, whatever its nodes hold.
    method Drop(h: H)
      requires Valid() && h in lists
      modifies this
      ensures Valid() && lists == old(lists)[h := []] && loose == old(loose) + (set n | n in old(lists)[h])
    {
      hide Chain, Apart, Free, Represents, Listed;
      DropRepresents(p, lists, loose, h);
      p := p.(at := p.at[Head(h) := None]);
      loose := loose + set n | n in lists[h];
      lists := lists[h := []];
    }

    // Everything is: the lists are empty, and the nodes no longer there.
    method Clear(heads: set<H>)
      modifies this
      ensures Valid() && loose == {} && lists == (map h | h in heads :: [])
    {
      p := Pointers(map h | h in heads :: Head(h) := None, map[]);
      lists := map h | h in heads :: [];
      loose := {};
    }

    // remove_from_list and remove_from_cl_list: the node leaves the list that it is in, if any.
    method Remove(n: N)
      requires Valid() && Known(n) && n !in loose
      modifies this
      ensures Valid() && lists == Removed(old(lists), n) && Known(n)
      ensures loose == if Listed(old(lists), n) then old(loose) + {n} else old(loose)
      ensures Next(n) in p.at
    {
      hide Chain, Apart, Free, Distinct, Represents, Listed;
      if Listed(lists, n) {
        ListedAt(p, lists, loose, n);
        loose := loose + {n};
      } else {
        NotListed(p, lists, loose, n);
      }
      var c, x := p.prevP[n], p.at[Next(n)];
      if c.Some? { p := p.(at := p.at[c.value := x]); }
      if x.Some? { p := p.(prevP := p.prevP[x.value := c]); }
      lists := Removed(lists, n);
    }

    // remove_dep: the node also forgets where it was.
    method RemoveDep(n: N)
      requires Valid() && Known(n) && n !in loose
      modifies this
      ensures Valid() && lists == Removed(old(lists), n) && loose == old(loose) && Known(n)
    {
      hide Represents, Listed, Removed;
      Remove(n);
      RemovedNot(old(lists), n);
      ForgetRepresents(p, lists, loose, n);
      p := Pointers(p.at[Next(n) := None], p.prevP[n := None]);
      loose := loose - {n};
    }

    // create_jmpdep, add_to_active, add_to_dormant, add_to_cl_list
    method AddFirst(h: H, n: N)
      requires Valid() && h in lists && !Listed(lists, n)
      modifies this
      ensures Valid() && lists == old(lists)[h := [n] + old(lists)[h]] && loose == old(loose) - {n} && Known(n)
    {
      hide Chain, Apart, Free, Distinct, Represents, Listed;
      FirstIn(p, lists, loose, h);
      LinkRepresents(p, lists, loose, h, n);
      var first := p.at[Head(h)];
      if first.Some? { p := p.(prevP := p.prevP[first.value := Some(Next(n))]); }
      p := Pointers(p.at[Next(n) := first][Head(h) := Some(n)], p.prevP[n := Some(Head(h))]);
      lists := lists[h := [n] + lists[h]];
      loose := loose - {n};
    }

    // raise_in_cl_list, and the moves between active and dormant: from wherever it is to the front of h.
    method MoveToFront(h: H, n: N)
      requires Valid() && h in lists && Known(n) && n !in loose
      modifies this
      ensures Valid() && loose == old(loose) && Known(n)
      ensures lists == Removed(old(lists), n)[h := [n] + Without(old(lists)[h], n)]
    {
      hide Represents, Listed;
      RemovedNot(lists, n);
      Remove(n);
      AddFirst(h, n);
    }

    // The end of flush_icache: walks to the last active block and puts the dormant ones behind it.
    method PutBefore(a: H, d: H)
      requires Valid() && a in lists && d in lists && a != d
      modifies this
      ensures Valid() && lists == Spliced(old(lists), a, d) && loose == old(loose)
    {
      hide Chain, Apart, Free, Represents, Listed;
      FirstIn(p, lists, loose, a);
      FirstIn(p, lists, loose, d);
      if p.at[Head(a)].None? {
        assert [] + lists[d] == lists[d];
        return;
      }
      var last := p.at[Head(a)].value;
      ghost var i := 0;
      NextIn(p, lists, loose, a, 0);
      while p.at[Next(last)].Some?
        modifies {}
        invariant a in lists && 0 <= i < |lists[a]| && last == lists[a][i] && Next(last) in p.at
          && p.at[Next(last)] == Entry(lists[a], i + 1)
        decreases |lists[a]| - i
      {
        last := p.at[Next(last)].value;
        i := i + 1;
        NextIn(p, lists, loose, a, i);
      }
      SpliceRepresents(p, lists, loose, a, d);
      var first, top := p.at[Head(d)], p.at[Head(a)];
      p := p.(at := p.at[Next(last) := first]);
      if first.Some? { p := p.(prevP := p.prevP[first.value := Some(Next(last))]); }
      p := Pointers(p.at[Head(d) := top], p.prevP[top.value := Some(Head(d))]);
      p := p.(at := p.at[Head(a) := None]);
      lists := Spliced(lists, a, d);
    }
  }

  lemma NewListRepresents<H(!new), N(!new)>(p: Pointers<H, N>, lists: map<H, seq<N>>, loose: set<N>, h: H)
    requires Represents(p, lists, loose) && h !in lists
    ensures Represents(p.(at := p.at[Head(h) := None]), lists[h := []], loose)
  {
    var q, more := p.(at := p.at[Head(h) := None]), lists[h := []];
    forall k | k in lists
      ensures Chain(q, k, lists[k])
    {
      Untouched(p, q, k, lists[k]);
    }
    forall m | Listed(lists, m)
      ensures Listed(more, m)
    {
      var k :| k in lists && m in lists[k];
      assert m in more[k];
    }
  }

  lemma DropRepresents<H(!new), N(!new)>(p: Pointers<H, N>, lists: map<H, seq<N>>, loose: set<N>, h: H)
    requires Represents(p, lists, loose) && h in lists
    ensures Represents(p.(at := p.at[Head(h) := None]), lists[h := []], loose + set n | n in lists[h])
  {
    hide Apart, Free, Listed;
    var q := p.(at := p.at[Head(h) := None]);
    ChainsApart(p, lists);
    DropListed(lists, h);
    forall k | k in lists && k != h
      ensures Chain(q, k, lists[k])
    {
      Untouched(p, q, k, lists[k]);
    }
    forall m | m in lists[h]
      ensures m in q.prevP && Next(m) in q.at
    {
      var i: nat :| i < |lists[h]| && lists[h][i] == m;
      InList(p, lists, h, i);
    }
    DropFree(p, lists, loose, h);
  }

  lemma DropFree<H(!new), N(!new)>(p: Pointers<H, N>, lists: map<H, seq<N>>, loose: set<N>, h: H)
    requires h in lists && Apart(lists) && Free(p, lists, loose)
    ensures Free(p.(at := p.at[Head(h) := None]), lists[h := []], loose + set n | n in lists[h])
  {
    DropListed(lists, h);
    hide Apart, Listed;
  }

  lemma DropListed<H(!new), N(!new)>(lists: map<H, seq<N>>, h: H)
    requires h in lists && Apart(lists)
    ensures forall m :: Listed(lists[h := []], m) <==> Listed(lists, m) && m !in lists[h]
  {
    var less := lists[h := []];
    forall m | Listed(lists, m) && m !in lists[h]
      ensures Listed(less, m)
    {
      var k :| k in lists && m in lists[k];
      assert m in less[k];
    }
    forall m | Listed(less, m)
      ensures Listed(lists, m) && m !in lists[h]
    {
      var k :| k in less && m in less[k];
      assert m in lists[k];
    }
  }

  lemma ListedAt<H(!new), N(!new)>(p: Pointers<H, N>, lists: map<H, seq<N>>, loose: set<N>, n: N)
    requires Represents(p, lists, loose) && Listed(lists, n)
    ensures n in p.prevP && Next(n) in p.at && Represents(Unlink(p, n), Removed(lists, n), loose + {n})
    ensures Unlink(p, n).prevP.Keys == p.prevP.Keys && p.at.Keys <= Unlink(p, n).at.Keys
  {
    hide Chain, Apart, Free;
    var h :| h in lists && n in lists[h];
    var i: nat :| i < |lists[h]| && lists[h][i] == n;
    UnlinkRepresents(p, lists, loose, h, i);
    LastOf(p, h, lists[h], i);
    if i + 1 < |lists[h]| { InList(p, lists, h, i + 1); }
  }

  lemma FirstIn<H(!new), N(!new)>(p: Pointers<H, N>, lists: map<H, seq<N>>, loose: set<N>, h: H)
    requires Represents(p, lists, loose) && h in lists
    ensures Head(h) in p.at && p.at[Head(h)] == Entry(lists[h], 0) && (lists[h] != [] ==> lists[h][0] in p.prevP)
  {
    FirstOf(p, h, lists[h]);
    if lists[h] != [] { InList(p, lists, h, 0); }
  }

  lemma NextIn<H(!new), N(!new)>(p: Pointers<H, N>, lists: map<H, seq<N>>, loose: set<N>, h: H, i: nat)
    requires Represents(p, lists, loose) && h in lists && i < |lists[h]|
    ensures Next(lists[h][i]) in p.at && p.at[Next(lists[h][i])] == Entry(lists[h], i + 1)
  {
    LastOf(p, h, lists[h], i);
  }
}
