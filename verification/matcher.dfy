/**
 The topic trie (class MQTTMatcher, qml/utilities/paho/mqtt/matcher.py) as a map from topic filters to
 values, and its matching against sections 4.7.1 and 4.7.2 of MQTT 3.1.1.
 */
module Matcher {
  import opened Wrappers

  type Levels = seq<string>

  // ---- levels --------------------------------------------------------------------------------

  /** key.split('/') */
  function Split(s: string): (r: Levels)
    ensures r != []
  {
    if s == "" then [""]
    else
      var rest := Split(s[1..]);
      if s[0] == '/' then [""] + rest else [[s[0]] + rest[0]] + rest[1..]
  }

  function Join(levels: Levels): string
    requires levels != []
  {
    if |levels| == 1 then levels[0] else levels[0] + "/" + Join(levels[1..])
  }

  /** Different filters have different levels. */
  lemma {:induction false} SplitIsInjective(s: string)
    ensures Join(Split(s)) == s
  {
    if s != "" {
      SplitIsInjective(s[1..]);
      var rest := Split(s[1..]);
      if s[0] != '/' && |rest| > 1 {
        assert Split(s)[1..] == rest[1..];
      } else if s[0] == '/' {
        assert Split(s)[1..] == rest;
        assert s == "/" + s[1..];
      }
    }
  }

  // ---- what a match is -----------------------------------------------------------------------

  predicate StartsWithDollar(topic: Levels) {
    topic != [] && topic[0] != "" && topic[0][0] == '$'
  }

  /** The first n levels of the filter are wildcards or the topic's. */
  predicate LevelsMatch(filter: Levels, topic: Levels, n: nat) {
    n <= |filter| && n <= |topic| && forall i :: 0 <= i < n ==> filter[i] == "+" || filter[i] == topic[i]
  }

  /** Level by level, or with a trailing # for any number of levels; no leading wildcard for $ topics. */
  predicate Matches(filter: Levels, topic: Levels) {
    && filter != []
    && (StartsWithDollar(topic) ==> filter[0] != "+" && filter[0] != "#")
    && (|| (|filter| == |topic| && LevelsMatch(filter, topic, |topic|))
        || (filter[|filter| - 1] == "#" && LevelsMatch(filter, topic, |filter| - 1)))
  }

  /** How often iter_match comes to the rest of a filter, at level i of the topic. */
  function Times(filter: Levels, topic: Levels, normal: bool, i: nat): nat
    requires i <= |topic|
    decreases |topic| - i
  {
    var wild := normal || i > 0;
    (if i == |topic| then if filter == [] then 1 else 0
     else if filter == [] then 0
     else
       (if filter[0] == topic[i] then Times(filter[1..], topic, normal, i + 1) else 0)
       + (if filter[0] == "+" && wild then Times(filter[1..], topic, normal, i + 1) else 0))
    + (if filter == ["#"] && wild then 1 else 0)
  }

  /** How often iter_match yields the value of a filter. */
  function Hits(filter: Levels, topic: Levels): nat {
    Times(filter, topic, !StartsWithDollar(topic), 0)
  }

  /** A topic on which no filter can come up twice. */
  predicate IsPlain(topic: Levels) {
    topic != [] && topic[|topic| - 1] != "#" && forall i :: 0 <= i < |topic| ==> topic[i] != "+"
  }

  /** Matching of the rest of a filter, below the first level. */
  predicate RestMatches(filter: Levels, topic: Levels) {
    || (|filter| == |topic| && LevelsMatch(filter, topic, |topic|))
    || (filter != [] && filter[|filter| - 1] == "#" && LevelsMatch(filter, topic, |filter| - 1))
  }

  lemma {:induction false} TimesOfRest(filter: Levels, topic: Levels, normal: bool, i: nat)
    requires 0 < i <= |topic| && IsPlain(topic)
    ensures Times(filter, topic, normal, i) == if RestMatches(filter, topic[i..]) then 1 else 0
    decreases |topic| - i
  {
    if i < |topic| && filter != [] {
      TimesOfRest(filter[1..], topic, normal, i + 1);
      RestStep(filter, topic[i..]);
      assert topic[i..][1..] == topic[i + 1..];
      if filter == ["#"] && filter[0] == topic[i] {
        assert topic[i + 1..] != [];
      }
    }
  }

  lemma {:induction false} RestStep(filter: Levels, topic: Levels)
    requires filter != [] && topic != []
    ensures RestMatches(filter, topic) <==>
            filter == ["#"] || ((filter[0] == "+" || filter[0] == topic[0]) && RestMatches(filter[1..], topic[1..]))
  {
    var n := |filter| - 1;
    if n > 0 {
      assert filter[n] == filter[1..][n - 1];
    }
    LevelsStep(filter, topic, |topic|);
    LevelsStep(filter, topic, n);
  }

  lemma {:induction false} LevelsStep(filter: Levels, topic: Levels, n: nat)
    requires filter != [] && topic != []
    ensures n > 0 ==> (LevelsMatch(filter, topic, n) <==>
      (filter[0] == "+" || filter[0] == topic[0]) && LevelsMatch(filter[1..], topic[1..], n - 1))
  {
    if n > 0 && LevelsMatch(filter[1..], topic[1..], n - 1) && (filter[0] == "+" || filter[0] == topic[0]) {
      forall i | 0 <= i < n ensures filter[i] == "+" || filter[i] == topic[i] {
        assert i > 0 ==> filter[i] == filter[1..][i - 1] && topic[i] == topic[1..][i - 1];
      }
    }
  }

  /** On a plain topic a filter comes up once if it matches, and otherwise never. */
  lemma {:induction false} TimesIsMatches(filter: Levels, topic: Levels)
    requires IsPlain(topic)
    ensures Hits(filter, topic) == if Matches(filter, topic) then 1 else 0
  {
    if filter != [] {
      TimesOfRest(filter[1..], topic, !StartsWithDollar(topic), 1);
      RestStep(filter, topic);
    }
  }

  /** Every topic with a + level, or # as its last level, brings some filter up twice: itself. */
  lemma {:induction false} PlainExactly(topic: Levels)
    requires topic != []
    ensures IsPlain(topic) <==> forall f :: Hits(f, topic) <= 1
  {
    if IsPlain(topic) {
      forall f ensures Hits(f, topic) <= 1 {
        TimesIsMatches(f, topic);
      }
    } else {
      TwiceItself(topic, 0);
      assert topic[0..] == topic && Hits(topic, topic) >= 2;
    }
  }

  lemma {:induction false} TwiceItself(topic: Levels, i: nat)
    requires topic != [] && i <= |topic|
    ensures var n := Times(topic[i..], topic, !StartsWithDollar(topic), i);
      n >= 1 && (i < |topic| && !IsPlain(topic[i..]) ==> n >= 2)
    decreases |topic| - i
  {
    if i < |topic| {
      TwiceItself(topic, i + 1);
      assert topic[i..][1..] == topic[i + 1..];
      assert i + 1 == |topic| ==> topic[i..] == [topic[i]];
      if topic[i] != "+" && i + 1 < |topic| && IsPlain(topic[i + 1..]) {
        PlainStep(topic[i..]);
      }
    }
  }

  lemma {:induction false} PlainStep(topic: Levels)
    requires |topic| > 1 && topic[0] != "+" && IsPlain(topic[1..])
    ensures IsPlain(topic)
  {
    forall i | 0 <= i < |topic| ensures topic[i] != "+" {
      assert i > 0 ==> topic[i] == topic[1..][i - 1];
    }
  }

  // ---- the trie ------------------------------------------------------------------------------

  class Node<T> {
    var children: map<string, Node<T>>
    var content: Option<T>
    /** The levels that lead to the node. */
    ghost const place: Levels

    constructor (ghost place: Levels)
      ensures children == map[] && content == None && this.place == place
    {
      children, content := map[], None;
      this.place := place;
    }
  }

  function Down(p: Levels, sym: string): Levels {
    p + [sym]
  }

  function Up(q: Levels): Levels
    requires q != []
  {
    q[..|q| - 1]
  }

  function Last(q: Levels): string
    requires q != []
  {
    q[|q| - 1]
  }

  lemma {:induction false} DownUp(p: Levels, sym: string)
    ensures Down(p, sym) != [] && Up(Down(p, sym)) == p && Last(Down(p, sym)) == sym
  {}

  lemma {:induction false} UpDown(q: Levels)
    requires q != []
    ensures Down(Up(q), Last(q)) == q
  {}

  /** Nodes by the levels that lead to them, and the children of each. */
  ghost predicate IsTree<N>(at: map<Levels, N>, kids: map<Levels, map<string, N>>) {
    && kids.Keys == at.Keys && [] in at
    && (forall p, sym :: p in at && sym in kids[p] ==> IsChild(at, kids, p, sym))
    && (forall q :: q in at && q != [] ==> HasParent(kids, q))
  }

  ghost predicate IsChild<N>(at: map<Levels, N>, kids: map<Levels, map<string, N>>, p: Levels, sym: string)
    requires p in kids && sym in kids[p]
  {
    Down(p, sym) in at && kids[p][sym] == at[Down(p, sym)]
  }

  ghost predicate HasParent<N>(kids: map<Levels, map<string, N>>, q: Levels)
    requires q != []
  {
    Up(q) in kids && Last(q) in kids[Up(q)]
  }

  lemma {:induction false} ChildOrNot<N>(at: map<Levels, N>, kids: map<Levels, map<string, N>>, p: Levels, sym: string)
    requires IsTree(at, kids) && p in at
    ensures p in kids && (sym in kids[p] <==> Down(p, sym) in at)
    ensures sym in kids[p] ==> kids[p][sym] == at[Down(p, sym)]
  {
    hide Down, Up, Last;
    DownUp(p, sym);
    if sym in kids[p] {
      assert IsChild(at, kids, p, sym);
    }
    if Down(p, sym) in at {
      assert HasParent(kids, Down(p, sym));
    }
  }

  lemma {:induction false} AddChild<N>(at: map<Levels, N>, kids: map<Levels, map<string, N>>, p: Levels, sym: string, child: N)
    requires IsTree(at, kids) && p in at && sym !in kids[p]
    ensures Down(p, sym) !in at
    ensures IsTree(at[Down(p, sym) := child], kids[p := kids[p][sym := child]][Down(p, sym) := map[]])
  {
    hide Down, Up, Last, IsChild, HasParent;
    var q := Down(p, sym);
    DownUp(p, sym);
    ChildOrNot(at, kids, p, sym);
    var at2, kids2 := at[q := child], kids[p := kids[p][sym := child]][q := map[]];
    forall r | r in at2 && r != [] ensures HasParent(kids2, r) {
      ParentKept(at, kids, p, sym, child, r);
    }
    forall r, x | r in at2 && x in kids2[r] ensures IsChild(at2, kids2, r, x) {
      ChildKept(at, kids, p, sym, child, r, x);
    }
  }

  lemma {:induction false} ParentKept<N>(at: map<Levels, N>, kids: map<Levels, map<string, N>>, p: Levels, sym: string, child: N, r: Levels)
    requires p in kids && Down(p, sym) !in kids && r != []
    requires r == Down(p, sym) || HasParent(kids, r)
    ensures HasParent(kids[p := kids[p][sym := child]][Down(p, sym) := map[]], r)
  {
    hide Down, Up, Last;
    DownUp(p, sym);
  }

  lemma {:induction false} ChildKept<N>(at: map<Levels, N>, kids: map<Levels, map<string, N>>, p: Levels, sym: string, child: N,
                     r: Levels, x: string)
    requires p in kids && Down(p, sym) !in at && r in kids[p := kids[p][sym := child]][Down(p, sym) := map[]]
    requires x in kids[p := kids[p][sym := child]][Down(p, sym) := map[]][r]
    requires r in kids && x in kids[r] ==> IsChild(at, kids, r, x)
    ensures IsChild(at[Down(p, sym) := child], kids[p := kids[p][sym := child]][Down(p, sym) := map[]], r, x)
  {
    hide Down, Up, Last;
    DownUp(p, sym);
    DownUp(r, x);
  }

  lemma {:induction false} NoLongerPath<N>(at: map<Levels, N>, kids: map<Levels, map<string, N>>, levels: Levels, i: nat)
    requires IsTree(at, kids) && i <= |levels| && levels[..i] !in at
    ensures levels !in at
    decreases |levels|
  {
    if i < |levels| {
      assert Up(levels)[..i] == levels[..i];
      NoLongerPath(at, kids, Up(levels), i);
      assert levels in at ==> HasParent(kids, levels);
    } else {
      assert levels[..i] == levels;
    }
  }

  lemma {:induction false} OneDown(levels: Levels, i: nat)
    requires i < |levels|
    ensures levels[..i + 1] == Down(levels[..i], levels[i]) && levels[..i + 1] != []
  {}

  /** The index and the copies of all nodes' fields. */
  datatype Store<!T> = Store(at: map<Levels, Node<T>>, kids: map<Levels, map<string, Node<T>>>, content: map<Levels, Option<T>>)

  /** A node's fields are what the store says. */
  ghost predicate Agrees<T>(n: Node<T>, children: map<string, Node<T>>, content: Option<T>, store: Store<T>) {
    && n.place in store.at && store.at[n.place] == n
    && n.place in store.kids && store.kids[n.place] == children
    && n.place in store.content && store.content[n.place] == content
  }

  ghost predicate IsStore<T>(root: Node<T>, nodes: set<Node<T>>, store: Store<T>) {
    && IsTree(store.at, store.kids) && store.content.Keys == store.at.Keys
    && [] in store.at && store.at[[]] == root
    && forall p :: p in store.at ==> store.at[p] in nodes && store.at[p].place == p
  }

  ghost function WithChild<T>(store: Store<T>, p: Levels, sym: string, child: Node<T>): Store<T>
    requires p in store.kids
  {
    Store(store.at[Down(p, sym) := child],
          store.kids[p := store.kids[p][sym := child]][Down(p, sym) := map[]],
          store.content[Down(p, sym) := None])
  }

  lemma {:induction false} StoreWithChild<T>(root: Node<T>, nodes: set<Node<T>>, store: Store<T>, p: Levels, sym: string, child: Node<T>)
    requires IsStore(root, nodes, store) && p in store.kids && sym !in store.kids[p] && child.place == Down(p, sym)
    ensures Down(p, sym) !in store.at && IsStore(root, nodes + {child}, WithChild(store, p, sym, child))
    ensures Agrees(child, map[], None, WithChild(store, p, sym, child))
  {
    hide Down, IsTree;
    KeysOfTree(store.at, store.kids);
    AddChild(store.at, store.kids, p, sym, child);
    DownUp(p, sym);
  }

  lemma {:induction false} KeysOfTree<N>(at: map<Levels, N>, kids: map<Levels, map<string, N>>)
    requires IsTree(at, kids)
    ensures kids.Keys == at.Keys && [] in at
  {}

  lemma {:induction false} AgreesAfter<T>(n: Node<T>, children: map<string, Node<T>>, content: Option<T>, store: Store<T>,
                       p: Levels, sym: string, child: Node<T>)
    requires Agrees(n, children, content, store) && p in store.kids && Down(p, sym) !in store.at
    ensures Agrees(n, if n.place == p then children[sym := child] else children, content, WithChild(store, p, sym, child))
  {
    hide Down;
    DownLonger(p, sym);
  }

  lemma {:induction false} DownLonger(p: Levels, sym: string)
    ensures |Down(p, sym)| == |p| + 1 && p <= Down(p, sym)
  {}

  lemma {:induction false} StoredFields<T>(n: Node<T>, children: map<string, Node<T>>, content: Option<T>, store: Store<T>)
    requires Agrees(n, children, content, store)
    ensures n.place in store.at && n.place in store.kids && store.kids[n.place] == children
    ensures store.at[n.place] == n && n.place in store.content && store.content[n.place] == content
  {}

  lemma {:induction false} OnlyOne<T>(a: Node<T>, ac: map<string, Node<T>>, av: Option<T>, b: Node<T>, bc: map<string, Node<T>>, bv: Option<T>, store: Store<T>)
    requires Agrees(a, ac, av, store) && Agrees(b, bc, bv, store)
    ensures a.place == b.place ==> a == b
  {}

  /** A step down from a node of the store. */
  lemma {:induction false} StoredChild<T>(root: Node<T>, nodes: set<Node<T>>, store: Store<T>, p: Levels, sym: string)
    requires IsStore(root, nodes, store) && p in store.at
    ensures p in store.kids && (sym in store.kids[p] <==> Down(p, sym) in store.at)
    ensures sym in store.kids[p] ==>
      && Down(p, sym) in store.content && store.kids[p][sym] == store.at[Down(p, sym)]
      && store.kids[p][sym] in nodes && store.kids[p][sym].place == Down(p, sym)
  {
    hide IsTree, Down;
    ChildOrNot(store.at, store.kids, p, sym);
  }

  lemma {:induction false} StoredRoot<T>(root: Node<T>, nodes: set<Node<T>>, store: Store<T>)
    requires IsStore(root, nodes, store)
    ensures root in nodes && root.place == [] && [] in store.at && store.at[[]] == root
  {}

  lemma {:induction false} NotStored<T>(root: Node<T>, nodes: set<Node<T>>, store: Store<T>, levels: Levels, i: nat)
    requires IsStore(root, nodes, store) && i <= |levels| && levels[..i] !in store.at
    ensures levels !in store.at && levels !in store.content
  {
    hide IsTree;
    NoLongerPath(store.at, store.kids, levels, i);
  }

  // ---- filters and useless branches ----------------------------------------------------------

  ghost function Filters<T>(store: Store<T>): map<Levels, T> {
    map p | p in store.content && store.content[p].Some? :: store.content[p].value
  }

  /** Every node but the root and the one at `but` leads somewhere or holds a value. */
  ghost predicate IsNeatBut<T>(store: Store<T>, but: Levels) {
    && (forall p :: p in store.kids && p != [] && p != but ==>
          p in store.content && (store.kids[p] != map[] || store.content[p].Some?))
    && [] in store.content && store.content[[]].None?
  }

  ghost predicate IsNeat<T>(store: Store<T>) {
    IsNeatBut(store, [])
  }

  lemma {:induction false} NeatWithChild<T>(store: Store<T>, p: Levels, sym: string, child: Node<T>)
    requires IsNeatBut(store, p) && p in store.kids && p in store.content && Down(p, sym) !in store.content
    ensures IsNeatBut(WithChild(store, p, sym, child), Down(p, sym))
    ensures Filters(WithChild(store, p, sym, child)) == Filters(store)
  {
    hide Down;
    DownUp(p, sym);
    assert sym in store.kids[p][sym := child];
  }

  lemma {:induction false} NeatBelow<T>(store: Store<T>, p: Levels, sym: string)
    requires IsNeatBut(store, p) && p in store.kids && p in store.content && sym in store.kids[p]
    ensures IsNeatBut(store, Down(p, sym))
  {
    hide Down;
  }

  ghost function WithContent<T>(store: Store<T>, p: Levels, content: Option<T>): Store<T> {
    store.(content := store.content[p := content])
  }

  lemma {:induction false} StoreWithContent<T>(root: Node<T>, nodes: set<Node<T>>, store: Store<T>, p: Levels, content: Option<T>)
    requires IsStore(root, nodes, store) && p in store.at
    ensures IsStore(root, nodes, WithContent(store, p, content))
  {
    hide IsTree;
  }

  lemma {:induction false} AgreesAfterContent<T>(n: Node<T>, children: map<string, Node<T>>, content: Option<T>, store: Store<T>,
                              p: Levels, value: Option<T>)
    requires Agrees(n, children, content, store)
    ensures Agrees(n, children, if n.place == p then value else content, WithContent(store, p, value))
  {}

  lemma {:induction false} FiltersWithContent<T>(store: Store<T>, p: Levels, value: Option<T>)
    requires p in store.content
    ensures Filters(WithContent(store, p, value)) ==
            match value case Some(v) => Filters(store)[p := v] case None => Filters(store) - {p}
  {}

  lemma {:induction false} NeatWithContent<T>(store: Store<T>, p: Levels, value: Option<T>, but: Levels)
    requires IsNeatBut(store, but) && p != []
    requires if value.Some? then but == p || but == [] else but == []
    ensures if value.Some? then IsNeat(WithContent(store, p, value)) else IsNeatBut(WithContent(store, p, value), p)
  {}

  // ---- removing a leaf -----------------------------------------------------------------------

  ghost function WithoutLeaf<T>(store: Store<T>, p: Levels, sym: string): Store<T>
    requires p in store.kids
  {
    Store(store.at - {Down(p, sym)}, store.kids[p := store.kids[p] - {sym}] - {Down(p, sym)}, store.content - {Down(p, sym)})
  }

  lemma {:induction false} RemoveLeaf<N>(at: map<Levels, N>, kids: map<Levels, map<string, N>>, p: Levels, sym: string)
    requires IsTree(at, kids) && p in at && Down(p, sym) in at && kids[Down(p, sym)] == map[]
    ensures IsTree(at - {Down(p, sym)}, kids[p := kids[p] - {sym}] - {Down(p, sym)})
  {
    hide Down, Up, Last, IsChild, HasParent;
    var q := Down(p, sym);
    DownUp(p, sym);
    DownLonger(p, sym);
    var at2, kids2 := at - {q}, kids[p := kids[p] - {sym}] - {q};
    forall r | r in at2 && r != [] ensures HasParent(kids2, r) {
      ParentStays(kids, p, sym, r);
    }
    forall r, x | r in at2 && x in kids2[r] ensures IsChild(at2, kids2, r, x) {
      ChildStays(at, kids, p, sym, r, x);
    }
  }

  lemma {:induction false} ParentStays<N>(kids: map<Levels, map<string, N>>, p: Levels, sym: string, r: Levels)
    requires p in kids && Down(p, sym) in kids && kids[Down(p, sym)] == map[]
    requires r != [] && r != Down(p, sym) && HasParent(kids, r)
    ensures HasParent(kids[p := kids[p] - {sym}] - {Down(p, sym)}, r)
  {
    hide Down, Up, Last;
    UpDown(r);
    DownLonger(p, sym);
  }

  lemma {:induction false} ChildStays<N>(at: map<Levels, N>, kids: map<Levels, map<string, N>>, p: Levels, sym: string, r: Levels, x: string)
    requires p in kids && r in kids && r != Down(p, sym) && x in (kids[p := kids[p] - {sym}])[r]
    requires x in kids[r] ==> IsChild(at, kids, r, x)
    ensures r in kids[p := kids[p] - {sym}] - {Down(p, sym)} && x in (kids[p := kids[p] - {sym}] - {Down(p, sym)})[r]
    ensures IsChild(at - {Down(p, sym)}, kids[p := kids[p] - {sym}] - {Down(p, sym)}, r, x)
  {
    hide Down, Up, Last;
    DownUp(p, sym);
    DownUp(r, x);
  }

  lemma {:induction false} StoreWithoutLeaf<T>(root: Node<T>, nodes: set<Node<T>>, store: Store<T>, p: Levels, sym: string, leaf: Node<T>)
    requires IsStore(root, nodes, store) && p in store.at && Down(p, sym) in store.at
    requires leaf == store.at[Down(p, sym)] && store.kids[Down(p, sym)] == map[]
    ensures p in store.kids && IsStore(root, nodes - {leaf}, WithoutLeaf(store, p, sym))
  {
    hide Down, IsTree;
    KeysOfTree(store.at, store.kids);
    DownUp(p, sym);
    RemoveLeaf(store.at, store.kids, p, sym);
    KeysOfTree(store.at - {Down(p, sym)}, store.kids[p := store.kids[p] - {sym}] - {Down(p, sym)});
  }

  lemma {:induction false} AgreesWithoutLeaf<T>(n: Node<T>, children: map<string, Node<T>>, content: Option<T>, store: Store<T>, p: Levels, sym: string)
    requires Agrees(n, children, content, store) && p in store.kids && n.place != Down(p, sym)
    ensures Agrees(n, if n.place == p then children - {sym} else children, content, WithoutLeaf(store, p, sym))
  {
    hide Down;
  }

  lemma {:induction false} NeatWithoutLeaf<T>(store: Store<T>, p: Levels, sym: string)
    requires IsNeatBut(store, Down(p, sym)) && p in store.kids && Down(p, sym) in store.content
    requires store.content[Down(p, sym)].None?
    ensures IsNeatBut(WithoutLeaf(store, p, sym), p) && Filters(WithoutLeaf(store, p, sym)) == Filters(store)
  {
    hide Down;
    DownUp(p, sym);
  }

  lemma {:induction false} NeatAgain<T>(store: Store<T>, p: Levels)
    requires IsNeatBut(store, p) && p in store.kids && p in store.content
    requires store.kids[p] != map[] || store.content[p].Some?
    ensures IsNeat(store)
  {}

  // ---- every branch leads to a filter --------------------------------------------------------

  lemma {:induction false} Bounded(places: set<Levels>) returns (n: nat)
    ensures forall p :: p in places ==> |p| <= n
  {
    n := 0;
    if places != {} {
      var p :| p in places;
      n := Bounded(places - {p});
      n := if n < |p| then |p| else n;
    }
  }

  lemma {:induction false} LeadsToFilter<T>(root: Node<T>, nodes: set<Node<T>>, store: Store<T>, p: Levels, bound: nat) returns (f: Levels)
    requires IsStore(root, nodes, store) && IsNeat(store) && p in store.at && p != []
    requires forall q :: q in store.at ==> |q| <= bound
    ensures f in Filters(store) && p <= f
    decreases bound - |p|
  {
    hide IsTree, Down;
    KeysOfTree(store.at, store.kids);
    if store.content[p].Some? {
      f := p;
    } else {
      var sym :| sym in store.kids[p];
      StoredChild(root, nodes, store, p, sym);
      DownLonger(p, sym);
      f := LeadsToFilter(root, nodes, store, Down(p, sym), bound);
    }
  }

  predicate IsBeginning<T>(p: Levels, filters: map<Levels, T>) {
    exists f :: f in filters && p <= f
  }

  /** The trie holds a node for exactly the beginnings of its filters. */
  lemma {:induction false} NodesAreBeginnings<T>(root: Node<T>, nodes: set<Node<T>>, store: Store<T>, p: Levels)
    requires IsStore(root, nodes, store) && IsNeat(store) && p != []
    ensures p in store.at <==> IsBeginning(p, Filters(store))
  {
    hide IsTree, IsNeat;
    if p in store.at {
      var bound := Bounded(store.at.Keys);
      var f := LeadsToFilter(root, nodes, store, p, bound);
    } else {
      forall f | f in Filters(store) ensures !(p <= f) {
        if p <= f {
          assert f[..|p|] == p;
          NotStored(root, nodes, store, f, |p|);
        }
      }
    }
  }

  class MQTTMatcher<T> {
    const root: Node<T>
    ghost var nodes: set<Node<T>>
    ghost var store: Store<T>

    ghost predicate Structure()
      reads this, nodes
    {
      IsStore(root, nodes, store) && forall n :: n in nodes ==> Agrees(n, n.children, n.content, store)
    }

    ghost predicate Valid()
      reads this, nodes
    {
      Structure() && IsNeat(store)
    }

    /** The map from filters to values that the trie stands for. */
    ghost function Contents(): map<Levels, T>
      reads this
    {
      Filters(store)
    }

    constructor ()
      ensures Valid() && fresh(this) && fresh(nodes) && Contents() == map[]
    {
      root := new Node([]);
      new;
      nodes := {root};
      store := Store(map[[] := root], map[[] := map[]], map[[] := None]);
    }

    method NewChild(node: Node<T>, sym: string) returns (child: Node<T>)
      requires Structure() && node in nodes && sym !in node.children
      modifies this`store, this`nodes, node`children
      ensures Structure() && fresh(child) && nodes == old(nodes) + {child} && child.place == Down(node.place, sym)
      ensures node.place in old(store).kids && Down(node.place, sym) !in old(store).at
      ensures store == WithChild(old(store), node.place, sym, child)
    {
      hide Agrees, IsStore, WithChild, Down;
      child := new Node(Down(node.place, sym));
      StoredFields(node, node.children, node.content, store);
      StoreWithChild(root, nodes, store, node.place, sym, child);
      node.children := node.children[sym := child];
      forall n | n in nodes
        ensures Agrees(n, n.children, n.content, WithChild(store, node.place, sym, child))
      {
        AgreesAfter(n, old(n.children), old(n.content), store, node.place, sym, child);
        OnlyOne(node, old(node.children), old(node.content), n, old(n.children), old(n.content), store);
      }
      nodes := nodes + {child};
      store := WithChild(store, node.place, sym, child);
    }

    /** node._children.setdefault(sym, Node()) */
    method SetDefault(node: Node<T>, sym: string) returns (child: Node<T>)
      requires Structure() && node in nodes && IsNeatBut(store, node.place)
      modifies this`store, this`nodes, node`children
      ensures Structure() && child in nodes && child.place == Down(node.place, sym)
      ensures IsNeatBut(store, child.place) && Contents() == old(Contents())
      ensures nodes == old(nodes) || (nodes == old(nodes) + {child} && fresh(child))
    {
      hide Agrees, IsStore, WithChild, Down, IsNeatBut, Filters;
      StoredFields(node, node.children, node.content, store);
      StoredChild(root, nodes, store, node.place, sym);
      if sym !in node.children {
        SameKeys(root, nodes, store, Down(node.place, sym));
        child := NewChild(node, sym);
        NeatWithChild(old(store), node.place, sym, child);
      } else {
        child := node.children[sym];
        NeatBelow(store, node.place, sym);
      }
    }

    /** node._content = value */
    method PutContent(node: Node<T>, value: Option<T>)
      requires Structure() && node in nodes
      modifies this`store, node`content
      ensures Structure() && node.place in old(store).content && store == WithContent(old(store), node.place, value)
    {
      hide Agrees, IsStore, WithContent;
      StoredFields(node, node.children, node.content, store);
      StoreWithContent(root, nodes, store, node.place, value);
      node.content := value;
      forall n | n in nodes ensures Agrees(n, n.children, n.content, WithContent(store, node.place, value)) {
        AgreesAfterContent(n, n.children, old(n.content), store, node.place, value);
        OnlyOne(node, node.children, old(node.content), n, n.children, old(n.content), store);
      }
      store := WithContent(store, node.place, value);
    }

    /** matcher[key] = value */
    method Set(key: string, value: T)
      requires Valid()
      modifies this`store, this`nodes, nodes
      ensures Valid() && fresh(nodes - old(nodes))
      ensures Contents() == old(Contents())[Split(key) := value]
    {
      hide Agrees, IsStore, WithContent, Down, Split, IsNeatBut, Filters;
      var levels := Split(key);
      var node := root;
      StoredRoot(root, nodes, store);
      assert levels[..0] == [];
      for i := 0 to |levels|
        invariant Structure() && node in nodes && node.place == levels[..i]
        invariant IsNeatBut(store, levels[..i]) && Contents() == old(Contents())
        invariant fresh(nodes - old(nodes))
      {
        OneDown(levels, i);
        node := SetDefault(node, levels[i]);
      }
      assert levels[..|levels|] == levels;
      NeatWithContent(store, levels, Some(value), levels);
      ghost var before := store;
      PutContent(node, Some(value));
      FiltersWithContent(before, levels, Some(value));
    }

    /** matcher[key]; None stands for KeyError. */
    method Get(key: string) returns (r: Option<T>)
      requires Valid()
      ensures r == if Split(key) in Contents() then Some(Contents()[Split(key)]) else None
    {
      hide Agrees, IsStore, Down, Split, IsNeatBut;
      var levels := Split(key);
      var node := root;
      StoredRoot(root, nodes, store);
      for i := 0 to |levels|
        invariant node in nodes && node.place == levels[..i]
      {
        StoredFields(node, node.children, node.content, store);
        StoredChild(root, nodes, store, node.place, levels[i]);
        OneDown(levels, i);
        if levels[i] !in node.children {
          NotStored(root, nodes, store, levels, i + 1);
          return None;
        }
        node := node.children[levels[i]];
      }
      assert levels[..|levels|] == levels;
      StoredFields(node, node.children, node.content, store);
      r := node.content;
    }

    /** del parent._children[k] */
    method RemoveChild(parent: Node<T>, k: string, node: Node<T>)
      requires Structure() && parent in nodes && node in nodes && node.place == Down(parent.place, k)
      requires node.children == map[] && node.content.None? && IsNeatBut(store, node.place)
      modifies this`store, this`nodes, parent`children
      ensures Structure() && nodes == old(nodes) - {node} && parent in nodes
      ensures IsNeatBut(store, parent.place) && Contents() == old(Contents())
    {
      hide Agrees, IsStore, WithoutLeaf, Down, IsNeatBut, Filters;
      StoredFields(parent, parent.children, parent.content, store);
      StoredFields(node, node.children, node.content, store);
      StoreWithoutLeaf(root, nodes, store, parent.place, k, node);
      NeatWithoutLeaf(store, parent.place, k);
      DownLonger(parent.place, k);
      parent.children := parent.children - {k};
      forall n | n in nodes - {node} ensures Agrees(n, n.children, n.content, WithoutLeaf(store, parent.place, k)) {
        OnlyOne(parent, old(parent.children), parent.content, n, old(n.children), n.content, store);
        OnlyOne(node, old(node.children), node.content, n, old(n.children), n.content, store);
        AgreesWithoutLeaf(n, old(n.children), n.content, store, parent.place, k);
      }
      nodes := nodes - {node};
      store := WithoutLeaf(store, parent.place, k);
    }

    /** The way down to a key; ok is false where a level is missing. */
    method Descend(levels: Levels) returns (ok: bool, lst: seq<(Node<T>, string, Node<T>)>)
      requires Valid()
      ensures ok <==> levels in store.at
      ensures ok ==> |lst| == |levels| && IsWay(lst, levels)
      ensures forall j :: 0 <= j < |lst| ==> lst[j].0 in nodes && lst[j].2 in nodes
    {
      hide Agrees, IsStore, Down, IsNeatBut;
      var node := root;
      lst := [];
      StoredRoot(root, nodes, store);
      for i := 0 to |levels|
        invariant node in nodes && node.place == levels[..i]
        invariant |lst| == i && IsWay(lst, levels)
        invariant forall j :: 0 <= j < i ==> lst[j].0 in nodes && lst[j].2 in nodes
      {
        StoredFields(node, node.children, node.content, store);
        StoredChild(root, nodes, store, node.place, levels[i]);
        OneDown(levels, i);
        if levels[i] !in node.children {
          NotStored(root, nodes, store, levels, i + 1);
          return false, lst;
        }
        var child := node.children[levels[i]];
        lst := lst + [(node, levels[i], child)];
        node := child;
      }
      assert levels[..|levels|] == levels;
      StoredFields(node, node.children, node.content, store);
      ok := true;
    }

    /**
     del matcher[key]; ok is false for KeyError.  Unlike a lookup, deleting raises only if no filter starts
     with the key's levels: a key that is merely on the way to other filters is deleted without effect.
     */
    method Delete(key: string) returns (ok: bool)
      requires Valid()
      modifies this`store, this`nodes, nodes
      ensures Valid() && nodes <= old(nodes)
      ensures ok <==> IsBeginning(Split(key), old(Contents()))
      ensures Contents() == if ok then old(Contents()) - {Split(key)} else old(Contents())
      ensures !ok ==> store == old(store)
    {
      hide Agrees, IsStore, WithContent, Down, Split, IsNeatBut, Filters, IsBeginning;
      var levels := Split(key);
      var lst;
      NodesAreBeginnings(root, nodes, store, levels);
      ok, lst := Descend(levels);
      if !ok {
        return;
      }
      var last := lst[|lst| - 1].2;
      assert levels[..|levels|] == levels && last.place == levels;
      NeatWithContent(store, levels, None, []);
      ghost var before := store;
      PutContent(last, None);
      FiltersWithContent(before, levels, None);
      Cleanup(lst, levels);
    }

    /** The loop that takes away branches without use. */
    method Cleanup(lst: seq<(Node<T>, string, Node<T>)>, ghost levels: Levels)
      requires Structure() && IsWay(lst, levels) && |lst| == |levels| > 0 && IsNeatBut(store, levels)
      requires forall j :: 0 <= j < |lst| ==> lst[j].0 in nodes && lst[j].2 in nodes
      modifies this`store, this`nodes, nodes
      ensures Valid() && nodes <= old(nodes) && Contents() == old(Contents())
    {
      hide Agrees, IsStore, Down, IsNeatBut, Filters;
      var j := |lst|;
      assert levels[..|levels|] == levels && levels[..0] == [];
      while j > 0
        invariant 0 <= j <= |lst| && Structure() && nodes <= old(nodes)
        invariant IsNeatBut(store, levels[..j]) && Contents() == old(Contents())
        invariant forall i :: 0 <= i < j ==> lst[i].0 in nodes && lst[i].2 in nodes
      {
        var (parent, k, node) := lst[j - 1];
        OneDown(levels, j - 1);
        StoredFields(node, node.children, node.content, store);
        if node.children != map[] || node.content.Some? {
          NeatAgain(store, node.place);
          return;
        }
        forall i | 0 <= i < j - 1 ensures lst[i].2.place != node.place && lst[i].0.place != node.place {
          assert |lst[i].2.place| == i + 1 && |lst[i].0.place| == i;
        }
        RemoveChild(parent, k, node);
        j := j - 1;
      }
    }

    /** The values below a child, if there is one, and the filters they belong to. */
    method RecChild(node: Node<T>, sym: string, lst: Levels, normal: bool, i: nat) returns (r: seq<T>, ghost fs: seq<Levels>)
      requires Valid() && node in nodes && i < |lst|
      ensures AreValues(r, fs, Contents())
      ensures forall f :: multiset(fs)[f] == Share(f, Contents(), Down(node.place, sym), lst, normal, i + 1)
      decreases |lst| - i, 0
    {
      hide Agrees, IsStore, Down, IsNeatBut, Filters, Times;
      StoredFields(node, node.children, node.content, store);
      StoredChild(root, nodes, store, node.place, sym);
      r, fs := [], [];
      if sym in node.children {
        r, fs := Rec(node.children[sym], lst, normal, i + 1);
      } else {
        NoShare(root, nodes, store, Down(node.place, sym), lst, normal, i + 1);
      }
    }

    /** The value of one node, if it has one. */
    method Own(node: Node<T>) returns (r: seq<T>, ghost fs: seq<Levels>)
      requires Valid() && node in nodes
      ensures AreValues(r, fs, Contents())
      ensures forall f :: multiset(fs)[f] == if f == node.place && f in Contents() then 1 else 0
    {
      hide Agrees, IsStore, IsNeatBut;
      StoredFields(node, node.children, node.content, store);
      r, fs := [], [];
      if node.content.Some? {
        r, fs := [node.content.value], [node.place];
      }
    }

    /** The value of a trailing #. */
    method OwnOfHash(node: Node<T>, wild: bool) returns (r: seq<T>, ghost fs: seq<Levels>)
      requires Valid() && node in nodes
      ensures AreValues(r, fs, Contents())
      ensures forall f :: multiset(fs)[f] == if wild && f == Down(node.place, "#") && f in Contents() then 1 else 0
    {
      hide Agrees, IsStore, IsNeatBut, Down;
      StoredFields(node, node.children, node.content, store);
      StoredChild(root, nodes, store, node.place, "#");
      SameKeys(root, nodes, store, Down(node.place, "#"));
      r, fs := [], [];
      if "#" in node.children && wild {
        r, fs := Own(node.children["#"]);
      }
    }

    /** rec in iter_match. */
    method Rec(node: Node<T>, lst: Levels, normal: bool, i: nat) returns (r: seq<T>, ghost fs: seq<Levels>)
      requires Valid() && node in nodes && i <= |lst|
      ensures AreValues(r, fs, Contents())
      ensures forall f :: multiset(fs)[f] == Share(f, Contents(), node.place, lst, normal, i)
      decreases |lst| - i, 1
    {
      hide Agrees, IsStore, Down, IsNeatBut, Share, Filters;
      var wild := normal || i > 0;
      ghost var f1: seq<Levels>, f2: seq<Levels>, f3: seq<Levels> := [], [], [];
      var more: seq<T> := [];
      if i == |lst| {
        r, f1 := Own(node);
      } else {
        r, f1 := RecChild(node, lst[i], lst, normal, i);
        if wild {
          more, f2 := RecChild(node, "+", lst, normal, i);
        }
      }
      JoinValues(r, f1, more, f2, Contents());
      r := r + more;
      more, f3 := OwnOfHash(node, wild);
      JoinValues(r, f1 + f2, more, f3, Contents());
      r, fs := r + more, f1 + f2 + f3;
      forall f ensures multiset(fs)[f] == Share(f, Contents(), node.place, lst, normal, i) {
        ShareStep(f, Contents(), node.place, lst, normal, i);
      }
    }

    /** iter_match: the values of the filters, each as often as the walk comes to it. */
    method IterMatch(topic: string) returns (r: seq<T>)
      requires Valid()
      ensures exists fs: seq<Levels> :: AreValues(r, fs, Contents()) && AreHits(fs, Contents(), Split(topic))
      ensures IsPlain(Split(topic)) ==>
        exists fs: seq<Levels> :: AreValues(r, fs, Contents()) && AreTheMatches(fs, Contents(), Split(topic))
    {
      hide Agrees, IsStore, IsNeatBut, Split, Times, Matches, IsPlain, Filters, AreValues;
      var lst := Split(topic);
      var normal := !(topic != "" && topic[0] == '$');
      FirstOfSplit(topic);
      StoredRoot(root, nodes, store);
      ghost var fs;
      r, fs := Rec(root, lst, normal, 0);
      forall f ensures Share(f, Contents(), [], lst, normal, 0) == if f in Contents() then Hits(f, lst) else 0 {
        assert f[0..] == f;
      }
      if IsPlain(lst) {
        forall f ensures Hits(f, lst) == if Matches(f, lst) then 1 else 0 {
          TimesIsMatches(f, lst);
        }
        assert AreTheMatches(fs, Contents(), lst);
      }
      assert AreHits(fs, Contents(), lst);
    }
  }

  /** fs lists the filters, each as often as the walk comes to it. */
  ghost predicate AreHits<T>(fs: seq<Levels>, filters: map<Levels, T>, topic: Levels) {
    forall f :: multiset(fs)[f] == if f in filters then Hits(f, topic) else 0
  }

  /** fs lists the matching filters, each once. */
  ghost predicate AreTheMatches<T>(fs: seq<Levels>, filters: map<Levels, T>, topic: Levels) {
    forall f :: multiset(fs)[f] == if f in filters && Matches(f, topic) then 1 else 0
  }

  lemma {:induction false} FirstOfSplit(s: string)
    ensures StartsWithDollar(Split(s)) <==> s != "" && s[0] == '$'
  {}

  /** r lists the values of the filters fs. */
  ghost predicate AreValues<T>(r: seq<T>, fs: seq<Levels>, filters: map<Levels, T>) {
    |r| == |fs| && forall k :: 0 <= k < |r| ==> fs[k] in filters && r[k] == filters[fs[k]]
  }

  lemma {:induction false} JoinValues<T>(r: seq<T>, fs: seq<Levels>, s: seq<T>, gs: seq<Levels>, filters: map<Levels, T>)
    requires AreValues(r, fs, filters) && AreValues(s, gs, filters)
    ensures AreValues(r + s, fs + gs, filters) && multiset(fs + gs) == multiset(fs) + multiset(gs)
  {}

  /** How often the walk below p yields the value of f. */
  ghost function Share<T>(f: Levels, filters: map<Levels, T>, p: Levels, lst: Levels, normal: bool, i: nat): nat
    requires i <= |lst|
  {
    if f in filters && p <= f then Times(f[|p|..], lst, normal, i) else 0
  }

  lemma {:induction false} NoShare<T>(root: Node<T>, nodes: set<Node<T>>, store: Store<T>, p: Levels, lst: Levels, normal: bool, i: nat)
    requires IsStore(root, nodes, store) && p !in store.at && i <= |lst|
    ensures forall f :: Share(f, Filters(store), p, lst, normal, i) == 0
  {
    hide IsStore, Times;
    forall f | p <= f ensures f !in Filters(store) {
      assert f[..|p|] == p;
      NotStored(root, nodes, store, f, |p|);
    }
  }

  /** A walk's share of a filter, by the three places where the walk goes on. */
  lemma {:induction false} ShareStep<T>(f: Levels, filters: map<Levels, T>, p: Levels, lst: Levels, normal: bool, i: nat)
    requires i <= |lst|
    ensures Share(f, filters, p, lst, normal, i) ==
      (if i == |lst| then if f == p && p in filters then 1 else 0
       else Share(f, filters, Down(p, lst[i]), lst, normal, i + 1)
            + if normal || i > 0 then Share(f, filters, Down(p, "+"), lst, normal, i + 1) else 0)
      + if (normal || i > 0) && f == Down(p, "#") && Down(p, "#") in filters then 1 else 0
  {
    if p <= f {
      var rest := f[|p|..];
      if i < |lst| {
        TailBelow(f, p, lst[i]);
        TailBelow(f, p, "+");
      }
      TailBelow(f, p, "#");
      assert rest == [] <==> f == p;
      assert rest == ["#"] <==> f == Down(p, "#");
    } else {
      NothingBelow(f, p);
    }
  }

  lemma {:induction false} TailBelow(f: Levels, p: Levels, sym: string)
    requires p <= f
    ensures Down(p, sym) <= f <==> f[|p|..] != [] && f[|p|..][0] == sym
    ensures Down(p, sym) <= f ==> f[|Down(p, sym)|..] == f[|p|..][1..]
  {}

  lemma {:induction false} NothingBelow(f: Levels, p: Levels)
    requires !(p <= f)
    ensures forall sym :: !(Down(p, sym) <= f)
    ensures forall sym :: Down(p, sym) != f && p != f
  {
    forall sym ensures !(Down(p, sym) <= f) {
      DownLonger(p, sym);
    }
  }

  /** Parent, level and node for each level of the key. */
  ghost predicate IsWay<T>(lst: seq<(Node<T>, string, Node<T>)>, levels: Levels) {
    && |lst| <= |levels|
    && forall j :: 0 <= j < |lst| ==> IsStep(lst[j], levels, j)
  }

  ghost predicate IsStep<T>(step: (Node<T>, string, Node<T>), levels: Levels, j: nat)
    requires j < |levels|
  {
    step.0.place == levels[..j] && step.1 == levels[j] && step.2.place == levels[..j + 1]
  }

  lemma {:induction false} SameKeys<T>(root: Node<T>, nodes: set<Node<T>>, store: Store<T>, p: Levels)
    requires IsStore(root, nodes, store)
    ensures p in store.at <==> p in store.content
  {}
}
