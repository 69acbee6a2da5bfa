/**
  The subscription trie (internal/topic/trie.go): which handlers of a listener
  an event delivered under a topic is for.

  Nodes are heap objects. A node knows, as ghost state, the pattern words on
  the way to it, so that the trie's invariant is flat: `at` gives the node of
  every pattern prefix in use.
 */
module TopicTrie {
  import opened Topics

  datatype Entry<T> = Entry(v: T, seq_: nat)

  /** One call of Add: pattern words and value. */
  datatype Registration<T> = Registration(pattern: seq<Word>, v: T)

  class Node<T> {
    var children: map<Word, Node<T>>
    var star: Node?<T>
    var hash: Node?<T>
    var values: seq<Entry<T>>
    ghost const parent: Node?<T>
    ghost const word: Word         // the pattern word that leads here from the parent
    ghost const path: seq<Word>    // all pattern words on the way here

    constructor (ghost parent: Node?<T>, ghost word: Word)
      ensures this.parent == parent && this.word == word
      ensures path == if parent == null then [] else parent.path + [word]
      ensures children == map[] && star == null && hash == null && values == []
    {
      children, star, hash, values := map[], null, null, [];
      this.parent, this.word := parent, word;
      path := if parent == null then [] else parent.path + [word];
    }

    /** The node a pattern word leads to, if there is one. */
    function Link(w: Word): Node?<T>
      reads this
    {
      if w == "*" then star else if w == "#" then hash else if w in children then children[w] else null
    }

    method Push(e: Entry<T>)
      modifies this`values
      ensures values == old(values) + [e]
      ensures forall w :: Link(w) == old(Link(w))
    {
      values := values + [e];
    }

    /** A new, empty node at the end of the link for w. */
    method Attach(w: Word) returns (c: Node<T>)
      modifies this
      ensures fresh(c) && c.parent == this && c.word == w && c.path == path + [w]
      ensures c.values == [] && c.children == map[] && forall x :: c.Link(x) == null
      ensures values == old(values) && children.Keys <= old(children.Keys) + {w}
      ensures w == "*" || w == "#" ==> children == old(children)
      ensures Link(w) == c && forall x | x != w :: Link(x) == old(Link(x))
    {
      c := new Node<T>(this, w);
      if w == "*" {
        star := c;
      } else if w == "#" {
        hash := c;
      } else {
        children := children[w := c];
      }
    }
  }

  /** e was registered under a pattern that extends prefix by something matching words. */
  ghost predicate Hit<T>(log: seq<Registration<T>>, prefix: seq<Word>, words: seq<Word>, e: Entry<T>) {
    && 1 <= e.seq_ <= |log| && log[e.seq_ - 1].v == e.v
    && prefix <= log[e.seq_ - 1].pattern
    && TopicMatch(log[e.seq_ - 1].pattern[|prefix|..], words)
  }

  /** The entries registered under exactly this pattern, in order. */
  ghost function EntriesAt<T>(log: seq<Registration<T>>, pattern: seq<Word>): seq<Entry<T>> {
    if log == [] then []
    else
      var n := |log| - 1;
      EntriesAt(log[..n], pattern) + if log[n].pattern == pattern then [Entry(log[n].v, n + 1)] else []
  }

  lemma {:induction false} EntriesAtMembers<T>(log: seq<Registration<T>>, pattern: seq<Word>, e: Entry<T>)
    ensures e in EntriesAt(log, pattern) <==>
            1 <= e.seq_ <= |log| && log[e.seq_ - 1] == Registration(pattern, e.v)
  {
    if log != [] {
      EntriesAtMembers(log[..|log| - 1], pattern, e);
    }
  }

  lemma EntriesAtSnoc<T>(log: seq<Registration<T>>, r: Registration<T>, pattern: seq<Word>)
    ensures EntriesAt(log + [r], pattern) ==
            EntriesAt(log, pattern) + if r.pattern == pattern then [Entry(r.v, |log| + 1)] else []
  {
    assert (log + [r])[..|log|] == log;
  }

  lemma {:induction false} NoEntries<T>(log: seq<Registration<T>>, pattern: seq<Word>)
    requires forall i | 0 <= i < |log| :: log[i].pattern != pattern
    ensures EntriesAt(log, pattern) == []
  {
    if log != [] {
      NoEntries(log[..|log| - 1], pattern);
    }
  }

  // ---- how hits split along the trie -------------------------------------

  /** At the end of the topic: values here, or through a trailing '#'. */
  lemma HitAtEnd<T>(log: seq<Registration<T>>, p: seq<Word>, e: Entry<T>)
    ensures Hit(log, p, [], e) <==> e in EntriesAt(log, p) || Hit(log, p + ["#"], [], e)
  {
    EntriesAtMembers(log, p, e);
    if 1 <= e.seq_ <= |log| && p <= log[e.seq_ - 1].pattern {
      var pat := log[e.seq_ - 1].pattern;
      var q := pat[|p|..];
      assert pat == p + q;
      if |q| > 0 {
        assert pat[|p| + 1..] == q[1..];
        assert p + ["#"] <= pat <==> q[0] == "#";
      }
    }
  }

  /** With words left: the literal child, '*', or '#' absorbing some of them. */
  lemma HitOnWord<T>(log: seq<Registration<T>>, p: seq<Word>, words: seq<Word>, e: Entry<T>)
    requires |words| > 0
    ensures Hit(log, p, words, e) <==>
            || (words[0] != "#" && Hit(log, p + [words[0]], words[1..], e))
            || Hit(log, p + ["*"], words[1..], e)
            || exists n: nat :: n <= |words| && Hit(log, p + ["#"], words[n..], e)
  {
    if 1 <= e.seq_ <= |log| && p <= log[e.seq_ - 1].pattern {
      var pat := log[e.seq_ - 1].pattern;
      var q := pat[|p|..];
      assert pat == p + q;
      if |q| > 0 {
        assert pat[|p| + 1..] == q[1..];
        assert forall w :: p + [w] <= pat <==> q[0] == w;
        if q[0] == "#" {
          HashMatchIff(q, words);
        }
      }
    }
  }

  lemma SnocInjective(a: seq<Word>, x: Word, b: seq<Word>, y: Word)
    ensures a + [x] == b + [y] <==> a == b && x == y
  {
    if a + [x] == b + [y] {
      assert a == (a + [x])[..|a|] && b == (b + [y])[..|b|];
      assert x == (a + [x])[|a|];
    }
  }

  // ---- the reference: scan the registrations -----------------------------

  /** The values of matching registrations, in registration order, each once. */
  ghost function Reference<T>(log: seq<Registration<T>>, words: seq<Word>): seq<T> {
    if log == [] then []
    else
      var n := |log| - 1;
      var before := Reference(log[..n], words);
      if TopicMatch(log[n].pattern, words) && log[n].v !in before then before + [log[n].v] else before
  }

  /** Registration i is the first one of its value to match. */
  ghost predicate FirstMatch<T>(log: seq<Registration<T>>, words: seq<Word>, i: nat) {
    && i < |log| && TopicMatch(log[i].pattern, words)
    && forall j | 0 <= j < i && log[j].v == log[i].v :: !TopicMatch(log[j].pattern, words)
  }

  /** The reference lists values by their first matching registration. */
  lemma {:induction false} ReferenceByFirst<T>(log: seq<Registration<T>>, words: seq<Word>) returns (firsts: seq<nat>)
    ensures |firsts| == |Reference(log, words)|
    ensures forall a | 0 <= a < |firsts| :: FirstMatch(log, words, firsts[a]) && log[firsts[a]].v == Reference(log, words)[a]
    ensures forall a, b | 0 <= a < b < |firsts| :: firsts[a] < firsts[b]
  {
    firsts := [];
    if log != [] {
      var n := |log| - 1;
      firsts := ReferenceByFirst(log[..n], words);
      forall a | 0 <= a < |firsts| ensures FirstMatch(log, words, firsts[a]) {
        assert FirstMatch(log[..n], words, firsts[a]);
      }
      if TopicMatch(log[n].pattern, words) && log[n].v !in Reference(log[..n], words) {
        forall j | 0 <= j < n && log[j].v == log[n].v ensures !TopicMatch(log[j].pattern, words) {
          ReferenceCovers(log[..n], words, j);
        }
        firsts := firsts + [n];
      }
    }
  }

  lemma {:induction false} ReferenceCovers<T>(log: seq<Registration<T>>, words: seq<Word>, i: nat)
    requires i < |log|
    ensures TopicMatch(log[i].pattern, words) ==> log[i].v in Reference(log, words)
  {
    if i < |log| - 1 {
      ReferenceCovers(log[..|log| - 1], words, i);
    }
  }

  /** The reference lists exactly the values with a matching pattern. */
  lemma ReferenceMembers<T>(log: seq<Registration<T>>, words: seq<Word>, v: T)
    ensures v in Reference(log, words) <==>
            exists i | 0 <= i < |log| :: log[i].v == v && TopicMatch(log[i].pattern, words)
  {
    var firsts := ReferenceByFirst(log, words);
    forall i | 0 <= i < |log| && TopicMatch(log[i].pattern, words) ensures log[i].v in Reference(log, words) {
      ReferenceCovers(log, words, i);
    }
    if v in Reference(log, words) {
      var a :| 0 <= a < |firsts| && Reference(log, words)[a] == v;
      assert FirstMatch(log, words, firsts[a]) && log[firsts[a]].v == v;
    }
  }

  /** Each value once, ordered by the earliest registration that matches. */
  lemma ReferenceOrder<T>(log: seq<Registration<T>>, words: seq<Word>, a: nat, b: nat, i: nat, j: nat)
    requires a < b < |Reference(log, words)|
    requires FirstMatch(log, words, i) && log[i].v == Reference(log, words)[a]
    requires FirstMatch(log, words, j) && log[j].v == Reference(log, words)[b]
    ensures i < j && Reference(log, words)[a] != Reference(log, words)[b]
  {
    var firsts := ReferenceByFirst(log, words);
    assert FirstMatch(log, words, firsts[a]) && FirstMatch(log, words, firsts[b]);
    FirstMatchUnique(log, words, i, firsts[a]);
    FirstMatchUnique(log, words, j, firsts[b]);
  }

  lemma FirstMatchUnique<T>(log: seq<Registration<T>>, words: seq<Word>, i: nat, j: nat)
    requires FirstMatch(log, words, i) && FirstMatch(log, words, j) && log[i].v == log[j].v
    ensures i == j
  {
  }

  /** Registrations that do not match add nothing. */
  lemma {:induction false} ReferenceSkips<T>(log: seq<Registration<T>>, words: seq<Word>, a: nat, b: nat)
    requires a <= b <= |log|
    requires forall i | a <= i < b :: !TopicMatch(log[i].pattern, words)
    ensures Reference(log[..b], words) == Reference(log[..a], words)
    decreases b
  {
    if a < b {
      assert log[..b][..b - 1] == log[..b - 1];
      ReferenceSkips(log, words, a, b - 1);
    }
  }

  /** The next match after upto, at q - 1, appends its value unless it is there. */
  lemma ReferenceNext<T>(log: seq<Registration<T>>, words: seq<Word>, upto: nat, q: nat)
    requires upto < q <= |log| && TopicMatch(log[q - 1].pattern, words)
    requires forall i | upto <= i < q - 1 :: !TopicMatch(log[i].pattern, words)
    ensures var before := Reference(log[..upto], words);
      Reference(log[..q], words) == if log[q - 1].v in before then before else before + [log[q - 1].v]
  {
    ReferenceSkips(log, words, upto, q - 1);
    assert log[..q][..q - 1] == log[..q - 1];
  }

  // ---- sorting by registration -------------------------------------------

  ghost predicate Sorted<T>(s: seq<Entry<T>>) {
    forall i, j | 0 <= i < j < |s| :: s[i].seq_ <= s[j].seq_
  }

  /** How much of the log the first i hits cover. */
  function Upto<T>(found: seq<Entry<T>>, i: nat): nat
    requires i <= |found|
  {
    if i == 0 then 0 else found[i - 1].seq_
  }

  /** No registration before the next hit, or after the last, matches. */
  lemma GapUnmatched<T>(log: seq<Registration<T>>, words: seq<Word>, found: seq<Entry<T>>, i: nat, to: nat)
    requires Sorted(found) && i <= |found| && to <= |log| && forall e :: e in found <==> Hit(log, [], words, e)
    requires i < |found| ==> to < found[i].seq_
    ensures forall j | Upto(found, i) <= j < to :: !TopicMatch(log[j].pattern, words)
  {
    forall j | Upto(found, i) <= j < to ensures !TopicMatch(log[j].pattern, words) {
      var x := Entry(log[j].v, j + 1);
      assert x !in found;
      assert !Hit(log, [], words, x);
    }
  }

  /** One hit further, the reference answer gains its value unless it is there. */
  lemma ReferenceStep<T>(log: seq<Registration<T>>, words: seq<Word>, found: seq<Entry<T>>, i: nat)
    requires Sorted(found) && i < |found| && forall e :: e in found <==> Hit(log, [], words, e)
    ensures Upto(found, i) <= Upto(found, i + 1) <= |log|
    ensures var before := Reference(log[..Upto(found, i)], words);
      Reference(log[..Upto(found, i + 1)], words) == if found[i].v in before then before else before + [found[i].v]
  {
    var q := found[i].seq_;
    assert found[i] in found && Hit(log, [], words, found[i]);
    assert log[q - 1].pattern[0..] == log[q - 1].pattern;
    if Upto(found, i) < q {
      GapUnmatched(log, words, found, i, q - 1);
      ReferenceNext(log, words, Upto(found, i), q);
    } else {
      assert log[..q][..q - 1] == log[..q - 1];
    }
  }

  lemma ReferenceEnd<T>(log: seq<Registration<T>>, words: seq<Word>, found: seq<Entry<T>>)
    requires Sorted(found) && Upto(found, |found|) <= |log| && forall e :: e in found <==> Hit(log, [], words, e)
    ensures Reference(log[..Upto(found, |found|)], words) == Reference(log, words)
  {
    GapUnmatched(log, words, found, |found|, |log|);
    ReferenceSkips(log, words, Upto(found, |found|), |log|);
    assert log[..|log|] == log;
  }

  function Insert<T>(e: Entry<T>, s: seq<Entry<T>>): (r: seq<Entry<T>>)
    ensures multiset(r) == multiset(s) + multiset{e}
  {
    if s == [] || e.seq_ <= s[0].seq_ then [e] + s
    else
      assert s == [s[0]] + s[1..];
      [s[0]] + Insert(e, s[1..])
  }

  lemma SortedCons<T>(x: Entry<T>, s: seq<Entry<T>>)
    requires Sorted(s) && forall y | y in s :: x.seq_ <= y.seq_
    ensures Sorted([x] + s)
  {
  }

  lemma {:induction false} InsertKeepsSorted<T>(e: Entry<T>, s: seq<Entry<T>>)
    requires Sorted(s)
    ensures Sorted(Insert(e, s))
  {
    if s == [] || e.seq_ <= s[0].seq_ {
      SortedCons(e, s);
    } else {
      var rest := Insert(e, s[1..]);
      InsertKeepsSorted(e, s[1..]);
      forall x | x in rest ensures s[0].seq_ <= x.seq_ {
        assert x in multiset(rest);
        assert x == e || x in multiset(s[1..]);
      }
      SortedCons(s[0], rest);
    }
  }

  /** slices.SortFunc by sequence number. */
  function SortBySeq<T>(s: seq<Entry<T>>): (r: seq<Entry<T>>)
    ensures Sorted(r) && multiset(r) == multiset(s)
  {
    if s == [] then []
    else
      assert s == [s[0]] + s[1..];
      InsertKeepsSorted(s[0], SortBySeq(s[1..]));
      Insert(s[0], SortBySeq(s[1..]))
  }

  // ---- the shape of the trie ---------------------------------------------

  ghost function Kid<T>(kids: map<(Node<T>, Word), Node<T>>, n: Node<T>, w: Word): Node?<T> {
    if (n, w) in kids then kids[(n, w)] else null
  }

  /** The nodes of a trie and every link between them. */
  datatype Tree<T> = Tree(root: Node<T>, nodes: set<Node<T>>, kids: map<(Node<T>, Word), Node<T>>)

  /** n hangs under its parent, one word further. */
  ghost predicate Hangs<T>(t: Tree<T>, n: Node<T>) {
    && n.parent != null && n.parent in t.nodes && n.path == n.parent.path + [n.word]
    && (n.parent, n.word) in t.kids && t.kids[(n.parent, n.word)] == n
  }

  /** Every node but the root hangs under its parent, and paths are unique. */
  ghost predicate Shape<T>(t: Tree<T>) {
    match t
    case Tree(root, nodes, kids) =>
      && root in nodes && root.path == []
      && (forall n {:trigger Hangs(t, n)} | n in nodes && n != root :: Hangs(t, n))
      && (forall k | k in kids ::
            k.0 in nodes && kids[k] in nodes && kids[k].parent == k.0 && kids[k].word == k.1 && kids[k] != root)
      && (forall m, n | m in nodes && n in nodes && m.path == n.path :: m == n)
  }

  /** Without a link for the word, no node has the longer path. */
  lemma UnusedPath<T>(t: Tree<T>, n: Node<T>, w: Word)
    requires Shape(t) && n in t.nodes && (n, w) !in t.kids
    ensures forall m | m in t.nodes :: m.path != n.path + [w]
  {
    forall m | m in t.nodes ensures m.path != n.path + [w] {
      if m != t.root {
        assert Hangs(t, m);
        SnocInjective(m.parent.path, m.word, n.path, w);
      }
    }
  }

  lemma ShapeGrows<T>(t: Tree<T>, n: Node<T>, w: Word, c: Node<T>)
    requires Shape(t) && n in t.nodes && (n, w) !in t.kids
    requires c !in t.nodes && c.parent == n && c.word == w && c.path == n.path + [w]
    ensures Shape(t.(nodes := t.nodes + {c}, kids := t.kids[(n, w) := c]))
  {
    UnusedPath(t, n, w);
    var t' := t.(nodes := t.nodes + {c}, kids := t.kids[(n, w) := c]);
    forall m | m in t'.nodes && m != t'.root ensures Hangs(t', m) {
      assert m != c ==> Hangs(t, m);
    }
  }

  /** Every prefix of a node's path leads to a node. */
  lemma {:induction false} Ancestor<T>(t: Tree<T>, m: Node<T>, k: nat)
    returns (a: Node<T>)
    requires Shape(t) && m in t.nodes && k <= |m.path|
    ensures a in t.nodes && a.path == m.path[..k]
    decreases |m.path|
  {
    if k == |m.path| {
      a := m;
    } else {
      assert Hangs(t, m);
      a := Ancestor(t, m.parent, k);
    }
  }

  /** A node below n through word w means n has a link for w. */
  lemma LinkBelow<T>(t: Tree<T>, n: Node<T>, w: Word, m: Node<T>)
    requires Shape(t) && n in t.nodes && m in t.nodes && n.path + [w] <= m.path
    ensures (n, w) in t.kids && t.kids[(n, w)].path == n.path + [w]
  {
    var a := Ancestor(t, m, |n.path| + 1);
    assert a.path == n.path + [w];
    assert Hangs(t, a);
    SnocInjective(a.parent.path, a.word, n.path, w);
  }

  lemma OtherKids<T>(kids: map<(Node<T>, Word), Node<T>>, n: Node<T>, w: Word, c: Node<T>, m: Node<T>)
    requires m != n
    ensures forall x :: Kid(kids[(n, w) := c], m, x) == Kid(kids, m, x)
  {
  }

  /** Links and values of a node are what the ghost state says. */
  ghost predicate NodeOk<T>(n: Node<T>, kids: map<(Node<T>, Word), Node<T>>, log: seq<Registration<T>>)
    reads n
  {
    && (forall w :: n.Link(w) == Kid(kids, n, w))
    && Wild(n) && n.values == EntriesAt(log, n.path)
  }

  /** Wildcards have links of their own. */
  predicate Wild<T>(n: Node<T>)
    reads n
  {
    "*" !in n.children && "#" !in n.children
  }

  lemma NodesStayOk<T>(nodes: set<Node<T>>, kids: map<(Node<T>, Word), Node<T>>, log: seq<Registration<T>>,
                       n: Node<T>, w: Word, c: Node<T>)
    requires n in nodes && c !in nodes && forall k | k in kids :: k.0 in nodes
    requires Wild(c) && c.values == EntriesAt(log, c.path) && forall x :: c.Link(x) == null
    requires Wild(n) && n.values == EntriesAt(log, n.path) && n.Link(w) == c
    requires forall x | x != w :: n.Link(x) == Kid(kids, n, x)
    requires forall m | m in nodes && m != n :: NodeOk(m, kids, log)
    ensures forall m | m in nodes + {c} :: NodeOk(m, kids[(n, w) := c], log)
  {
    forall m | m in nodes + {c} ensures NodeOk(m, kids[(n, w) := c], log) {
      if m != n {
        OtherKids(kids, n, w, c, m);
      }
    }
  }

  // ---- the trie ----------------------------------------------------------

  class Trie<T(==)> {
    const root: Node<T>
    var seq_: nat
    ghost var log: seq<Registration<T>>
    ghost var home: seq<Node<T>>                        // where each registration lives
    ghost var nodes: set<Node<T>>
    ghost var kids: map<(Node<T>, Word), Node<T>>       // all links
    ghost var depth: nat

    ghost function View(): Tree<T>
      reads this
    {
      Tree(root, nodes, kids)
    }

    ghost predicate Valid()
      reads this, nodes
    {
      match View()
      case Tree(_, all, links) =>
        && Shape(View())
        && (forall n | n in all :: |n.path| <= depth && NodeOk(n, links, log))
        && seq_ == |log| == |home|
        && (forall i | 0 <= i < |log| :: home[i] in all && home[i].path == log[i].pattern)
    }

    constructor ()
      ensures Valid() && log == [] && fresh(nodes)
    {
      root := new Node<T>(null, "");
      seq_, log, home, kids, depth := 0, [], [], map[], 0;
      nodes := {root};
    }

    /** The node one word further, made if missing (child). */
    method Child(n: Node<T>, word: Word) returns (c: Node<T>)
      requires Valid() && n in nodes
      modifies this`nodes, this`kids, this`depth, nodes
      ensures Valid() && old(nodes) <= nodes && fresh(nodes - old(nodes))
      ensures c in nodes && c.path == n.path + [word]
    {
      assert NodeOk(n, kids, log);
      if n.Link(word) == null {
        c := Grow(n, word);
      } else {
        c := n.Link(word);
        assert Hangs(View(), c);
      }
    }

    /** Hangs a new node under n. */
    method Grow(n: Node<T>, word: Word) returns (c: Node<T>)
      requires Valid() && n in nodes && n.Link(word) == null
      modifies this`nodes, this`kids, this`depth, n
      ensures Valid() && fresh(c) && nodes == old(nodes) + {c}
      ensures c.path == n.path + [word]
    {
      assert NodeOk(n, kids, log);
      c := n.Attach(word);
      forall m | m in nodes && m != n ensures NodeOk(m, kids, log) {
        assert old(NodeOk(m, kids, log));
      }
      Enrol(n, word, c);
    }

    /** Records a node just hung under n. */
    ghost method Enrol(n: Node<T>, word: Word, c: Node<T>)
      requires Unenrolled(n, word, c)
      modifies this`nodes, this`kids, this`depth
      ensures Valid() && nodes == old(nodes) + {c}
    {
      EnrolledOk(n, word, c);
      depth, nodes, kids := DepthWith(depth, n), nodes + {c}, kids[(n, word) := c];
    }

    /** c hangs below n, but is not yet one of the trie's nodes; all else is in order. */
    ghost predicate Unenrolled(n: Node<T>, word: Word, c: Node<T>)
      reads this, nodes, c
    {
      && Shape(View()) && n in nodes && (n, word) !in kids && c !in nodes
      && (forall m | m in nodes :: |m.path| <= depth)
      && c.parent == n && c.word == word && c.path == n.path + [word]
      && Wild(c) && c.values == [] && (forall w :: c.Link(w) == null)
      && Wild(n) && n.values == EntriesAt(log, n.path) && n.Link(word) == c
      && (forall w | w != word :: n.Link(w) == Kid(kids, n, w))
      && (forall m | m in nodes && m != n :: NodeOk(m, kids, log))
      && seq_ == |log| == |home|
      && (forall i | 0 <= i < |log| :: home[i] in nodes && home[i].path == log[i].pattern)
    }

    ghost function DepthWith(depth: nat, n: Node<T>): nat {
      if depth <= |n.path| then |n.path| + 1 else depth
    }

    lemma EnrolledOk(n: Node<T>, word: Word, c: Node<T>)
      requires Unenrolled(n, word, c)
      ensures Shape(View().(nodes := nodes + {c}, kids := kids[(n, word) := c]))
      ensures forall m | m in nodes + {c} :: |m.path| <= DepthWith(depth, n) && NodeOk(m, kids[(n, word) := c], log)
    {
      UnusedPath(View(), n, word);
      NoEntries(log, c.path);
      NodesStayOk(nodes, kids, log, n, word, c);
      ShapeGrows(View(), n, word, c);
    }

    /** Registers v under pattern. */
    method Add(pattern: string, v: T)
      requires Valid()
      modifies this, nodes
      ensures Valid() && fresh(nodes - old(nodes))
      ensures log == old(log) + [Registration(Split(pattern), v)]
    {
      var words := Split(pattern);
      var n := root;
      var i := 0;
      while i < |words|
        invariant i <= |words| && Valid() && n in nodes && n.path == words[..i]
        invariant log == old(log) && fresh(nodes - old(nodes))
      {
        n := Child(n, words[i]);
        assert words[..i + 1] == words[..i] + [words[i]];
        i := i + 1;
      }
      assert words[..i] == words;
      Store(n, v);
    }

    /** Appends v to the values of n. */
    method Store(n: Node<T>, v: T)
      requires Valid() && n in nodes
      modifies this`seq_, this`log, this`home, n`values
      ensures Valid() && log == old(log) + [Registration(n.path, v)]
    {
      assert NodeOk(n, kids, log);
      seq_ := seq_ + 1;
      n.Push(Entry(v, seq_));
      ghost var more := log + [Registration(n.path, v)];
      EntriesAtSnoc(log, Registration(n.path, v), n.path);
      forall m | m in nodes && m != n ensures NodeOk(m, kids, more) {
        assert old(NodeOk(m, kids, log));
        EntriesAtSnoc(log, Registration(n.path, v), m.path);
      }
      log, home := more, home + [n];
    }

    /** Where the trie has no link, no registration matches. */
    lemma NoLinkNoHit(n: Node<T>, w: Word, words: seq<Word>, e: Entry<T>)
      requires Valid() && n in nodes
      ensures Hit(log, n.path + [w], words, e) ==> n.Link(w) != null && n.Link(w) in nodes && n.Link(w).path == n.path + [w]
    {
      assert NodeOk(n, kids, log);
      if Hit(log, n.path + [w], words, e) {
        LinkBelow(View(), n, w, home[e.seq_ - 1]);
      }
    }

    /** Walks the patterns that can match words from n; an entry may be reached many times. */
    method Collect(n: Node<T>, words: seq<Word>, found: seq<Entry<T>>) returns (out: seq<Entry<T>>)
      requires Valid() && n in nodes
      ensures forall e :: e in out <==> e in found || Hit(log, n.path, words, e)
      decreases |words|, depth - |n.path|, 2
    {
      if |words| == 0 {
        out := CollectEnd(n, found);
      } else {
        out := CollectWord(n, words, found);
      }
    }

    /** The topic is used up: the values here, and a trailing '#' matching zero words. */
    method CollectEnd(n: Node<T>, found: seq<Entry<T>>) returns (out: seq<Entry<T>>)
      requires Valid() && n in nodes
      ensures forall e :: e in out <==> e in found || Hit(log, n.path, [], e)
      decreases 0, depth - |n.path|, 1
    {
      LinkPaths(n);
      out := found + n.values;
      if n.hash != null {
        assert n.Link("#") == n.hash;
        out := Collect(n.hash, [], out);
      }
      forall e { EndHits(n, e); }
    }

    /** The literal child, '*', and '#'. */
    method CollectWord(n: Node<T>, words: seq<Word>, found: seq<Entry<T>>) returns (out: seq<Entry<T>>)
      requires Valid() && n in nodes && |words| > 0
      ensures forall e :: e in out <==> e in found || Hit(log, n.path, words, e)
      decreases |words|, depth - |n.path|, 1
    {
      LinkPaths(n);
      var child := if words[0] in n.children then n.children[words[0]] else null;
      assert child != null ==> NodeOk(n, kids, log) && n.Link(words[0]) == child;
      var out0 := Follow(child, n.path + [words[0]], words[1..], found);
      assert n.Link("*") == n.star;
      var out1 := Follow(n.star, n.path + ["*"], words[1..], out0);
      assert n.Link("#") == n.hash;
      out := CollectHash(n, words, out1);
      forall e ensures e in out <==> e in found || Hit(log, n.path, words, e) {
        WordHits(n, words, e);
        assert e in out1 <==> e in out0 || (n.star != null && Hit(log, n.path + ["*"], words[1..], e));
      }
    }

    /** Collects from c, if it exists. */
    method Follow(c: Node?<T>, ghost path: seq<Word>, words: seq<Word>, found: seq<Entry<T>>) returns (out: seq<Entry<T>>)
      requires Valid() && (c != null ==> c in nodes && c.path == path)
      ensures forall e :: e in out <==> e in found || (c != null && Hit(log, path, words, e))
      decreases |words|, if c == null then 0 else depth - |c.path|, 3
    {
      out := found;
      if c != null {
        out := Collect(c, words, found);
      }
    }

    /** The hits from n at the end of the topic. */
    lemma EndHits(n: Node<T>, e: Entry<T>)
      requires Valid() && n in nodes
      ensures Hit(log, n.path, [], e) <==> e in n.values || (n.hash != null && Hit(log, n.path + ["#"], [], e))
    {
      assert NodeOk(n, kids, log);
      HitAtEnd(log, n.path, e);
      NoLinkNoHit(n, "#", [], e);
    }

    /** The hits from n with words left, link by link. */
    lemma WordHits(n: Node<T>, words: seq<Word>, e: Entry<T>)
      requires Valid() && n in nodes && |words| > 0
      ensures Hit(log, n.path, words, e) <==>
              || (words[0] in n.children && Hit(log, n.path + [words[0]], words[1..], e))
              || (n.star != null && Hit(log, n.path + ["*"], words[1..], e))
              || (n.hash != null && exists k: nat :: k <= |words| && Hit(log, n.path + ["#"], words[k..], e))
    {
      assert NodeOk(n, kids, log) && Wild(n);
      HitOnWord(log, n.path, words, e);
      NoLinkNoHit(n, words[0], words[1..], e);
      NoLinkNoHit(n, "*", words[1..], e);
      forall k: nat | k <= |words| ensures Hit(log, n.path + ["#"], words[k..], e) ==> n.hash != null {
        NoLinkNoHit(n, "#", words[k..], e);
      }
    }

    /** '#' absorbs any number of words, including none. */
    method CollectHash(n: Node<T>, words: seq<Word>, found: seq<Entry<T>>) returns (out: seq<Entry<T>>)
      requires Valid() && n in nodes
      requires n.hash != null ==> n.hash in nodes && n.hash.path == n.path + ["#"]
      ensures forall e :: e in out <==>
        || e in found
        || (n.hash != null && exists k: nat :: k <= |words| && Hit(log, n.path + ["#"], words[k..], e))
      decreases |words|, depth - |n.path|, 0
    {
      out := found;
      if n.hash == null { return; }
      var i := 0;
      while i <= |words|
        invariant i <= |words| + 1
        invariant forall e :: e in out <==>
          e in found || exists k: nat :: k < i && k <= |words| && Hit(log, n.path + ["#"], words[k..], e)
      {
        out := Collect(n.hash, words[i..], out);
        i := i + 1;
      }
    }

    lemma LinkPaths(n: Node<T>)
      requires Valid() && n in nodes
      ensures forall w | n.Link(w) != null :: n.Link(w) in nodes && n.Link(w).path == n.path + [w] && |n.Link(w).path| <= depth
    {
      assert NodeOk(n, kids, log);
      forall w | n.Link(w) != null
        ensures n.Link(w) in nodes && n.Link(w).path == n.path + [w]
      {
        assert Hangs(View(), n.Link(w));
      }
    }

    /** Appends to dst the values whose pattern matches topic: what scanning all registrations gives. */
    method Match(topic: string, dst: seq<T>) returns (r: seq<T>)
      requires Valid()
      ensures r == dst + Reference(log, Split(topic))
    {
      var words := Split(topic);
      var collected := Collect(root, words, []);
      var found := SortBySeq(collected);
      assert forall e :: e in found <==> Hit(log, [], words, e) by {
        assert forall e :: e in found <==> e in multiset(found);
        assert forall e :: e in collected <==> e in multiset(collected);
      }
      r := Deduplicate(found, words, dst);
    }

    /** The loop of Match: keep the first entry of every value. */
    method Deduplicate(found: seq<Entry<T>>, ghost words: seq<Word>, dst: seq<T>) returns (r: seq<T>)
      requires Sorted(found) && forall e :: e in found <==> Hit(log, [], words, e)
      ensures r == dst + Reference(log, words)
    {
      r := dst;
      var start := |dst|;
      ghost var ref := [];
      for i := 0 to |found|
        invariant Upto(found, i) <= |log| && ref == Reference(log[..Upto(found, i)], words) && r == dst + ref
      {
        ReferenceStep(log, words, found, i);
        assert r[start..] == ref;
        if found[i].v !in r[start..] {
          r, ref := r + [found[i].v], ref + [found[i].v];
        }
      }
      ReferenceEnd(log, words, found);
    }
  }
}
