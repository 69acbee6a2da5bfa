/**
  The check of built-in custom types (customtypes.go): a cached search of a
  possibly cyclic descriptor graph prunes the walk over a decoded message.
 */
module CustomTypes {
  type Name = string

  const BIGINT: Name := "bigint"
  const BIGINT_BYTES := 32

  /** A field, by the message type of its values if they are messages. */
  datatype FieldDesc = Scalar(number: nat) | Single(number: nat, typ: Name) | ListOf(number: nat, typ: Name)
                     | MapToScalar(number: nat) | MapTo(number: nat, typ: Name)

  predicate HasMessages(fd: FieldDesc) { fd.Single? || fd.ListOf? || fd.MapTo? }

  /** Every message type and its fields; types may refer to each other in cycles. */
  type Graph = map<Name, seq<FieldDesc>>

  predicate Closed(g: Graph) {
    && BIGINT in g
    && forall n, i | n in g && 0 <= i < |g[n]| && HasMessages(g[n][i]) :: g[n][i].typ in g
  }

  // ---- reachability ------------------------------------------------------

  ghost predicate Edge(g: Graph, a: Name, b: Name) {
    a in g && exists i :: 0 <= i < |g[a]| && HasMessages(g[a][i]) && g[a][i].typ == b
  }

  ghost predicate IsPath(g: Graph, p: seq<Name>) {
    |p| > 0 && forall i | 0 <= i < |p| - 1 :: Edge(g, p[i], p[i + 1])
  }

  /** Some path through fields leads from n to a bigint. */
  ghost predicate Reaches(g: Graph, n: Name) {
    exists p :: IsPath(g, p) && p[0] == n && p[|p| - 1] == BIGINT
  }

  lemma ReachesBy(g: Graph, a: Name, b: Name)
    requires Edge(g, a, b) && Reaches(g, b)
    ensures Reaches(g, a)
  {
    var p :| IsPath(g, p) && p[0] == b && p[|p| - 1] == BIGINT;
    var q := [a] + p;
    forall i | 0 <= i < |q| - 1 ensures Edge(g, q[i], q[i + 1]) {
      if i > 0 {
        assert Edge(g, p[i - 1], p[i]);
      }
    }
    assert IsPath(g, q);
  }

  /** A set of other types that no field leaves cannot reach a bigint. */
  lemma {:induction false} ClosedSetStays(g: Graph, s: set<Name>, p: seq<Name>)
    requires IsPath(g, p) && p[0] in s && BIGINT !in s
    requires forall a, b | a in s && Edge(g, a, b) :: b in s
    ensures p[|p| - 1] in s
    decreases |p|
  {
    if |p| > 1 {
      var q := p[1..];
      forall i | 0 <= i < |q| - 1 ensures Edge(g, q[i], q[i + 1]) {
        assert Edge(g, p[i + 1], p[i + 2]);
      }
      assert Edge(g, p[0], p[1]);
      ClosedSetStays(g, s, q);
    }
  }

  /** All of x's fields lead into s, and none to a bigint. */
  predicate Explored(g: Graph, x: Name, s: set<Name>) {
    x in g && x != BIGINT && forall i | 0 <= i < |g[x]| && HasMessages(g[x][i]) :: g[x][i].typ in s && g[x][i].typ != BIGINT
  }

  /** What a walk that found nothing leaves marked: x, and types with no way out of the marked ones. */
  ghost predicate Covers(g: Graph, before: set<Name>, after: set<Name>, x: Name) {
    x in after && x != BIGINT && forall y | y in after && y !in before :: Explored(g, y, after)
  }

  method Walk(g: Graph, md: Name, before: set<Name>) returns (found: bool, visiting: set<Name>)
    requires Closed(g) && md in g && before <= g.Keys
    ensures before <= visiting <= g.Keys
    ensures found ==> Reaches(g, md)
    ensures !found ==> Covers(g, before, visiting, md)
    decreases |g.Keys - before|
  {
    visiting := before;
    if md == BIGINT {
      assert IsPath(g, [BIGINT]);
      return true, visiting;
    }
    if md in visiting {
      return false, visiting;
    }
    visiting := visiting + {md};
    assert g.Keys - visiting < g.Keys - before;
    SubsetSmaller(g.Keys - visiting, g.Keys - before);
    ghost var start := visiting;
    var fields := g[md];
    var i := 0;
    while i < |fields|
      invariant 0 <= i <= |fields|
      invariant start <= visiting <= g.Keys
      invariant forall k | 0 <= k < i && HasMessages(fields[k]) :: fields[k].typ in visiting && fields[k].typ != BIGINT
      invariant forall y | y in visiting && y !in start :: Explored(g, y, visiting)
    {
      if HasMessages(fields[i]) {
        SubsetSmaller(g.Keys - visiting, g.Keys - start);
        ghost var was := visiting;
        found, visiting := Walk(g, fields[i].typ, visiting);
        if found {
          assert Edge(g, md, fields[i].typ);
          ReachesBy(g, md, fields[i].typ);
          return;
        }
        forall y | y in visiting && y !in start ensures Explored(g, y, visiting) {
          if y in was {
            assert Explored(g, y, was);
          }
        }
      }
      i := i + 1;
    }
    found := false;
  }

  lemma SubsetSmaller(a: set<Name>, b: set<Name>)
    requires a <= b
    ensures |a| <= |b| && (a != b ==> |a| < |b|)
  {
    if a != b {
      var x :| x in b && x !in a;
      SubsetAtMost(a, b - {x});
    }
  }

  lemma {:induction false} SubsetAtMost(a: set<Name>, b: set<Name>)
    requires a <= b
    ensures |a| <= |b|
    decreases |a|
  {
    if a != {} {
      var x :| x in a;
      SubsetAtMost(a - {x}, b - {x});
    }
  }

  /** A search from scratch that finds nothing proves there is nothing to find. */
  lemma NothingToFind(g: Graph, md: Name, visiting: set<Name>)
    requires Covers(g, {}, visiting, md)
    ensures !Reaches(g, md)
  {
    forall a, b | a in visiting && Edge(g, a, b) ensures b in visiting {
      assert Explored(g, a, visiting);
    }
    forall y | y in visiting ensures y != BIGINT {
      assert Explored(g, y, visiting);
    }
    if Reaches(g, md) {
      var p :| IsPath(g, p) && p[0] == md && p[|p| - 1] == BIGINT;
      ClosedSetStays(g, visiting, p);
    }
  }

  // ---- messages ----------------------------------------------------------

  /** A decoded message: its type, the length of its field 1 if it is a bigint, and its populated fields. */
  datatype Msg = Msg(typ: Name, len: nat, fields: seq<FieldValue>)
  datatype FieldValue = FieldValue(fd: FieldDesc, msgs: seq<Msg>)

  /** The message follows its descriptor. */
  predicate Typed(g: Graph, m: Msg)
    decreases m
  {
    && m.typ in g
    && forall f | f in m.fields ::
         && f.fd in g[m.typ]
         && (HasMessages(f.fd) || f.msgs == [])
         && (f.fd.Single? ==> |f.msgs| == 1)
         && forall x | x in f.msgs :: x.typ == f.fd.typ && Typed(g, x)
  }

  /** No bigint in m, at any depth, is longer than allowed: the walk without pruning. */
  predicate InRange(m: Msg)
    decreases m
  {
    if m.typ == BIGINT then m.len <= BIGINT_BYTES
    else forall f, x | f in m.fields && x in f.msgs :: InRange(x)
  }

  /** Where no bigint can be reached, nothing can be out of range. */
  lemma {:induction false} PruningIsSound(g: Graph, m: Msg)
    requires Typed(g, m) && !Reaches(g, m.typ)
    ensures InRange(m)
    decreases m
  {
    if m.typ == BIGINT {
      assert IsPath(g, [BIGINT]);
    } else {
      forall f, x | f in m.fields && x in f.msgs ensures InRange(x) {
        EdgeOf(g, m, f, x);
        if Reaches(g, x.typ) {
          ReachesBy(g, m.typ, x.typ);
        }
        PruningIsSound(g, x);
      }
    }
  }

  lemma EdgeOf(g: Graph, m: Msg, f: FieldValue, x: Msg)
    requires Typed(g, m) && f in m.fields && x in f.msgs
    ensures HasMessages(f.fd) && x.typ == f.fd.typ && Edge(g, m.typ, x.typ) && Typed(g, x)
  {
    var i :| 0 <= i < |g[m.typ]| && g[m.typ][i] == f.fd;
  }

  /** Nor does it prune too little: where a bigint can be reached, some message of the type is out of range. */
  lemma {:induction false} SomeMessageFails(g: Graph, p: seq<Name>) returns (m: Msg)
    requires Closed(g) && IsPath(g, p) && p[|p| - 1] == BIGINT
    ensures m.typ == p[0] && Typed(g, m) && !InRange(m)
    decreases |p|
  {
    if p[0] == BIGINT {
      m := Msg(BIGINT, BIGINT_BYTES + 1, []);
    } else {
      assert Edge(g, p[0], p[1]);
      forall i | 0 <= i < |p[1..]| - 1 ensures Edge(g, p[1..][i], p[1..][i + 1]) {
        assert Edge(g, p[i + 1], p[i + 2]);
      }
      var inner := SomeMessageFails(g, p[1..]);
      var i :| 0 <= i < |g[p[0]]| && HasMessages(g[p[0]][i]) && g[p[0]][i].typ == p[1];
      var f := FieldValue(g[p[0]][i], [inner]);
      m := Msg(p[0], 0, [f]);
      assert f in m.fields && inner in f.msgs;
    }
  }

  /** A type is worth checking exactly when some message of it can be out of range. */
  lemma ReachableIffFallible(g: Graph, n: Name)
    requires Closed(g) && n in g
    ensures Reaches(g, n) <==> exists m: Msg :: m.typ == n && Typed(g, m) && !InRange(m)
  {
    if Reaches(g, n) {
      var p :| IsPath(g, p) && p[0] == n && p[|p| - 1] == BIGINT;
      var m := SomeMessageFails(g, p);
    } else {
      forall m: Msg | m.typ == n && Typed(g, m) ensures InRange(m) {
        PruningIsSound(g, m);
      }
    }
  }

  // ---- the checker -------------------------------------------------------

  class Checker {
    const g: Graph
    var hasBigint: map<Name, bool>   // shared by every check of the process

    /** Whatever is cached is right. */
    ghost predicate Valid()
      reads this
    {
      Closed(g) && forall n | n in hasBigint :: hasBigint[n] <==> Reaches(g, n)
    }

    constructor (g: Graph)
      requires Closed(g)
      ensures Valid() && this.g == g && hasBigint == map[]
    {
      this.g := g;
      hasBigint := map[];
    }

    method ReachesBigint(md: Name) returns (found: bool)
      requires Valid() && md in g
      modifies this
      ensures Valid() && found == Reaches(g, md)
    {
      if md in hasBigint {
        return hasBigint[md];
      }
      var visiting;
      found, visiting := Walk(g, md, {});
      if !found {
        NothingToFind(g, md, visiting);
      }
      hasBigint := hasBigint[md := found];
    }

    method CheckMessage(m: Msg) returns (ok: bool)
      requires Valid() && Typed(g, m)
      modifies this
      ensures Valid() && ok == InRange(m)
      decreases m
    {
      if m.typ == BIGINT {
        return m.len <= BIGINT_BYTES;
      }
      var i := 0;
      while i < |m.fields|
        invariant 0 <= i <= |m.fields| && Valid()
        invariant forall k | 0 <= k < i :: FieldInRange(m.fields[k])
      {
        var f := m.fields[i];
        assert f in m.fields;
        ok := CheckField(m, f);
        if !ok {
          return;
        }
        i := i + 1;
      }
      return true;
    }

    /** One populated field: skipped when its type cannot hold a bigint. */
    method CheckField(ghost m: Msg, f: FieldValue) returns (ok: bool)
      requires Valid() && Typed(g, m) && f in m.fields
      modifies this
      ensures Valid() && ok == FieldInRange(f)
      decreases m, 0
    {
      if !HasMessages(f.fd) {
        return true;
      }
      var worth := ReachesBigint(f.fd.typ);
      if !worth {
        forall x | x in f.msgs ensures InRange(x) {
          EdgeOf(g, m, f, x);
          PruningIsSound(g, x);
        }
        return true;
      }
      var i := 0;
      while i < |f.msgs|
        invariant 0 <= i <= |f.msgs| && Valid()
        invariant forall k | 0 <= k < i :: InRange(f.msgs[k])
      {
        assert f.msgs[i] in f.msgs;
        ok := CheckMessage(f.msgs[i]);
        if !ok {
          return;
        }
        i := i + 1;
      }
      return true;
    }

    /** The check accepts a message exactly when no bigint in it is out of range. */
    method CheckCustomTypes(m: Msg) returns (ok: bool)
      requires Valid() && Typed(g, m)
      modifies this
      ensures Valid() && ok == InRange(m)
    {
      var worth := ReachesBigint(m.typ);
      if !worth {
        PruningIsSound(g, m);
        return true;
      }
      ok := CheckMessage(m);
    }
  }

  predicate FieldInRange(f: FieldValue) {
    forall x | x in f.msgs :: InRange(x)
  }
}
