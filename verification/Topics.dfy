/**
  AMQP topic patterns: words separated by '.', where '*' stands for exactly one
  word and '#' for zero or more (section 3.1.3.3 of the AMQP 0-9-1 specification).
 */
module Topics {

  type Word = string

  /** strings.Split(s, "."): never empty, and "" is one empty word. */
  function Split(s: string): (words: seq<Word>)
    ensures |words| > 0
    ensures forall i | 0 <= i < |words| :: '.' !in words[i]
    ensures Join(words) == s
  {
    if s == "" then [""]
    else if s[0] == '.' then
      var rest := Split(s[1..]);
      assert ([""] + rest)[1..] == rest;
      [""] + rest
    else
      var rest := Split(s[1..]);
      var words := [[s[0]] + rest[0]] + rest[1..];
      assert words[1..] == rest[1..];
      words
  }

  /** The text a list of words was split from. */
  function Join(words: seq<Word>): string
    requires |words| > 0
  {
    if |words| == 1 then words[0] else words[0] + "." + Join(words[1..])
  }

  /** Splitting is the inverse of joining. */
  lemma {:induction false} SplitOfJoin(words: seq<Word>)
    requires |words| > 0 && forall i | 0 <= i < |words| :: '.' !in words[i]
    ensures Split(Join(words)) == words
    decreases |words|, |words[0]|
  {
    var s := Join(words);
    if words[0] == "" {
      if |words| > 1 {
        assert s[1..] == Join(words[1..]);
        SplitOfJoin(words[1..]);
        assert words == [""] + words[1..];
      }
    } else {
      var shorter := [words[0][1..]] + words[1..];
      assert shorter[1..] == words[1..];
      assert s == [words[0][0]] + Join(shorter);
      assert s[1..] == Join(shorter);
      SplitOfJoin(shorter);
      assert s[0] == words[0][0] && [s[0]] + shorter[0] == words[0];
      assert words == [words[0]] + words[1..];
    }
  }

  /** The broker's matcher (topicMatch). */
  predicate TopicMatch(p: seq<Word>, t: seq<Word>)
    decreases |p| + |t|
  {
    if |p| == 0 then |t| == 0
    else if p[0] == "#" then TopicMatch(p[1..], t) || (|t| > 0 && TopicMatch(p, t[1..]))
    else if |t| == 0 then false
    else if p[0] == "*" || p[0] == t[0] then TopicMatch(p[1..], t[1..])
    else false
  }

  // ---- what the matcher means --------------------------------------------

  /** The words one pattern word may stand for. */
  predicate Covers(w: Word, span: seq<Word>) {
    w == "#" || (|span| == 1 && (w == "*" || w == span[0]))
  }

  function Concat(spans: seq<seq<Word>>): seq<Word> {
    if spans == [] then [] else spans[0] + Concat(spans[1..])
  }

  /** The topic splits into consecutive spans, one per pattern word, each covered by it. */
  ghost predicate Parses(p: seq<Word>, t: seq<Word>, spans: seq<seq<Word>>) {
    |spans| == |p| && Concat(spans) == t && forall i | 0 <= i < |p| :: Covers(p[i], spans[i])
  }

  /** The matcher accepts exactly the topics the pattern parses. */
  lemma MatchMeansParse(p: seq<Word>, t: seq<Word>)
    ensures TopicMatch(p, t) <==> exists spans :: Parses(p, t, spans)
  {
    if TopicMatch(p, t) {
      var spans := FindParse(p, t);
    }
    forall spans | Parses(p, t, spans) ensures TopicMatch(p, t) {
      ParseMatches(p, t, spans);
    }
  }

  lemma {:induction false} FindParse(p: seq<Word>, t: seq<Word>) returns (spans: seq<seq<Word>>)
    requires TopicMatch(p, t)
    ensures Parses(p, t, spans)
    decreases |p| + |t|
  {
    if |p| == 0 {
      spans := [];
    } else if p[0] == "#" && !TopicMatch(p[1..], t) {
      var rest := FindParse(p, t[1..]);
      spans := [[t[0]] + rest[0]] + rest[1..];
      assert Concat(spans) == [t[0]] + (rest[0] + Concat(rest[1..]));
    } else {
      var first := if p[0] == "#" then [] else t[..1];
      var rest := FindParse(p[1..], t[|first|..]);
      spans := [first] + rest;
      assert spans[1..] == rest;
      assert t == first + t[|first|..];
    }
  }

  lemma {:induction false} ParseMatches(p: seq<Word>, t: seq<Word>, spans: seq<seq<Word>>)
    requires Parses(p, t, spans)
    ensures TopicMatch(p, t)
    decreases |p|
  {
    if |p| > 0 {
      var n := |spans[0]|;
      assert t[n..] == Concat(spans[1..]);
      assert Parses(p[1..], t[n..], spans[1..]);
      ParseMatches(p[1..], t[n..], spans[1..]);
      if p[0] == "#" {
        HashAbsorbs(p, t, n);
      } else {
        assert Covers(p[0], spans[0]);
      }
    }
  }

  /** '#' absorbs any number of leading words, including none. */
  lemma {:induction false} HashAbsorbs(p: seq<Word>, t: seq<Word>, n: nat)
    requires |p| > 0 && p[0] == "#" && n <= |t| && TopicMatch(p[1..], t[n..])
    ensures TopicMatch(p, t)
    decreases n
  {
    if n > 0 {
      assert t[1..][n - 1..] == t[n..];
      HashAbsorbs(p, t[1..], n - 1);
    } else {
      assert t[0..] == t;
    }
  }

  /** A leading '#' matches iff the rest matches some suffix. */
  lemma {:induction false} HashMatchIff(p: seq<Word>, t: seq<Word>)
    requires |p| > 0 && p[0] == "#"
    ensures TopicMatch(p, t) <==> exists n: nat :: n <= |t| && TopicMatch(p[1..], t[n..])
    decreases |t|
  {
    if TopicMatch(p[1..], t) {
      assert t[0..] == t;
    } else if |t| > 0 {
      HashMatchIff(p, t[1..]);
      if TopicMatch(p, t[1..]) {
        var n: nat :| n <= |t| - 1 && TopicMatch(p[1..], t[1..][n..]);
        assert t[1..][n..] == t[n + 1..];
      }
    }
    forall n: nat | n <= |t| && TopicMatch(p[1..], t[n..]) ensures TopicMatch(p, t) {
      HashAbsorbs(p, t, n);
    }
  }
}
