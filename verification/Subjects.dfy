/** Subjects, patterns and the segment matcher of the event bus. */
module Subjects {
  type Subject = string
  type Pattern = string
  type Segments = seq<string>

  const SEP: char := '.'
  const ANY_ONE: string := "*"
  const ANY_TAIL: string := ">"

  /** The segments between separators; always at least one. */
  function Split(s: string): (r: Segments)
    ensures |r| > 0
  {
    if s == "" then [""]
    else
      var rest := Split(s[1..]);
      if s[0] == SEP then [""] + rest else [[s[0]] + rest[0]] + rest[1..]
  }

  function Join(segs: Segments): string
    requires |segs| > 0
  {
    if |segs| == 1 then segs[0] else segs[0] + [SEP] + Join(segs[1..])
  }

  lemma {:induction false} JoinSplit(s: string)
    ensures Join(Split(s)) == s
  {
    if s != "" {
      var rest := Split(s[1..]);
      JoinSplit(s[1..]);
      assert s == [s[0]] + s[1..];
      if s[0] == SEP {
        assert ([""] + rest)[1..] == rest;
      } else {
        assert ([[s[0]] + rest[0]] + rest[1..])[1..] == rest[1..];
      }
    }
  }

  /** The matcher's loop from segment i on. */
  function MatchFrom(p: Segments, s: Segments, i: nat): bool
    requires i <= |p|
    decreases |p| - i
  {
    if i == |p| then |p| == |s|
    else if p[i] == ANY_TAIL && i == |p| - 1 then |s| >= i + 1
    else if i >= |s| then false
    else if p[i] == ANY_ONE then MatchFrom(p, s, i + 1)
    else if p[i] != s[i] then false
    else MatchFrom(p, s, i + 1)
  }

  function MatchSegs(p: Segments, s: Segments): bool {
    MatchFrom(p, s, 0)
  }

  function Matches(p: Pattern, s: Subject): bool {
    p != "" && s != "" && MatchSegs(Split(p), Split(s))
  }

  /** A pattern segment accepts a subject segment. */
  predicate Accepts(p: string, s: string) {
    p == ANY_ONE || p == s
  }

  /** What matching means: segment by segment, a final `>` standing for one or more. */
  ghost predicate Fits(p: Segments, s: Segments) {
    if |p| > 0 && p[|p| - 1] == ANY_TAIL
    then |s| >= |p| && forall i :: 0 <= i < |p| - 1 ==> Accepts(p[i], s[i])
    else |s| == |p| && forall i :: 0 <= i < |p| ==> Accepts(p[i], s[i])
  }

  lemma {:induction false} MatchFromIff(p: Segments, s: Segments, i: nat)
    requires i <= |p| && i <= |s| && (forall k :: 0 <= k < i ==> Accepts(p[k], s[k]))
    requires i == |p| > 0 ==> p[i - 1] != ANY_TAIL
    ensures MatchFrom(p, s, i) <==> Fits(p, s)
    decreases |p| - i
  {
    if i < |p| && !(p[i] == ANY_TAIL && i == |p| - 1) && i < |s| && Accepts(p[i], s[i]) {
      MatchFromIff(p, s, i + 1);
    }
  }

  /** The matcher decides exactly the segment-wise meaning, malformed patterns included. */
  lemma MatchSegsIff(p: Segments, s: Segments)
    ensures MatchSegs(p, s) <==> Fits(p, s)
  {
    MatchFromIff(p, s, 0);
  }

  /** No wildcard segment: what a published subject looks like. */
  ghost predicate Literal(segs: Segments) {
    forall x :: x in segs ==> x != ANY_ONE && x != ANY_TAIL
  }

  /** Subscribing to a literal subject selects that subject alone. */
  lemma LiteralMatchesItself(s: Subject, other: Subject)
    requires s != "" && Literal(Split(s))
    ensures Matches(s, other) <==> s == other
  {
    var p := Split(s);
    var q := Split(other);
    MatchSegsIff(p, q);
    assert forall i :: 0 <= i < |p| ==> p[i] in p;
    JoinSplit(s);
    JoinSplit(other);
    if Matches(s, other) {
      assert p == q;
    }
  }

  /** Only a pattern that is a single wildcard segment matches the one empty segment of the empty subject. */
  lemma EmptySegmentMatchIff(p: Pattern)
    requires p != ""
    ensures MatchSegs(Split(p), Split("")) <==> p == ANY_ONE || p == ANY_TAIL
  {
    MatchSegsIff(Split(p), [""]);
    JoinSplit(p);
    SplitOne('*');
    SplitOne('>');
    assert ANY_ONE == ['*'] && ANY_TAIL == ['>'];
    if Fits(Split(p), [""]) {
      assert |Split(p)| == 1 && Join(Split(p)) == Split(p)[0];
    }
  }

  /**
   The bus matches segments directly, without the test for empty inputs. The two agree
   on every pattern and subject but one pair: the empty subject, which `Matches` refuses,
   reaches the patterns that are one wildcard.
   */
  lemma BusMatchAgreesIff(p: Pattern, s: Subject)
    requires p != ""
    ensures (MatchSegs(Split(p), Split(s)) <==> Matches(p, s)) <==> !(s == "" && (p == ANY_ONE || p == ANY_TAIL))
  {
    EmptySegmentMatchIff(p);
  }

  lemma SplitOne(c: char)
    requires c != SEP
    ensures Split([c]) == [[c]]
  {
    assert [c][1..] == "" && Split("") == [""];
    assert [[c][0]] + "" == [c];
  }
}
