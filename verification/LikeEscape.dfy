// Search terms made safe for ILIKE (internal/metadata/repository.go), against LIKE as
// section 8.5 of ISO/IEC 9075:1992 defines it, with PostgreSQL's default escape character.
module LikeEscape {
  const ESCAPE := '\\'
  const ANY_STRING := '%'
  const ANY_CHARACTER := '_'

  predicate Special(c: char)
  {
    c == ESCAPE || c == ANY_STRING || c == ANY_CHARACTER
  }

  /** likePatternEscaper: the three rules, applied in one pass. */
  function Escape(s: string): string
  {
    if s == "" then "" else (if Special(s[0]) then [ESCAPE, s[0]] else [s[0]]) + Escape(s[1..])
  }

  // ---- The matcher ----

  /** No escape character stands at the end: PostgreSQL reports such a pattern as an error. */
  predicate WellFormed(p: string)
  {
    p == "" || if p[0] == ESCAPE then |p| >= 2 && WellFormed(p[2..]) else WellFormed(p[1..])
  }

  predicate Like(t: string, p: string)
    requires WellFormed(p)
    decreases |p|, |t|
  {
    if p == "" then t == ""
    else if p[0] == ANY_STRING then Like(t, p[1..]) || (t != "" && Like(t[1..], p))
    else if t == "" then false
    else if p[0] == ANY_CHARACTER then Like(t[1..], p[1..])
    else if p[0] == ESCAPE then t[0] == p[1] && Like(t[1..], p[2..])
    else t[0] == p[0] && Like(t[1..], p[1..])
  }

  ghost predicate Contains(t: string, s: string)
  {
    exists i :: 0 <= i <= |t| && s <= t[i..]
  }

  lemma {:induction false} EscapeKeepsWellFormed(s: string, p: string)
    requires WellFormed(p)
    ensures WellFormed(Escape(s) + p)
  {
    if s == "" {
      assert Escape(s) + p == p;
    } else {
      EscapeKeepsWellFormed(s[1..], p);
      Unfold(s, p);
    }
  }

  /** The pattern of an escaped text, one character at a time. */
  lemma Unfold(s: string, p: string)
    requires s != ""
    ensures var q, rest := Escape(s) + p, Escape(s[1..]) + p;
      if Special(s[0]) then |q| >= 2 && q[0] == ESCAPE && q[1] == s[0] && q[2..] == rest
      else |q| >= 1 && q[0] == s[0] && q[1..] == rest
  {
    var head := if Special(s[0]) then [ESCAPE, s[0]] else [s[0]];
    Joined(head, Escape(s[1..]), p);
  }

  lemma Joined(head: string, s: string, p: string)
    ensures var q := (head + s) + p; |q| >= |head| && q[..|head|] == head && q[|head|..] == s + p
    ensures forall i :: 0 <= i < |head| ==> ((head + s) + p)[i] == head[i]
  {
  }

  /** An escaped text, at the head of a pattern, matches itself and nothing else. */
  lemma {:induction false} EscapedMatchesItself(t: string, s: string, p: string)
    requires WellFormed(p)
    ensures WellFormed(Escape(s) + p)
    ensures Like(t, Escape(s) + p) <==> s <= t && Like(t[|s|..], p)
    decreases s
  {
    EscapeKeepsWellFormed(s, p);
    if s == "" {
      assert Escape(s) + p == p && t[0..] == t;
    } else {
      EscapeKeepsWellFormed(s[1..], p);
      Unfold(s, p);
      LikeOne(t, s[0], Escape(s) + p, Escape(s[1..]) + p);
      hide Like, Escape, WellFormed;
      if t != "" {
        EscapedMatchesItself(t[1..], s[1..], p);
        PrefixStep(s, t);
        assert |s| <= |t| ==> t[1..][|s| - 1..] == t[|s|..];
      }
    }
  }

  /** A pattern that begins with one literal character, escaped if it is special. */
  lemma LikeOne(t: string, c: char, q: string, rest: string)
    requires WellFormed(q) && WellFormed(rest)
    requires if Special(c) then |q| >= 2 && q[0] == ESCAPE && q[1] == c && q[2..] == rest
             else |q| >= 1 && q[0] == c && q[1..] == rest
    ensures Like(t, q) <==> t != "" && t[0] == c && Like(t[1..], rest)
  {
  }

  lemma PrefixStep(s: string, t: string)
    requires s != "" && t != ""
    ensures s <= t <==> s[0] == t[0] && s[1..] <= t[1..]
  {
    assert s == [s[0]] + s[1..] && t == [t[0]] + t[1..];
  }

  lemma {:induction false} PercentSkips(t: string, p: string)
    requires WellFormed(p)
    ensures WellFormed([ANY_STRING] + p)
    ensures Like(t, [ANY_STRING] + p) <==> exists i :: 0 <= i <= |t| && Like(t[i..], p)
  {
    var q := [ANY_STRING] + p;
    assert q[1..] == p;
    if t == "" {
      assert t[0..] == t;
    } else {
      PercentSkips(t[1..], p);
      assert t[0..] == t;
      assert forall i :: 1 <= i <= |t| ==> t[1..][i - 1..] == t[i..];
    }
  }

  lemma PercentMatchesAll(t: string)
    ensures WellFormed([ANY_STRING]) && Like(t, [ANY_STRING])
  {
    PercentSkips(t, "");
    assert [ANY_STRING] + "" == [ANY_STRING];
    assert Like(t[|t|..], "");
  }

  function Pattern(term: string): string
  {
    [ANY_STRING] + (Escape(term) + [ANY_STRING])
  }

  /** A pattern match against the escaped term is a plain substring search, whatever the term holds. */
  lemma SearchIsSubstring(t: string, term: string)
    ensures WellFormed(Pattern(term))
    ensures Like(t, Pattern(term)) <==> Contains(t, term)
  {
    PercentMatchesAll("");
    EscapeKeepsWellFormed(term, [ANY_STRING]);
    PercentSkips(t, Escape(term) + [ANY_STRING]);
    forall i | 0 <= i <= |t| ensures Like(t[i..], Escape(term) + [ANY_STRING]) <==> term <= t[i..] {
      EscapedMatchesItself(t[i..], term, [ANY_STRING]);
      if term <= t[i..] {
        PercentMatchesAll(t[i..][|term|..]);
      }
    }
  }

  /** What a term left as it is would find: "%" every text, "_" every text but the empty one. */
  lemma BareWildcards(t: string)
    ensures WellFormed("%%%") && Like(t, "%%%")
    ensures WellFormed("%_%") && (Like(t, "%_%") <==> t != "")
  {
    PercentMatchesAll(t);
    PercentSkips(t, "%");
    PercentSkips(t, "%%");
    assert t[0..] == t;
    assert [ANY_STRING] + "%" == "%%" && [ANY_STRING] + "%%" == "%%%" && [ANY_STRING] + "_%" == "%_%";
    assert "_%"[1..] == "%" && "%"[1..] == "";
    PercentSkips(t, "_%");
    forall u: string ensures Like(u, "_%") <==> u != "" {
      if u != "" {
        PercentMatchesAll(u[1..]);
      }
    }
    assert t != "" ==> Like(t[0..], "_%");
  }

  // ---- Ignoring case ----

  function Fold(fold: char -> char, s: string): (r: string)
    ensures |r| == |s| && forall i :: 0 <= i < |s| ==> r[i] == fold(s[i])
  {
    seq(|s|, i requires 0 <= i < |s| => fold(s[i]))
  }

  /** Lower-casing keeps the three characters apart from all others. */
  ghost predicate KeepsSpecials(fold: char -> char)
  {
    forall c :: if Special(c) then fold(c) == c else !Special(fold(c))
  }

  /** ILIKE: both sides are lower-cased, the pattern with its wildcards and escapes. */
  predicate ILike(fold: char -> char, t: string, p: string)
    requires WellFormed(Fold(fold, p))
  {
    Like(Fold(fold, t), Fold(fold, p))
  }

  lemma FoldConcat(fold: char -> char, s: string, t: string)
    ensures Fold(fold, s + t) == Fold(fold, s) + Fold(fold, t)
  {
  }

  lemma {:induction false} FoldCommutes(fold: char -> char, s: string)
    requires KeepsSpecials(fold)
    ensures Fold(fold, Escape(s)) == Escape(Fold(fold, s))
  {
    if s != "" {
      FoldCommutes(fold, s[1..]);
      var head := if Special(s[0]) then [ESCAPE, s[0]] else [s[0]];
      FoldConcat(fold, head, Escape(s[1..]));
      assert Special(ESCAPE);
      assert Fold(fold, s)[1..] == Fold(fold, s[1..]);
      assert Fold(fold, head) == if Special(s[0]) then [ESCAPE, fold(s[0])] else [fold(s[0])];
    }
  }

  /** What SearchFiles asks of a name, a summary or the tags: does the text contain the term, case aside? */
  lemma SearchIgnoresCase(fold: char -> char, t: string, term: string)
    requires KeepsSpecials(fold)
    ensures WellFormed(Fold(fold, Pattern(term)))
    ensures ILike(fold, t, Pattern(term)) <==> Contains(Fold(fold, t), Fold(fold, term))
  {
    FoldCommutes(fold, term);
    assert Special(ANY_STRING);
    assert Fold(fold, [ANY_STRING]) == [ANY_STRING];
    FoldConcat(fold, Escape(term), [ANY_STRING]);
    FoldConcat(fold, [ANY_STRING], Escape(term) + [ANY_STRING]);
    assert Fold(fold, Pattern(term)) == Pattern(Fold(fold, term));
    SearchIsSubstring(Fold(fold, t), Fold(fold, term));
  }

  /** The search a term stands for. */
  ghost predicate Finds(t: string, term: string)
  {
    WellFormed(Pattern(term)) && Like(t, Pattern(term))
  }

  /** Two terms find the same texts only if they are the same: nothing of a term is lost on the way. */
  lemma SearchTellsTermsApart(s: string, u: string)
    requires forall t :: Finds(t, s) <==> Finds(t, u)
    ensures s == u
  {
    SearchIsSubstring(s, s);
    SearchIsSubstring(s, u);
    SearchIsSubstring(u, s);
    SearchIsSubstring(u, u);
    assert s[0..] == s && u[0..] == u;
    assert Contains(s, s) && Contains(u, u);
    assert Finds(s, s) && Finds(s, u) && Finds(u, u) && Finds(u, s);
    assert |s| == |u|;
  }

  // ---- The order of the rules ----

  /** One rule on its own, applied everywhere. */
  function Mark(s: string, c: char): string
  {
    if s == "" then "" else (if s[0] == c then [ESCAPE, c] else [s[0]]) + Mark(s[1..], c)
  }

  lemma Associative(s: string, t: string, u: string)
    ensures (s + t) + u == s + (t + u)
  {
  }

  lemma {:induction false} MarkConcat(s: string, t: string, c: char)
    ensures Mark(s + t, c) == Mark(s, c) + Mark(t, c)
  {
    if s == "" {
      assert s + t == t;
    } else {
      MarkConcat(s[1..], t, c);
      assert (s + t)[1..] == s[1..] + t;
      var head := if s[0] == c then [ESCAPE, c] else [s[0]];
      Associative(head, Mark(s[1..], c), Mark(t, c));
    }
  }

  /** The single pass does what three passes would, the escape character first. */
  lemma {:induction false} EscapeInPasses(s: string)
    ensures Escape(s) == Mark(Mark(Mark(s, ESCAPE), ANY_STRING), ANY_CHARACTER)
  {
    if s != "" {
      EscapeInPasses(s[1..]);
      var head := if s[0] == ESCAPE then [ESCAPE, ESCAPE] else [s[0]];
      var head' := Mark(head, ANY_STRING);
      MarkConcat(head, Mark(s[1..], ESCAPE), ANY_STRING);
      MarkConcat(head', Mark(Mark(s[1..], ESCAPE), ANY_STRING), ANY_CHARACTER);
      assert head[1..] == if s[0] == ESCAPE then [ESCAPE] else "";
      assert [ESCAPE][1..] == "";
      assert head' ==
        if s[0] == ESCAPE then [ESCAPE, ESCAPE] else if s[0] == ANY_STRING then [ESCAPE, ANY_STRING] else [s[0]];
      assert head'[1..] == if s[0] == ESCAPE then [ESCAPE] else if s[0] == ANY_STRING then [ANY_STRING] else "";
      assert [ANY_STRING][1..] == "";
      assert Mark(head', ANY_CHARACTER) == if Special(s[0]) then [ESCAPE, s[0]] else [s[0]];
    }
  }

  function Occurrences(s: string, c: char): nat
  {
    if s == "" then 0 else (if s[0] == c then 1 else 0) + Occurrences(s[1..], c)
  }

  /** A rule adds one escape character for each occurrence, and no character of any other kind. */
  lemma {:induction false} MarkAdds(s: string, c: char, d: char)
    requires Special(c)
    ensures |Mark(s, c)| == |s| + Occurrences(s, c)
    ensures Occurrences(Mark(s, c), d) == Occurrences(s, d) + if d == ESCAPE then Occurrences(s, c) else 0
  {
    if s != "" {
      MarkAdds(s[1..], c, d);
      var head, rest := if s[0] == c then [ESCAPE, c] else [s[0]], Mark(s[1..], c);
      OccurrencesConcat(head, rest, d);
      assert head[1..] == if s[0] == c then [c] else "";
      assert [c][1..] == "";
    }
  }

  lemma {:induction false} OccurrencesConcat(s: string, t: string, c: char)
    ensures Occurrences(s + t, c) == Occurrences(s, c) + Occurrences(t, c)
  {
    if s == "" {
      assert s + t == t;
    } else {
      OccurrencesConcat(s[1..], t, c);
      assert (s + t)[1..] == s[1..] + t;
    }
  }

  lemma {:induction false} MarkAbsent(s: string, c: char)
    requires Occurrences(s, c) == 0
    ensures Mark(s, c) == s
  {
    if s != "" {
      MarkAbsent(s[1..], c);
      assert s == [s[0]] + s[1..];
    }
  }

  /** With the escape character last, the passes escape their own escapes, for every term with a wildcard. */
  lemma WrongOrder(s: string)
    ensures Mark(Mark(Mark(s, ANY_STRING), ANY_CHARACTER), ESCAPE) == Escape(s) <==>
      Occurrences(s, ANY_STRING) == 0 && Occurrences(s, ANY_CHARACTER) == 0
  {
    EscapeInPasses(s);
    if Occurrences(s, ANY_STRING) == 0 && Occurrences(s, ANY_CHARACTER) == 0 {
      MarkAbsent(s, ANY_STRING);
      MarkAbsent(s, ANY_CHARACTER);
      MarkAdds(s, ESCAPE, ANY_STRING);
      MarkAdds(s, ESCAPE, ANY_CHARACTER);
      MarkAbsent(Mark(s, ESCAPE), ANY_STRING);
      MarkAbsent(Mark(s, ESCAPE), ANY_CHARACTER);
    } else {
      RightLength(s);
      WrongLength(s);
    }
  }

  lemma RightLength(s: string)
    ensures |Escape(s)| == |s| + Occurrences(s, ESCAPE) + Occurrences(s, ANY_STRING) + Occurrences(s, ANY_CHARACTER)
  {
    EscapeInPasses(s);
    MarkAdds(s, ESCAPE, ANY_STRING);
    MarkAdds(s, ESCAPE, ANY_CHARACTER);
    MarkAdds(Mark(s, ESCAPE), ANY_STRING, ANY_CHARACTER);
    MarkAdds(Mark(Mark(s, ESCAPE), ANY_STRING), ANY_CHARACTER, ESCAPE);
  }

  lemma WrongLength(s: string)
    ensures |Mark(Mark(Mark(s, ANY_STRING), ANY_CHARACTER), ESCAPE)|
      == |s| + Occurrences(s, ESCAPE) + 2 * (Occurrences(s, ANY_STRING) + Occurrences(s, ANY_CHARACTER))
  {
    MarkAdds(s, ANY_STRING, ANY_CHARACTER);
    MarkAdds(s, ANY_STRING, ESCAPE);
    MarkAdds(Mark(s, ANY_STRING), ANY_CHARACTER, ESCAPE);
    MarkAdds(Mark(Mark(s, ANY_STRING), ANY_CHARACTER), ESCAPE, ESCAPE);
  }
}
