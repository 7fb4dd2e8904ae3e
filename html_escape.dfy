/**
 * `escapeHtml`: five global single-character replacements applied in turn,
 * `&` first, then `<`, `>`, `"` and `'`. The lemmas show that the chain acts
 * unit by unit, that its output carries no markup character, and that it can
 * be undone.
 */
module HtmlEscape {
  import opened JsText

  const AMP: CodeUnit := '&' as int
  const LT: CodeUnit := '<' as int
  const GT: CodeUnit := '>' as int
  const QUOT: CodeUnit := '"' as int
  const APOS: CodeUnit := '\'' as int

  const AMP_ENTITY: JsString := [AMP, 'a' as int, 'm' as int, 'p' as int, ';' as int]
  const LT_ENTITY: JsString := [AMP, 'l' as int, 't' as int, ';' as int]
  const GT_ENTITY: JsString := [AMP, 'g' as int, 't' as int, ';' as int]
  const QUOT_ENTITY: JsString := [AMP, 'q' as int, 'u' as int, 'o' as int, 't' as int, ';' as int]
  const APOS_ENTITY: JsString := [AMP, '#' as int, '3' as int, '9' as int, ';' as int]

  /** The five units `escapeHtml` rewrites. */
  predicate IsSpecial(u: CodeUnit)
  {
    u == AMP || u == LT || u == GT || u == QUOT || u == APOS
  }

  /** The units that may not appear in escaped text at all. */
  predicate IsMarkup(u: CodeUnit)
  {
    u == LT || u == GT || u == QUOT || u == APOS
  }

  /** `s.replace(/c/g, rep)` for a one-unit pattern c. */
  function ReplaceAll(s: JsString, c: CodeUnit, rep: JsString): (r: JsString)
    ensures c !in s ==> r == s
  {
    if s == [] then []
    else (if s[0] == c then rep else [s[0]]) + ReplaceAll(s[1..], c, rep)
  }

  /** `escapeHtml(text)` as written: the chain of five replacements. */
  function EscapeHtml(s: JsString): JsString
  {
    var s1 := ReplaceAll(s, AMP, AMP_ENTITY);
    var s2 := ReplaceAll(s1, LT, LT_ENTITY);
    var s3 := ReplaceAll(s2, GT, GT_ENTITY);
    var s4 := ReplaceAll(s3, QUOT, QUOT_ENTITY);
    ReplaceAll(s4, APOS, APOS_ENTITY)
  }

  /** The replacement of one unit. */
  function EscapeUnit(u: CodeUnit): (r: JsString)
    ensures r != []
    ensures IsSpecial(u) ==> r[0] == AMP
    ensures !IsSpecial(u) ==> r == [u]
  {
    if u == AMP then AMP_ENTITY
    else if u == LT then LT_ENTITY
    else if u == GT then GT_ENTITY
    else if u == QUOT then QUOT_ENTITY
    else if u == APOS then APOS_ENTITY
    else [u]
  }

  /** The unit-by-unit reading of the escape: each unit replaced on its own. */
  function EscapeEach(s: JsString): JsString
  {
    if s == [] then [] else EscapeUnit(s[0]) + EscapeEach(s[1..])
  }

  /** A replacement distributes over concatenation. */
  lemma {:induction false} ReplaceAllAppend(a: JsString, b: JsString, c: CodeUnit, rep: JsString)
    ensures ReplaceAll(a + b, c, rep) == ReplaceAll(a, c, rep) + ReplaceAll(b, c, rep)
  {
    if a != [] {
      assert (a + b)[1..] == a[1..] + b;
      ReplaceAllAppend(a[1..], b, c, rep);
    } else {
      assert a + b == b;
    }
  }

  /** The whole chain distributes over concatenation. */
  lemma EscapeHtmlAppend(a: JsString, b: JsString)
    ensures EscapeHtml(a + b) == EscapeHtml(a) + EscapeHtml(b)
  {
    ReplaceAllAppend(a, b, AMP, AMP_ENTITY);
    var a1, b1 := ReplaceAll(a, AMP, AMP_ENTITY), ReplaceAll(b, AMP, AMP_ENTITY);
    ReplaceAllAppend(a1, b1, LT, LT_ENTITY);
    var a2, b2 := ReplaceAll(a1, LT, LT_ENTITY), ReplaceAll(b1, LT, LT_ENTITY);
    ReplaceAllAppend(a2, b2, GT, GT_ENTITY);
    var a3, b3 := ReplaceAll(a2, GT, GT_ENTITY), ReplaceAll(b2, GT, GT_ENTITY);
    ReplaceAllAppend(a3, b3, QUOT, QUOT_ENTITY);
    var a4, b4 := ReplaceAll(a3, QUOT, QUOT_ENTITY), ReplaceAll(b3, QUOT, QUOT_ENTITY);
    ReplaceAllAppend(a4, b4, APOS, APOS_ENTITY);
  }

  /** On a single unit the chain gives that unit's replacement: no later pass
    * rewrites an entity an earlier pass produced. */
  lemma EscapeHtmlUnit(u: CodeUnit)
    ensures EscapeHtml([u]) == EscapeUnit(u)
  {
    ReplaceAllUnit(u, AMP, AMP_ENTITY);
    if u == AMP {
      assert LT !in AMP_ENTITY && GT !in AMP_ENTITY && QUOT !in AMP_ENTITY && APOS !in AMP_ENTITY;
    } else {
      ReplaceAllUnit(u, LT, LT_ENTITY);
      if u == LT {
        assert GT !in LT_ENTITY && QUOT !in LT_ENTITY && APOS !in LT_ENTITY;
      } else {
        ReplaceAllUnit(u, GT, GT_ENTITY);
        if u == GT {
          assert QUOT !in GT_ENTITY && APOS !in GT_ENTITY;
        } else {
          ReplaceAllUnit(u, QUOT, QUOT_ENTITY);
          if u == QUOT {
            assert APOS !in QUOT_ENTITY;
          } else {
            ReplaceAllUnit(u, APOS, APOS_ENTITY);
          }
        }
      }
    }
  }

  /** A replacement on a one-unit string. */
  lemma ReplaceAllUnit(u: CodeUnit, c: CodeUnit, rep: JsString)
    ensures ReplaceAll([u], c, rep) == if u == c then rep else [u]
  {
    assert [u][1..] == [];
  }

  /** The chain of five passes is the unit-by-unit escape. */
  lemma {:induction false} EscapeHtmlIsPerUnit(s: JsString)
    ensures EscapeHtml(s) == EscapeEach(s)
  {
    if s != [] {
      assert s == [s[0]] + s[1..];
      EscapeHtmlAppend([s[0]], s[1..]);
      EscapeHtmlUnit(s[0]);
      EscapeHtmlIsPerUnit(s[1..]);
    }
  }

  // ---------------------------------------------------------------------------
  // Safety of the output
  // ---------------------------------------------------------------------------

  predicate StartsWith(s: JsString, p: JsString)
  {
    |p| <= |s| && s[..|p|] == p
  }

  /** Position i of s begins one of the five entities. */
  predicate EntityAt(s: JsString, i: nat)
    requires i <= |s|
  {
    var t := s[i..];
    StartsWith(t, AMP_ENTITY) || StartsWith(t, LT_ENTITY) || StartsWith(t, GT_ENTITY)
    || StartsWith(t, QUOT_ENTITY) || StartsWith(t, APOS_ENTITY)
  }

  /** Escaped text holds no `<`, `>`, `"` or `'`, and each `&` in it opens an entity. */
  predicate IsEscaped(s: JsString)
  {
    && (forall i :: 0 <= i < |s| ==> !IsMarkup(s[i]))
    && (forall i :: 0 <= i < |s| && s[i] == AMP ==> EntityAt(s, i))
  }

  lemma EscapeUnitIsEscaped(u: CodeUnit)
    ensures IsEscaped(EscapeUnit(u))
    ensures forall i :: 0 < i < |EscapeUnit(u)| ==> EscapeUnit(u)[i] != AMP
  {
    var e := EscapeUnit(u);
    if IsSpecial(u) {
      assert e[0..] == e;
      assert EntityAt(e, 0);
    }
  }

  /** Putting an escaped piece in front of escaped text keeps it escaped. */
  lemma PrependEscaped(e: JsString, t: JsString)
    requires IsEscaped(e) && IsEscaped(t)
    requires e != [] && forall i :: 0 < i < |e| ==> e[i] != AMP
    requires e[0] == AMP ==> EntityAt(e, 0)
    ensures IsEscaped(e + t)
  {
    var r := e + t;
    forall i | 0 <= i < |r| && r[i] == AMP ensures EntityAt(r, i) {
      if i < |e| {
        assert i == 0;
        assert e[0..] == e && r[0..] == e + t;
      } else {
        assert r[i] == t[i - |e|];
        assert r[i..] == t[i - |e|..];
      }
    }
  }

  /** `escapeHtml` output is markup-safe. */
  lemma {:induction false} EscapeHtmlIsEscaped(s: JsString)
    ensures IsEscaped(EscapeHtml(s))
  {
    EscapeHtmlIsPerUnit(s);
    EscapeEachIsEscaped(s);
  }

  lemma {:induction false} EscapeEachIsEscaped(s: JsString)
    ensures IsEscaped(EscapeEach(s))
  {
    if s != [] {
      var e := EscapeUnit(s[0]);
      EscapeUnitIsEscaped(s[0]);
      EscapeEachIsEscaped(s[1..]);
      PrependEscaped(e, EscapeEach(s[1..]));
    }
  }

  /** Text without any of the five units passes through unchanged. */
  lemma {:induction false} EscapeHtmlPlainText(s: JsString)
    requires forall i :: 0 <= i < |s| ==> !IsSpecial(s[i])
    ensures EscapeHtml(s) == s
  {
    EscapeHtmlIsPerUnit(s);
    EscapeEachPlain(s);
  }

  lemma {:induction false} EscapeEachPlain(s: JsString)
    requires forall i :: 0 <= i < |s| ==> !IsSpecial(s[i])
    ensures EscapeEach(s) == s
  {
    if s != [] {
      EscapeEachPlain(s[1..]);
    }
  }

  // ---------------------------------------------------------------------------
  // Undoing the escape
  // ---------------------------------------------------------------------------

  /** Decoding of the five entities, everything else kept as is. */
  function Unescape(s: JsString): JsString
    decreases |s|
  {
    if s == [] then []
    else if StartsWith(s, AMP_ENTITY) then [AMP] + Unescape(s[|AMP_ENTITY|..])
    else if StartsWith(s, LT_ENTITY) then [LT] + Unescape(s[|LT_ENTITY|..])
    else if StartsWith(s, GT_ENTITY) then [GT] + Unescape(s[|GT_ENTITY|..])
    else if StartsWith(s, QUOT_ENTITY) then [QUOT] + Unescape(s[|QUOT_ENTITY|..])
    else if StartsWith(s, APOS_ENTITY) then [APOS] + Unescape(s[|APOS_ENTITY|..])
    else [s[0]] + Unescape(s[1..])
  }

  /** Decoding the replacement of one unit in front of t gives that unit back. */
  lemma UnescapeUnit(u: CodeUnit, t: JsString)
    ensures Unescape(EscapeUnit(u) + t) == [u] + Unescape(t)
  {
    var e := EscapeUnit(u);
    var s := e + t;
    assert s[..|e|] == e && s[|e|..] == t;
    if !IsSpecial(u) {
      assert s[0] == u && s[1..] == t;
      assert !StartsWith(s, AMP_ENTITY) && !StartsWith(s, LT_ENTITY) && !StartsWith(s, GT_ENTITY);
      assert !StartsWith(s, QUOT_ENTITY) && !StartsWith(s, APOS_ENTITY);
    } else {
      // The entities already differ in their second unit.
      assert s[1] == e[1];
      if u != AMP {
        assert !StartsWith(s, AMP_ENTITY) by { assert AMP_ENTITY[1] != e[1]; }
      }
      if u != AMP && u != LT {
        assert !StartsWith(s, LT_ENTITY) by { assert LT_ENTITY[1] != e[1]; }
      }
      if u != AMP && u != LT && u != GT {
        assert !StartsWith(s, GT_ENTITY) by { assert GT_ENTITY[1] != e[1]; }
      }
      if u == APOS {
        assert !StartsWith(s, QUOT_ENTITY) by { assert QUOT_ENTITY[1] != e[1]; }
      }
    }
  }

  /** Decoding undoes `escapeHtml`. */
  lemma {:induction false} UnescapeEscapeHtml(s: JsString)
    ensures Unescape(EscapeHtml(s)) == s
  {
    EscapeHtmlIsPerUnit(s);
    UnescapeEscapeEach(s);
  }

  lemma {:induction false} UnescapeEscapeEach(s: JsString)
    ensures Unescape(EscapeEach(s)) == s
  {
    if s != [] {
      UnescapeUnit(s[0], EscapeEach(s[1..]));
      UnescapeEscapeEach(s[1..]);
    }
  }
}
