/**
 * Template-variable expansion inside filter clauses and group-by lists
 * (`interpolateFilters`, `interpolateGroupBys`).
 */
module Interpolation {
  import opened Wrappers
  import opened Strings
  import opened Sequences
  import opened Types

  // ---------------------------------------------------------------- filters

  /** A chunk destructured as `[key, operator, value, condition = 'AND']`. */
  datatype Clause = Clause(key: string, operator: Option<string>, value: Option<string>, condition: string)

  /** A clause survives when its value is truthy: a clause the user has not finished is dropped. */
  predicate Complete(c: Clause) {
    Truthy(c.value)
  }

  /** A value can only be present when the operator before it is. */
  predicate Positional(c: Clause) {
    c.value.Some? ==> c.operator.Some?
  }

  function ClauseOf(chunk: seq<string>): (c: Clause)
    requires 0 < |chunk| <= 4
    ensures Positional(c)
    ensures c.value.Some? <==> |chunk| >= 3
  {
    Clause(chunk[0], At(chunk, 1), At(chunk, 2), if |chunk| == 4 then chunk[3] else "AND")
  }

  /** The `.map` from chunks to clause objects. */
  function ClausesOf(chunks: seq<seq<string>>): (cs: seq<Clause>)
    requires forall i :: 0 <= i < |chunks| ==> 0 < |chunks[i]| <= 4
    ensures |cs| == |chunks|
    ensures forall i :: 0 <= i < |cs| ==> Positional(cs[i])
    decreases |chunks|
  {
    if chunks == [] then [] else [ClauseOf(chunks[0])] + ClausesOf(chunks[1..])
  }

  /** The `.reduce` that keeps the complete clauses, in order. */
  function Completed(cs: seq<Clause>): (kept: seq<Clause>)
    requires forall i :: 0 <= i < |cs| ==> Positional(cs[i])
    ensures |kept| <= |cs|
    ensures forall i :: 0 <= i < |kept| ==> Complete(kept[i]) && Positional(kept[i])
    decreases |cs|
  {
    if cs == [] then []
    else (if Complete(cs[0]) then [cs[0]] else []) + Completed(cs[1..])
  }

  /** The flattened `[key, operator, value, condition]` quadruples. */
  function Tokens(cs: seq<Clause>): (ts: seq<string>)
    requires forall i :: 0 <= i < |cs| ==> Complete(cs[i]) && Positional(cs[i])
    ensures |ts| == 4 * |cs|
    decreases |cs|
  {
    if cs == [] then []
    else
      var c := cs[0];
      assert Complete(c) && Positional(c);
      [c.key, c.operator.value, c.value.value, c.condition] + Tokens(cs[1..])
  }

  /** Every token passed through `replace(token, vars, format)`. */
  function ReplaceAll(tpl: Template, ts: seq<string>, vars: ScopedVars, format: Format): (rs: seq<string>)
    ensures |rs| == |ts|
    ensures forall i :: 0 <= i < |ts| ==> rs[i] == tpl(ts[i], vars, format)
    decreases |ts|
  {
    if ts == [] then [] else [tpl(ts[0], vars, format)] + ReplaceAll(tpl, ts[1..], vars, format)
  }

  /** The tokens of the clauses that survive, before substitution. */
  function SurvivingTokens(fs: seq<string>): seq<string>
  {
    Tokens(Completed(ClausesOf(Chunk(fs, 4))))
  }

  /** `interpolateFilters(filters, scopedVars)`. */
  function InterpolateFilters(tpl: Template, filters: Option<seq<string>>, vars: Option<ScopedVars>): (r: seq<string>)
    ensures |r| % 4 == 0
  {
    ReplaceAll(tpl, SurvivingTokens(filters.GetOr([])), vars.GetOr(map[]), Regex)
  }

  /**
   * An independent reading of the same rule: walk the list four entries at a time and
   * keep a quadruple, with `AND` for a missing fourth entry, exactly when its third
   * entry is present and non-empty.
   */
  function ClauseWalk(fs: seq<string>): seq<string>
    decreases |fs|
  {
    if fs == [] then []
    else
      var n := if |fs| < 4 then |fs| else 4;
      (if n >= 3 && fs[2] != "" then [fs[0], fs[1], fs[2], if n == 4 then fs[3] else "AND"] else [])
      + ClauseWalk(fs[n..])
  }

  /** The tokens one chunk contributes. */
  function ChunkTokens(chunk: seq<string>): seq<string>
    requires 0 < |chunk| <= 4
  {
    var c := ClauseOf(chunk);
    if Complete(c) then [c.key, c.operator.value, c.value.value, c.condition] else []
  }

  lemma {:induction false} PipelineStep(head: seq<string>, rest: seq<seq<string>>)
    requires 0 < |head| <= 4
    requires forall i :: 0 <= i < |rest| ==> 0 < |rest[i]| <= 4
    ensures Tokens(Completed(ClausesOf([head] + rest))) == ChunkTokens(head) + Tokens(Completed(ClausesOf(rest)))
  {
    var c := ClauseOf(head);
    var cs := ClausesOf(rest);
    assert ([head] + rest)[1..] == rest;
    assert ClausesOf([head] + rest) == [c] + cs;
    assert ([c] + cs)[1..] == cs;
    if Complete(c) {
      assert Completed([c] + cs) == [c] + Completed(cs);
      assert ([c] + Completed(cs))[1..] == Completed(cs);
    } else {
      assert Completed([c] + cs) == Completed(cs);
    }
  }

  lemma ReplaceAllAppend(tpl: Template, a: seq<string>, b: seq<string>, vars: ScopedVars, format: Format)
    ensures ReplaceAll(tpl, a + b, vars, format) == ReplaceAll(tpl, a, vars, format) + ReplaceAll(tpl, b, vars, format)
  {
  }

  /** The chunk/reduce/flatten pipeline keeps exactly what the clause walk keeps. */
  lemma {:induction false} SurvivorsAreClauseWalk(fs: seq<string>)
    ensures SurvivingTokens(fs) == ClauseWalk(fs)
    decreases |fs|
  {
    if fs == [] {
    } else if |fs| <= 4 {
      assert Chunk(fs, 4) == [fs] + [];
      PipelineStep(fs, []);
      assert fs[|fs|..] == [];
    } else {
      var tail := fs[4..];
      assert Chunk(fs, 4) == [fs[..4]] + Chunk(tail, 4);
      PipelineStep(fs[..4], Chunk(tail, 4));
      SurvivorsAreClauseWalk(tail);
    }
  }

  lemma {:induction false} ClauseWalkAppend(a: seq<string>, b: seq<string>)
    requires |a| % 4 == 0
    ensures ClauseWalk(a + b) == ClauseWalk(a) + ClauseWalk(b)
    decreases |a|
  {
    if a == [] {
      assert a + b == b;
    } else {
      assert (a + b)[..4] == a[..4];
      assert (a + b)[4..] == a[4..] + b;
      ClauseWalkAppend(a[4..], b);
    }
  }

  /** The quadruple a four-entry chunk keeps, before substitution. */
  function Kept(clause: seq<string>): seq<string>
    requires |clause| == 4
  {
    if clause[2] != "" then clause else []
  }

  lemma {:induction false} WalkAroundClause(before: seq<string>, clause: seq<string>, after: seq<string>)
    requires |before| % 4 == 0 && |clause| == 4
    ensures ClauseWalk(before + clause + after) == ClauseWalk(before) + Kept(clause) + ClauseWalk(after)
  {
    assert before + clause + after == before + (clause + after);
    ClauseWalkAppend(before, clause + after);
    ClauseWalkAppend(clause, after);
    assert clause[4..] == [];
    assert ClauseWalk(clause) == Kept(clause);
  }

  /**
   * Whatever its position, a quadruple `[k, op, v, cond]` contributes its four
   * substituted tokens in place when `v` is non-empty, and nothing when it is empty.
   */
  lemma {:induction false} ClauseDroppedExactlyWhenValueEmpty(tpl: Template, before: seq<string>, clause: seq<string>, after: seq<string>, vars: ScopedVars)
    requires |before| % 4 == 0 && |clause| == 4
    ensures InterpolateFilters(tpl, Some(before + clause + after), Some(vars))
         == InterpolateFilters(tpl, Some(before), Some(vars))
          + (if clause[2] != "" then [tpl(clause[0], vars, Regex), tpl(clause[1], vars, Regex), tpl(clause[2], vars, Regex), tpl(clause[3], vars, Regex)] else [])
          + InterpolateFilters(tpl, Some(after), Some(vars))
  {
    var a, m, b := ClauseWalk(before), Kept(clause), ClauseWalk(after);
    SurvivorsAreClauseWalk(before + clause + after);
    SurvivorsAreClauseWalk(before);
    SurvivorsAreClauseWalk(after);
    WalkAroundClause(before, clause, after);
    ReplaceAllAppend(tpl, a + m, b, vars, Regex);
    ReplaceAllAppend(tpl, a, m, vars, Regex);
    var rm := ReplaceAll(tpl, m, vars, Regex);
    assert rm == if clause[2] != "" then [tpl(clause[0], vars, Regex), tpl(clause[1], vars, Regex), tpl(clause[2], vars, Regex), tpl(clause[3], vars, Regex)] else [];
  }

  lemma {:induction false} WalkShortLastClause(before: seq<string>, k: string, op: string, v: string)
    requires |before| % 4 == 0 && v != ""
    ensures ClauseWalk(before + [k, op, v]) == ClauseWalk(before) + [k, op, v, "AND"]
  {
    ClauseWalkAppend(before, [k, op, v]);
    assert [k, op, v][3..] == [];
  }

  /** A final short chunk `[k, op, v]` whose value is non-empty gets the condition `AND`. */
  lemma {:induction false} ShortLastClauseDefaultsToAnd(tpl: Template, before: seq<string>, k: string, op: string, v: string, vars: ScopedVars)
    requires |before| % 4 == 0 && v != ""
    ensures InterpolateFilters(tpl, Some(before + [k, op, v]), Some(vars))
         == InterpolateFilters(tpl, Some(before), Some(vars))
          + [tpl(k, vars, Regex), tpl(op, vars, Regex), tpl(v, vars, Regex), tpl("AND", vars, Regex)]
  {
    var quad := [k, op, v, "AND"];
    SurvivorsAreClauseWalk(before + [k, op, v]);
    SurvivorsAreClauseWalk(before);
    WalkShortLastClause(before, k, op, v);
    ReplaceAllAppend(tpl, ClauseWalk(before), quad, vars, Regex);
    var rq := ReplaceAll(tpl, quad, vars, Regex);
    assert rq == [tpl(k, vars, Regex), tpl(op, vars, Regex), tpl(v, vars, Regex), tpl("AND", vars, Regex)];
  }

  lemma {:induction false} CompleteClausesKept(fs: seq<string>)
    requires |fs| % 4 == 0
    requires forall i :: 0 <= i < |fs| && i % 4 == 2 ==> fs[i] != ""
    ensures ClauseWalk(fs) == fs
    decreases |fs|
  {
    if fs != [] {
      assert fs[2] != "";
      forall i | 0 <= i < |fs[4..]| && i % 4 == 2 ensures fs[4..][i] != "" {
        assert fs[4..][i] == fs[i + 4];
      }
      CompleteClausesKept(fs[4..]);
      assert fs == fs[..4] + fs[4..];
    }
  }

  /** With the identity substitution, a list of complete quadruples comes back unchanged. */
  lemma CompleteFiltersPassThrough(tpl: Template, fs: seq<string>, vars: ScopedVars)
    requires forall s, v, f :: tpl(s, v, f) == s
    requires |fs| % 4 == 0
    requires forall i :: 0 <= i < |fs| && i % 4 == 2 ==> fs[i] != ""
    ensures InterpolateFilters(tpl, Some(fs), Some(vars)) == fs
  {
    SurvivorsAreClauseWalk(fs);
    CompleteClausesKept(fs);
  }

  // --------------------------------------------------------------- group-bys

  /** `replace(gb, vars, 'csv').split(',')` for each entry, concatenated left to right. */
  function ExpandGroupBys(tpl: Template, groupBys: seq<string>, vars: ScopedVars): (r: seq<string>)
    ensures |r| >= |groupBys|
    decreases |groupBys|
  {
    if groupBys == [] then []
    else Split(tpl(groupBys[0], vars, Csv), ',') + ExpandGroupBys(tpl, groupBys[1..], vars)
  }

  /** `interpolateGroupBys(groupBys, scopedVars)` as a value. */
  function InterpolatedGroupBys(tpl: Template, groupBys: Option<seq<string>>, vars: Option<ScopedVars>): (r: seq<string>)
    ensures groupBys.None? ==> r == []
  {
    ExpandGroupBys(tpl, groupBys.GetOr([]), vars.GetOr(map[]))
  }

  /** Expansion distributes over concatenation: each entry's pieces stay in place. */
  lemma {:induction false} ExpandGroupBysAppend(tpl: Template, a: seq<string>, b: seq<string>, vars: ScopedVars)
    ensures ExpandGroupBys(tpl, a + b, vars) == ExpandGroupBys(tpl, a, vars) + ExpandGroupBys(tpl, b, vars)
    decreases |a|
  {
    if a == [] {
      assert a + b == b;
    } else {
      assert (a + b)[0] == a[0] && (a + b)[1..] == a[1..] + b;
      ExpandGroupBysAppend(tpl, a[1..], b, vars);
    }
  }

  /** With the identity substitution, comma-free label keys come back unchanged. */
  lemma {:induction false} PlainGroupBysPassThrough(tpl: Template, groupBys: seq<string>, vars: ScopedVars)
    requires forall s, v, f :: tpl(s, v, f) == s
    requires forall i :: 0 <= i < |groupBys| ==> ',' !in groupBys[i]
    ensures ExpandGroupBys(tpl, groupBys, vars) == groupBys
    decreases |groupBys|
  {
    if groupBys != [] {
      SplitJoin([groupBys[0]], ',');
      PlainGroupBysPassThrough(tpl, groupBys[1..], vars);
      assert groupBys == [groupBys[0]] + groupBys[1..];
    }
  }

  /** `interpolateGroupBys`: the `forEach` loop that concatenates each entry's pieces. */
  method InterpolateGroupBys(tpl: Template, groupBys: Option<seq<string>>, vars: Option<ScopedVars>) returns (r: seq<string>)
    ensures r == InterpolatedGroupBys(tpl, groupBys, vars)
  {
    var gbs := groupBys.GetOr([]);
    var scoped := vars.GetOr(map[]);
    r := [];
    var i := 0;
    while i < |gbs|
      invariant 0 <= i <= |gbs|
      invariant r == ExpandGroupBys(tpl, gbs[..i], scoped)
    {
      var pieces := Split(tpl(gbs[i], scoped, Csv), ',');
      ExpandGroupBysAppend(tpl, gbs[..i], [gbs[i]], scoped);
      assert gbs[..i + 1] == gbs[..i] + [gbs[i]];
      assert ExpandGroupBys(tpl, [gbs[i]], scoped) == pieces + [];
      r := r + pieces;
      i := i + 1;
    }
    assert gbs[..i] == gbs;
  }
}
