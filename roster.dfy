/**
 * The pure logic of the Employees page: `applyFilters`, a chain of up to three
 * `Array.prototype.filter` stages over the last full load, and the per-row
 * cell edits, each a `map` that rewrites the rows whose `empPSC` matches.
 */
module Roster {
  import opened Wrappers
  import opened Text
  import opened Http

  // ---- Filtering ----

  /** One filter input of the page and the text typed or selected in it. */
  datatype Criterion = ByPSC(text: string) | ByTag(text: string) | ByProject(text: string)

  /** Whether `applyFilters` runs the stage for this input at all. */
  predicate Active(c: Criterion) {
    match c
    case ByPSC(f) => !IsBlank(f)
    case ByTag(f) => !IsBlank(f)
    case ByProject(f) => f != ""
  }

  /**
   * The callback the stage passes to `filter`. A row with no tag never passes a
   * tag input, and a row passes a project input only when its project is the
   * number `parseInt` reads from the input.
   */
  predicate Matches(c: Criterion, e: Employee)
    ensures Matches(c, e) && c.ByTag? ==> e.empTagId.Some? && e.empTagId.value != ""
    ensures Matches(c, e) && c.ByProject? ==> e.empProjID.Id? && ParseInt(c.text) == Some(e.empProjID.n)
  {
    match c
    case ByPSC(f) => Contains(Lower(e.empPSC), Lower(f))
    case ByTag(f) =>
      e.empTagId.Some? && e.empTagId.value != "" && Contains(Lower(e.empTagId.value), Lower(f))
    case ByProject(f) =>
      match ParseInt(f)
      case Some(n) => e.empProjID == Id(n)
      case None => false
  }

  /** A row passes an input when the input is inactive or the row matches it. */
  predicate Admits(c: Criterion, e: Employee) {
    !Active(c) || Matches(c, e)
  }

  predicate AdmitsAll(cs: seq<Criterion>, e: Employee) {
    forall c :: c in cs ==> Admits(c, e)
  }

  /** The rows of `s` that every criterion of `cs` admits, in their order in `s`. */
  function Keep(s: seq<Employee>, cs: seq<Criterion>): (r: seq<Employee>)
    ensures |r| <= |s|
    ensures forall e :: e in r <==> e in s && AdmitsAll(cs, e)
  {
    if s == [] then []
    else (if AdmitsAll(cs, s[0]) then [s[0]] else []) + Keep(s[1..], cs)
  }

  /** One `if (...) filtered = filtered.filter(...)` step of `applyFilters`. */
  function Stage(s: seq<Employee>, c: Criterion): seq<Employee> {
    if Active(c) then Keep(s, [c]) else s
  }

  /** The stages run one after the other, in the order of `cs`. */
  function Chain(s: seq<Employee>, cs: seq<Criterion>): seq<Employee>
    decreases |cs|
  {
    if cs == [] then s else Chain(Stage(s, cs[0]), cs[1..])
  }

  /** `applyFilters(psc, tagId, projId)`: PSC stage, then tag stage, then project stage. */
  function ApplyFilters(allRows: seq<Employee>, psc: string, tagId: string, projId: string): (r: seq<Employee>)
    ensures |r| <= |allRows|
    ensures forall e :: e in r ==> e in allRows
    ensures IsBlank(psc) && IsBlank(tagId) && projId == "" ==> r == allRows
  {
    Stage(Stage(Stage(allRows, ByPSC(psc)), ByTag(tagId)), ByProject(projId))
  }

  /** Filtering what was already filtered keeps the rows admitted by both sets of criteria. */
  lemma {:induction false} KeepFuse(s: seq<Employee>, cs: seq<Criterion>, ds: seq<Criterion>)
    ensures Keep(Keep(s, cs), ds) == Keep(s, cs + ds)
  {
    if s != [] {
      KeepFuse(s[1..], cs, ds);
      assert AdmitsAll(cs + ds, s[0]) == (AdmitsAll(cs, s[0]) && AdmitsAll(ds, s[0]));
      var head := if AdmitsAll(cs, s[0]) then [s[0]] else [];
      assert Keep(s, cs) == head + Keep(s[1..], cs);
      if AdmitsAll(cs, s[0]) {
        assert Keep(s, cs)[0] == s[0] && Keep(s, cs)[1..] == Keep(s[1..], cs);
      } else {
        assert Keep(s, cs) == Keep(s[1..], cs);
      }
    }
  }

  /** Two criterion lists that admit the same rows of `s` keep the same rows of `s`. */
  lemma {:induction false} KeepAgrees(s: seq<Employee>, cs: seq<Criterion>, ds: seq<Criterion>)
    requires forall e :: e in s ==> AdmitsAll(cs, e) == AdmitsAll(ds, e)
    ensures Keep(s, cs) == Keep(s, ds)
  {
    if s != [] {
      KeepAgrees(s[1..], cs, ds);
    }
  }

  /** A criterion list that admits every row of `s` keeps `s` whole. */
  lemma {:induction false} KeepAll(s: seq<Employee>, cs: seq<Criterion>)
    requires forall e :: e in s ==> AdmitsAll(cs, e)
    ensures Keep(s, cs) == s
  {
    if s != [] {
      KeepAll(s[1..], cs);
    }
  }

  /** A stage is a `Keep` whether or not it is active. */
  lemma StageIsKeep(s: seq<Employee>, c: Criterion)
    ensures Stage(s, c) == Keep(s, [c])
  {
    if !Active(c) {
      KeepAll(s, [c]);
    }
  }

  /** Running the stages in sequence keeps exactly the rows every stage admits. */
  lemma {:induction false} ChainIsKeep(s: seq<Employee>, cs: seq<Criterion>)
    ensures Chain(s, cs) == Keep(s, cs)
    decreases |cs|
  {
    if cs == [] {
      KeepAll(s, cs);
    } else {
      StageIsKeep(s, cs[0]);
      ChainIsKeep(Stage(s, cs[0]), cs[1..]);
      KeepFuse(s, [cs[0]], cs[1..]);
      assert [cs[0]] + cs[1..] == cs;
    }
  }

  /** `applyFilters` keeps exactly the rows of `allRows` that the three inputs admit, in order. */
  lemma FilterIsConjunction(allRows: seq<Employee>, psc: string, tagId: string, projId: string)
    ensures ApplyFilters(allRows, psc, tagId, projId)
         == Keep(allRows, [ByPSC(psc), ByTag(tagId), ByProject(projId)])
  {
    var cs := [ByPSC(psc), ByTag(tagId), ByProject(projId)];
    var ds := [ByTag(tagId), ByProject(projId)];
    var es := [ByProject(projId)];
    ChainIsKeep(allRows, cs);
    var s1 := Stage(allRows, ByPSC(psc));
    var s2 := Stage(s1, ByTag(tagId));
    var s3 := Stage(s2, ByProject(projId));
    assert cs[0] == ByPSC(psc) && cs[1..] == ds;
    assert ds[0] == ByTag(tagId) && ds[1..] == es;
    assert es[0] == ByProject(projId) && es[1..] == [];
    calc {
      Chain(allRows, cs);
      Chain(s1, ds);
      Chain(s2, es);
      Chain(s3, []);
      s3;
    }
  }

  /** Running the three stages in any order gives the rows `applyFilters` gives. */
  lemma FilterOrderIrrelevant(allRows: seq<Employee>, psc: string, tagId: string, projId: string,
                              order: seq<Criterion>)
    requires multiset(order) == multiset([ByPSC(psc), ByTag(tagId), ByProject(projId)])
    ensures Chain(allRows, order) == ApplyFilters(allRows, psc, tagId, projId)
  {
    var cs := [ByPSC(psc), ByTag(tagId), ByProject(projId)];
    FilterIsConjunction(allRows, psc, tagId, projId);
    ChainIsKeep(allRows, order);
    forall e | e in allRows ensures AdmitsAll(order, e) == AdmitsAll(cs, e) {
      assert forall c :: c in order <==> c in multiset(order);
    }
    KeepAgrees(allRows, order, cs);
  }

  /** `Keep` drops rows and never adds or reorders them. */
  lemma {:induction false} KeepIsSubsequence(s: seq<Employee>, cs: seq<Criterion>)
    ensures Subsequence(Keep(s, cs), s)
  {
    if s != [] {
      KeepIsSubsequence(s[1..], cs);
      if AdmitsAll(cs, s[0]) {
        assert Keep(s, cs)[0] == s[0] && Keep(s, cs)[1..] == Keep(s[1..], cs);
      } else {
        assert Keep(s, cs) == Keep(s[1..], cs);
      }
    }
  }

  /** `applyFilters` drops rows of `allRows` and never adds or reorders any. */
  lemma FilterIsSubsequence(allRows: seq<Employee>, psc: string, tagId: string, projId: string)
    ensures Subsequence(ApplyFilters(allRows, psc, tagId, projId), allRows)
  {
    FilterIsConjunction(allRows, psc, tagId, projId);
    KeepIsSubsequence(allRows, [ByPSC(psc), ByTag(tagId), ByProject(projId)]);
  }

  /** A row is shown iff it is in the last load and passes all three tests of the page. */
  lemma FilterMeaning(allRows: seq<Employee>, psc: string, tagId: string, projId: string, e: Employee)
    ensures e in ApplyFilters(allRows, psc, tagId, projId) <==>
      && e in allRows
      && (IsBlank(psc) || Contains(Lower(e.empPSC), Lower(psc)))
      && (IsBlank(tagId) || (e.empTagId.Some? && e.empTagId.value != ""
                             && Contains(Lower(e.empTagId.value), Lower(tagId))))
      && (projId == "" || (ParseInt(projId).Some? && e.empProjID == Id(ParseInt(projId).value)))
  {
    FilterIsConjunction(allRows, psc, tagId, projId);
    AdmitsAllThree(psc, tagId, projId, e);
  }

  /** A row with a `NULL` project never passes a non-empty project filter. */
  lemma NullProjectNeverMatches(allRows: seq<Employee>, psc: string, tagId: string, projId: string, e: Employee)
    requires e.empProjID == Null && projId != ""
    ensures e !in ApplyFilters(allRows, psc, tagId, projId)
  {
    FilterMeaning(allRows, psc, tagId, projId, e);
  }

  /** A row with a `NULL` tag never passes a tag filter that is not blank. */
  lemma NullTagNeverMatches(allRows: seq<Employee>, psc: string, tagId: string, projId: string, e: Employee)
    requires e.empTagId == None && !IsBlank(tagId)
    ensures e !in ApplyFilters(allRows, psc, tagId, projId)
  {
    FilterMeaning(allRows, psc, tagId, projId, e);
  }

  /**
   * Picking a project in the filter select shows exactly the rows on that
   * project that the PSC and tag inputs also admit.
   */
  lemma ProjectOptionSelects(allRows: seq<Employee>, psc: string, tagId: string, prjSeq: int, e: Employee)
    ensures e in ApplyFilters(allRows, psc, tagId, IntString(prjSeq))
        <==> e in allRows && e.empProjID == Id(prjSeq) && Admits(ByPSC(psc), e) && Admits(ByTag(tagId), e)
  {
    ParseIntString(prjSeq);
    FilterMeaning(allRows, psc, tagId, IntString(prjSeq), e);
  }

  lemma AdmitsAllThree(psc: string, tagId: string, projId: string, e: Employee)
    ensures AdmitsAll([ByPSC(psc), ByTag(tagId), ByProject(projId)], e)
        <==> Admits(ByPSC(psc), e) && Admits(ByTag(tagId), e) && Admits(ByProject(projId), e)
  {
    var cs := [ByPSC(psc), ByTag(tagId), ByProject(projId)];
    assert cs[0] in cs && cs[1] in cs && cs[2] in cs;
  }

  /** Two texts equal after lower-casing make a PSC or tag input admit the same rows. */
  lemma AdmitsIgnoresCase(f: string, f': string, e: Employee)
    requires Lower(f) == Lower(f')
    ensures Admits(ByPSC(f), e) == Admits(ByPSC(f'), e)
    ensures Admits(ByTag(f), e) == Admits(ByTag(f'), e)
  {
    LowerKeepsBlank(f);
    LowerKeepsBlank(f');
  }

  /** Filter texts that differ only in letter case show the same rows. */
  lemma FilterIgnoresCase(allRows: seq<Employee>, psc: string, psc': string,
                          tagId: string, tagId': string, projId: string)
    requires Lower(psc) == Lower(psc') && Lower(tagId) == Lower(tagId')
    ensures ApplyFilters(allRows, psc, tagId, projId) == ApplyFilters(allRows, psc', tagId', projId)
  {
    var cs := [ByPSC(psc), ByTag(tagId), ByProject(projId)];
    var ds := [ByPSC(psc'), ByTag(tagId'), ByProject(projId)];
    FilterIsConjunction(allRows, psc, tagId, projId);
    FilterIsConjunction(allRows, psc', tagId', projId);
    forall e | e in allRows ensures AdmitsAll(cs, e) == AdmitsAll(ds, e) {
      AdmitsIgnoresCase(psc, psc', e);
      AdmitsIgnoresCase(tagId, tagId', e);
      AdmitsAllThree(psc, tagId, projId, e);
      AdmitsAllThree(psc', tagId', projId, e);
    }
    KeepAgrees(allRows, cs, ds);
  }

  /** Typing a filter text in lower case shows the rows that typing it in any case shows. */
  lemma FilterLowerCased(allRows: seq<Employee>, psc: string, tagId: string, projId: string)
    ensures ApplyFilters(allRows, Lower(psc), Lower(tagId), projId) == ApplyFilters(allRows, psc, tagId, projId)
  {
    LowerIdempotent(psc);
    LowerIdempotent(tagId);
    FilterIgnoresCase(allRows, Lower(psc), psc, Lower(tagId), tagId, projId);
  }

  // ---- Order-preserving subsequences and keys ----

  /** `a` is `b` with some elements dropped and none added or reordered. */
  predicate Subsequence<T(==)>(a: seq<T>, b: seq<T>)
    decreases |b|
  {
    if a == [] then true
    else if b == [] then false
    else if a[0] == b[0] && Subsequence(a[1..], b[1..]) then true
    else Subsequence(a, b[1..])
  }

  lemma {:induction false} SubsequenceRefl<T>(a: seq<T>)
    ensures Subsequence(a, a)
  {
    if a != [] {
      SubsequenceRefl(a[1..]);
    }
  }

  /** The keys of `rows`, in order. */
  function Pscs(rows: seq<Employee>): (keys: seq<string>)
    ensures |keys| == |rows|
    ensures forall i :: 0 <= i < |rows| ==> keys[i] == rows[i].empPSC
  {
    if rows == [] then [] else [rows[0].empPSC] + Pscs(rows[1..])
  }

  lemma {:induction false} SubsequencePscs(a: seq<Employee>, b: seq<Employee>)
    requires Subsequence(a, b)
    ensures Subsequence(Pscs(a), Pscs(b))
    decreases |b|
  {
    if a != [] && b != [] {
      assert Pscs(b)[1..] == Pscs(b[1..]);
      assert Pscs(a)[1..] == Pscs(a[1..]);
      if a[0] == b[0] && Subsequence(a[1..], b[1..]) {
        SubsequencePscs(a[1..], b[1..]);
      } else {
        SubsequencePscs(a, b[1..]);
      }
    }
  }

  /** No two rows share an `empPSC` (it is the table's key). */
  predicate UniqueKeys(rows: seq<Employee>) {
    forall i, j :: 0 <= i < j < |rows| ==> rows[i].empPSC != rows[j].empPSC
  }

  // ---- Cell edits ----

  /** A change made in one cell of a row. */
  datatype Patch = SetTag(v: string) | SetProject(p: ProjectRef)

  /** `{ ...x, empTagId: v }` or `{ ...x, empProjID: v }`. */
  function Patched(e: Employee, patch: Patch): Employee {
    match patch
    case SetTag(v) => e.(empTagId := Some(v))
    case SetProject(p) => e.(empProjID := p)
  }

  /**
   * `prev.map(x => x.empPSC === psc ? patched(x) : x)`: same length and keys,
   * the matching rows patched and every other row as it was.
   */
  function Edit(rows: seq<Employee>, psc: string, patch: Patch): (r: seq<Employee>)
    ensures |r| == |rows|
    ensures forall i :: 0 <= i < |rows| && rows[i].empPSC == psc ==> r[i] == Patched(rows[i], patch)
    ensures forall i :: 0 <= i < |rows| && rows[i].empPSC != psc ==> r[i] == rows[i]
  {
    if rows == [] then []
    else [if rows[0].empPSC == psc then Patched(rows[0], patch) else rows[0]] + Edit(rows[1..], psc, patch)
  }

  /** An edit keeps every row's key, so the list of keys does not move. */
  lemma EditKeepsKeys(rows: seq<Employee>, psc: string, patch: Patch)
    ensures Pscs(Edit(rows, psc, patch)) == Pscs(rows)
  {
  }

  /** With unique keys, an edit changes at most one row: the one whose key was edited. */
  lemma EditTouchesOneRow(rows: seq<Employee>, psc: string, patch: Patch, i: int, j: int)
    requires UniqueKeys(rows)
    requires 0 <= i < |rows| && 0 <= j < |rows|
    requires Edit(rows, psc, patch)[i] != rows[i] && Edit(rows, psc, patch)[j] != rows[j]
    ensures i == j && rows[i].empPSC == psc
  {
  }

  /**
   * The value the project cell's `onChange` stores: `null` for the empty
   * option, otherwise `parseInt` of the option's value.
   */
  function ProjectChoice(v: string): (p: ProjectRef)
    ensures v == "" ==> p == Null
    ensures p == Null ==> v == ""
    ensures v != "" && ParseInt(v).Some? ==> p == Id(ParseInt(v).value)
    ensures v != "" && ParseInt(v).None? ==> p == NaN
  {
    if v == "" then Null
    else match ParseInt(v)
      case Some(n) => Id(n)
      case None => NaN
  }

  /** Choosing a project's option stores that project's sequence number. */
  lemma ProjectChoiceOfOption(prjSeq: int)
    ensures ProjectChoice(IntString(prjSeq)) == Id(prjSeq)
  {
    var v := IntString(prjSeq);
    assert v != "" by { assert |v| > 0; }
    ParseIntString(prjSeq);
    assert ParseInt(v) == Some(prjSeq);
  }
}
