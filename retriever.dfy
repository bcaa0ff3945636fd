/** The search client (agents/rag/retriever/cognitivesearch.py): the OData
    `$filter` builder, the keep-first de-duplication by `id_content`, and the
    search call that combines them around the search backend. */
module Retriever {
  import opened Common

  /** An element of a filter list.  None, booleans, integers and strings are
      carried as themselves; any other element (a float, a list, a dict) is
      carried as the text Python's `str` renders it to, the only thing the
      builder reads of it. */
  datatype Scalar = SNone | SBool(b: bool) | SInt(i: int) | SStr(s: string) | SRendered(text: string)

  /** A filter value: a string, a list, or anything else. */
  datatype FilterValue = FText(text: string) | FList(items: seq<Scalar>) | FUnsupported

  /** A filter dictionary, in its iteration order. */
  type Filters = seq<(string, FilterValue)>

  /** A search hit, as the backend returns it. */
  type Document = map<string, Value>

  // ---------------------------------------------------------------- filters

  function EqClause(key: string, v: string): string
  {
    key + " eq '" + v + "'"
  }

  /** `str(v)`, as the f-string splices a list element in. */
  function Str(v: Scalar): (r: string)
    ensures v.SStr? ==> r == v.s
    ensures v.SNone? ==> r == "None"
    ensures v.SBool? ==> r == (if v.b then "True" else "False")
    ensures v.SInt? ==> r == IntToString(v.i)
  {
    match v
    case SNone => "None"
    case SBool(b) => if b then "True" else "False"
    case SInt(i) => IntToString(i)
    case SStr(s) => s
    case SRendered(t) => t
  }

  function EqClauses(key: string, vs: seq<Scalar>): (r: seq<string>)
    ensures |r| == |vs| && forall i :: 0 <= i < |vs| ==> r[i] == EqClause(key, Str(vs[i]))
  {
    if |vs| == 0 then [] else [EqClause(key, Str(vs[0]))] + EqClauses(key, vs[1..])
  }

  /** The clause one dictionary entry contributes, if any. */
  function Clause(key: string, v: FilterValue): Result<Option<string>>
  {
    match v
    case FText(s) => Ok(Some(EqClause(key, s)))
    case FList(vs) => if |vs| == 0 then Ok(None) else Ok(Some("(" + Join(EqClauses(key, vs), " or ") + ")"))
    case FUnsupported => Err(ValueError(key))
  }

  /** The clauses of all entries, in dictionary order. */
  function Clauses(filters: Filters): Result<seq<string>>
  {
    if |filters| == 0 then Ok([])
    else
      var (key, v) := filters[|filters| - 1];
      match Clauses(filters[..|filters| - 1])
      case Err(e) => Err(e)
      case Ok(init) =>
        match Clause(key, v)
        case Err(e) => Err(e)
        case Ok(c) => Ok(if c.Some? then init + [c.value] else init)
  }

  /** The `$filter` expression: the clauses joined with " and ". */
  function FilterExpression(filters: Filters): Result<string>
  {
    var cs :- Clauses(filters);
    Ok(Join(cs, " and "))
  }

  /** `_build_filters`: one pass over the dictionary, appending each clause. */
  method BuildFilters(filters: Filters) returns (r: Result<string>)
    ensures r == FilterExpression(filters)
  {
    var expressions: seq<string> := [];
    var i := 0;
    while i < |filters|
      invariant 0 <= i <= |filters|
      invariant Clauses(filters[..i]) == Ok(expressions)
    {
      var (key, value) := filters[i];
      assert filters[..i + 1][..i] == filters[..i];
      match value {
        case FList(vs) =>
          if |vs| > 0 {
            var joined := Join(EqClauses(key, vs), " or ");
            expressions := expressions + ["(" + joined + ")"];
          }
        case FText(s) =>
          expressions := expressions + [EqClause(key, s)];
        case FUnsupported =>
          ClausesAppend(filters[..i + 1], filters[i + 1..]);
          assert filters[..i + 1] + filters[i + 1..] == filters;
          return Err(ValueError(key));
      }
      i := i + 1;
    }
    assert filters[..|filters|] == filters;
    return Ok(Join(expressions, " and "));
  }

  /** Clauses distribute over concatenation of dictionaries. */
  lemma {:induction false} ClausesAppend(a: Filters, b: Filters)
    ensures Clauses(a + b) == (if Clauses(a).Err? then Clauses(a)
                               else if Clauses(b).Err? then Clauses(b)
                               else Ok(Clauses(a).value + Clauses(b).value))
    decreases |b|
  {
    if |b| == 0 {
      assert a + b == a;
      var ca := Clauses(a);
      if ca.Ok? {
        assert ca.value + [] == ca.value;
        assert Clauses(b) == Ok([]);
      }
    } else {
      var b' := b[..|b| - 1];
      var (key, v) := b[|b| - 1];
      assert (a + b)[..|a + b| - 1] == a + b';
      assert (a + b)[|a + b| - 1] == (key, v);
      ClausesAppend(a, b');
      var ca, cb' := Clauses(a), Clauses(b');
      if ca.Ok? && cb'.Ok? && Clause(key, v).Ok? {
        var extra := if Clause(key, v).value.Some? then [Clause(key, v).value.value] else [];
        assert Clauses(b).value == cb'.value + extra;
        assert Clauses(a + b).value == (ca.value + cb'.value) + extra;
        assert (ca.value + cb'.value) + extra == ca.value + (cb'.value + extra);
      }
    }
  }

  /** The clauses of a one-entry dictionary are that entry's clause. */
  lemma ClausesOfOne(key: string, v: FilterValue)
    ensures Clause(key, v).Err? ==> Clauses([(key, v)]) == Err(Clause(key, v).error)
    ensures Clause(key, v).Ok? ==>
              Clauses([(key, v)]) == Ok(if Clause(key, v).value.Some? then [Clause(key, v).value.value] else [])
  {
    var f := [(key, v)];
    assert f[|f| - 1] == (key, v);
    assert f[..|f| - 1] == [];
    assert Clauses(f[..|f| - 1]) == Ok([]);
    var c := Clauses(f);
    match Clause(key, v) {
      case Err(e) =>
      case Ok(None) =>
        assert c.value == [];
      case Ok(Some(x)) =>
        assert c.value == [] + [x];
        assert c.value == [x];
    }
  }

  /** A string value yields `key eq 'value'`, with the value spliced in verbatim. */
  lemma TextFilter(key: string, v: string)
    ensures FilterExpression([(key, FText(v))]) == Ok(key + " eq '" + v + "'")
  {
    ClausesOfOne(key, FText(v));
  }

  /** A non-empty list yields a parenthesised disjunction in list order. */
  lemma ListFilter(key: string, vs: seq<Scalar>)
    requires |vs| > 0
    ensures FilterExpression([(key, FList(vs))]) == Ok("(" + Join(EqClauses(key, vs), " or ") + ")")
  {
    ClausesOfOne(key, FList(vs));
  }

  /** An empty list contributes no clause, wherever it stands. */
  lemma EmptyListIgnored(a: Filters, key: string, b: Filters)
    ensures FilterExpression(a + [(key, FList([]))] + b) == FilterExpression(a + b)
  {
    ClausesAppend(a, [(key, FList([]))]);
    ClausesAppend(a + [(key, FList([]))], b);
    ClausesAppend(a, b);
    ClausesOfOne(key, FList([]));
    var ca := Clauses(a);
    if ca.Ok? {
      assert ca.value + [] == ca.value;
    }
  }

  /** Any entry that is neither a string nor a list makes the whole call fail. */
  lemma {:induction false} UnsupportedFails(a: Filters, key: string, b: Filters)
    ensures FilterExpression(a + [(key, FUnsupported)] + b).Err?
  {
    ClausesAppend(a, [(key, FUnsupported)]);
    ClausesAppend(a + [(key, FUnsupported)], b);
    ClausesOfOne(key, FUnsupported);
  }

  /** Two dictionaries that each contribute clauses are joined with " and ", in order. */
  lemma ConjunctionOfParts(a: Filters, b: Filters)
    requires Clauses(a).Ok? && Clauses(b).Ok?
    requires |Clauses(a).value| > 0 && |Clauses(b).value| > 0
    ensures FilterExpression(a + b) == Ok(FilterExpression(a).value + " and " + FilterExpression(b).value)
  {
    ClausesAppend(a, b);
    JoinAppend(Clauses(a).value, Clauses(b).value, " and ");
  }

  lemma {:induction false} JoinAppend(xs: seq<string>, ys: seq<string>, sep: string)
    requires |xs| > 0 && |ys| > 0
    ensures Join(xs + ys, sep) == Join(xs, sep) + sep + Join(ys, sep)
  {
    if |xs| == 1 {
      assert (xs + ys)[1..] == ys;
    } else {
      assert (xs + ys)[1..] == xs[1..] + ys;
      JoinAppend(xs[1..], ys, sep);
    }
  }

  /** No surviving clause gives the empty expression, for example a dictionary of empty lists. */
  lemma NoClausesIsEmpty(filters: Filters)
    requires Clauses(filters) == Ok([])
    ensures FilterExpression(filters) == Ok("")
  {
  }

  /** The shape of the builder's documented example: a string entry and then a
      two-element list entry give `k1 eq 'v' and (k2 eq 'u1' or k2 eq 'u2')`. */
  lemma DocumentedExample(k1: string, v: string, k2: string, u1: string, u2: string)
    ensures FilterExpression([(k1, FText(v)), (k2, FList([SStr(u1), SStr(u2)]))])
            == Ok(EqClause(k1, v) + " and " + ("(" + EqClause(k2, u1) + " or " + EqClause(k2, u2) + ")"))
  {
    var a, b := [(k1, FText(v))], [(k2, FList([SStr(u1), SStr(u2)]))];
    assert [(k1, FText(v)), (k2, FList([SStr(u1), SStr(u2)]))] == a + b;
    ClausesOfOne(k1, FText(v));
    ClausesOfOne(k2, FList([SStr(u1), SStr(u2)]));
    assert [SStr(u1), SStr(u2)][1..] == [SStr(u2)];
    var ors := EqClauses(k2, [SStr(u1), SStr(u2)]);
    assert ors == [EqClause(k2, u1), EqClause(k2, u2)];
    assert ors[1..] == [EqClause(k2, u2)];
    var disj := EqClause(k2, u1) + " or " + EqClause(k2, u2);
    assert Join(ors, " or ") == disj;
    assert FilterExpression(a) == Ok(EqClause(k1, v));
    assert FilterExpression(b) == Ok("(" + disj + ")");
    ConjunctionOfParts(a, b);
    assert "(" + disj + ")" == "(" + EqClause(k2, u1) + " or " + EqClause(k2, u2) + ")";
  }

  /** List elements other than strings are spliced in as `str` renders them:
      `[1, None]` gives `(key eq '1' or key eq 'None')`. */
  lemma ListElementsRendered(key: string, one: int)
    requires one == 1
    ensures FilterExpression([(key, FList([SInt(one), SNone]))])
            == Ok("(" + key + " eq '1' or " + key + " eq 'None')")
  {
    ListFilter(key, [SInt(one), SNone]);
    assert Str(SInt(one)) == "1" by {
      assert NatToString(one) == [DigitChar(1)];
    }
    var c1, c2 := EqClause(key, "1"), EqClause(key, "None");
    var ors := EqClauses(key, [SInt(one), SNone]);
    assert ors == [c1, c2];
    assert ors[1..] == [c2];
    var joined := Join(ors, " or ");
    assert joined == c1 + " or " + c2;
    assert "(" + joined + ")" == "(" + key + " eq '1' or " + key + " eq 'None')" by {
      assert c1 + " or " == key + " eq '1' or ";
      assert c2 + ")" == key + " eq 'None')";
      assert "(" + joined + ")" == "(" + (c1 + " or ") + (c2 + ")");
    }
  }

  /** Quotes in values are not escaped, so one value can forge a second clause:
      two different dictionaries yield the same expression. */
  lemma QuotesAreNotEscaped(k1: string, x: string, k2: string, y: string)
    ensures FilterExpression([(k1, FText(x + "' and " + k2 + " eq '" + y))])
            == FilterExpression([(k1, FText(x)), (k2, FText(y))])
  {
    var forged := x + "' and " + k2 + " eq '" + y;
    TextFilter(k1, forged);
    ClausesOfOne(k1, FText(x));
    ClausesOfOne(k2, FText(y));
    assert [(k1, FText(x)), (k2, FText(y))] == [(k1, FText(x))] + [(k2, FText(y))];
    ConjunctionOfParts([(k1, FText(x))], [(k2, FText(y))]);
    Forge(k1, " eq '", x, "'", " and ", k2, y);
    assert "' and " == "'" + " and ";
  }

  /** The concatenation behind the forged clause, on arbitrary pieces. */
  lemma Forge(k1: string, e: string, x: string, q: string, a: string, k2: string, y: string)
    ensures k1 + e + (x + (q + a) + k2 + e + y) + q == k1 + e + x + q + a + (k2 + e + y + q)
  {
  }

  // ------------------------------------------------------- de-duplication

  const IdField: string := "id_content"

  /** A value Python can put in a set. */
  predicate Hashable(v: Value)
  {
    !v.VList? && !v.VDict?
  }

  predicate Keyed(doc: Document)
  {
    IdField in doc && Hashable(doc[IdField])
  }

  predicate AllKeyed(docs: seq<Document>)
  {
    forall i :: 0 <= i < |docs| ==> Keyed(docs[i])
  }

  /** What Python's set membership compares of a hashable id: None equals
      only None, strings compare by content, and booleans, integers and
      floats compare by numeric value, so `True`, `1` and `1.0` are one id. */
  datatype IdKey = KNone | KNum(x: real) | KStr(s: string)

  function KeyOf(v: Value): IdKey
    requires Hashable(v)
  {
    match v
    case VNull => KNone
    case VBool(b) => KNum(if b then 1.0 else 0.0)
    case VInt(i) => KNum(i as real)
    case VReal(x) => KNum(x)
    case VStr(s) => KStr(s)
  }

  /** Python's `==` on two hashable JSON values, case by case. */
  predicate PyEquals(a: Value, b: Value)
    requires Hashable(a) && Hashable(b)
  {
    match (a, b)
    case (VNull, VNull) => true
    case (VStr(s), VStr(t)) => s == t
    case (VBool(x), VBool(y)) => x == y
    case (VBool(x), VInt(j)) => j == (if x then 1 else 0)
    case (VBool(x), VReal(y)) => y == (if x then 1.0 else 0.0)
    case (VInt(i), VBool(y)) => i == (if y then 1 else 0)
    case (VInt(i), VInt(j)) => i == j
    case (VInt(i), VReal(y)) => i as real == y
    case (VReal(x), VBool(y)) => x == (if y then 1.0 else 0.0)
    case (VReal(x), VInt(j)) => x == j as real
    case (VReal(x), VReal(y)) => x == y
    case _ => false
  }

  /** Two ids are the same set element exactly when Python calls them equal. */
  lemma KeyOfIsPythonEquality(a: Value, b: Value)
    requires Hashable(a) && Hashable(b)
    ensures KeyOf(a) == KeyOf(b) <==> PyEquals(a, b)
  {
  }

  function Id(doc: Document): IdKey
    requires Keyed(doc)
  {
    KeyOf(doc[IdField])
  }

  function Ids(docs: seq<Document>): set<IdKey>
    requires AllKeyed(docs)
  {
    set i | 0 <= i < |docs| :: Id(docs[i])
  }

  /** The exception the first document without a usable id raises. */
  function FirstKeyError(docs: seq<Document>): (r: Option<Error>)
    ensures r.None? <==> AllKeyed(docs)
  {
    if |docs| == 0 then None
    else if IdField !in docs[0] then Some(KeyError(IdField))
    else if !Hashable(docs[0][IdField]) then Some(TypeError)
    else
      assert forall i :: 1 <= i < |docs| ==> docs[i] == docs[1..][i - 1];
      FirstKeyError(docs[1..])
  }

  /** Keep a document when its id has not been seen, then remember the id. */
  function KeepFirst(docs: seq<Document>, seen: set<IdKey>): seq<Document>
  {
    if |docs| == 0 then []
    else if !Keyed(docs[0]) then KeepFirst(docs[1..], seen)
    else if Id(docs[0]) in seen then KeepFirst(docs[1..], seen)
    else [docs[0]] + KeepFirst(docs[1..], seen + {Id(docs[0])})
  }

  function Deduplicated(docs: seq<Document>): Result<seq<Document>>
  {
    match FirstKeyError(docs)
    case Some(e) => Err(e)
    case None => Ok(KeepFirst(docs, {}))
  }

  /** `delete_duplicates`: a filtering pass that grows the set of seen ids. */
  method DeleteDuplicates(docs: seq<Document>) returns (r: Result<seq<Document>>)
    ensures r == Deduplicated(docs)
  {
    var seen: set<IdKey> := {};
    var kept: seq<Document> := [];
    var i := 0;
    while i < |docs|
      invariant 0 <= i <= |docs|
      invariant FirstKeyError(docs) == FirstKeyError(docs[i..])
      invariant kept + KeepFirst(docs[i..], seen) == KeepFirst(docs, {})
    {
      var doc := docs[i];
      assert docs[i..][1..] == docs[i + 1..];
      if IdField !in doc {
        return Err(KeyError(IdField));
      }
      if !Hashable(doc[IdField]) {
        return Err(TypeError);
      }
      var id := KeyOf(doc[IdField]);
      if id !in seen {
        kept := kept + [doc];
        seen := seen + {id};
      }
      i := i + 1;
    }
    assert docs[i..] == [];
    assert kept + [] == kept;
    return Ok(kept);
  }

  /** The reference definition: a document stays exactly when no earlier
      document has its id. */
  function FirstOccurrences(docs: seq<Document>): seq<Document>
    requires AllKeyed(docs)
  {
    if |docs| == 0 then []
    else
      var init := docs[..|docs| - 1];
      var last := docs[|docs| - 1];
      FirstOccurrences(init) + (if Id(last) in Ids(init) then [] else [last])
  }

  lemma {:induction false} IdsCons(docs: seq<Document>)
    requires |docs| > 0 && AllKeyed(docs)
    ensures Ids(docs) == {Id(docs[0])} + Ids(docs[1..])
  {
    forall v | v in Ids(docs) ensures v in {Id(docs[0])} + Ids(docs[1..]) {
      var i :| 0 <= i < |docs| && Id(docs[i]) == v;
      if i > 0 { assert docs[1..][i - 1] == docs[i]; }
    }
    forall v | v in Ids(docs[1..]) ensures v in Ids(docs) {
      var i :| 0 <= i < |docs[1..]| && Id(docs[1..][i]) == v;
      assert docs[i + 1] == docs[1..][i];
    }
  }

  lemma {:induction false} KeepFirstSnoc(docs: seq<Document>, d: Document, seen: set<IdKey>)
    requires AllKeyed(docs) && Keyed(d)
    ensures KeepFirst(docs + [d], seen)
            == KeepFirst(docs, seen) + (if Id(d) in seen + Ids(docs) then [] else [d])
    decreases |docs|
  {
    if |docs| == 0 {
      assert docs + [d] == [d];
      assert Ids(docs) == {};
    } else {
      var x := docs[0];
      assert (docs + [d])[0] == x;
      assert (docs + [d])[1..] == docs[1..] + [d];
      IdsCons(docs);
      if Id(x) in seen {
        KeepFirstSnoc(docs[1..], d, seen);
      } else {
        KeepFirstSnoc(docs[1..], d, seen + {Id(x)});
      }
    }
  }

  /** The filtering pass computes exactly the first occurrences. */
  lemma {:induction false} KeepFirstIsFirstOccurrences(docs: seq<Document>)
    requires AllKeyed(docs)
    ensures KeepFirst(docs, {}) == FirstOccurrences(docs)
    decreases |docs|
  {
    if |docs| > 0 {
      var init := docs[..|docs| - 1];
      assert docs == init + [docs[|docs| - 1]];
      KeepFirstIsFirstOccurrences(init);
      KeepFirstSnoc(init, docs[|docs| - 1], {});
    }
  }

  predicate DistinctIds(docs: seq<Document>)
    requires AllKeyed(docs)
  {
    forall i, j :: 0 <= i < j < |docs| ==> Id(docs[i]) != Id(docs[j])
  }

  /** The kept documents are a subsequence of the input, have pairwise distinct
      ids, none of them already seen, and cover every id not seen before. */
  lemma {:induction false} KeepFirstProperties(docs: seq<Document>, seen: set<IdKey>)
    requires AllKeyed(docs)
    ensures AllKeyed(KeepFirst(docs, seen))
    ensures IsSubsequence(KeepFirst(docs, seen), docs)
    ensures DistinctIds(KeepFirst(docs, seen))
    ensures Ids(KeepFirst(docs, seen)) == Ids(docs) - seen
    decreases |docs|
  {
    if |docs| > 0 {
      var x := docs[0];
      var rest := docs[1..];
      IdsCons(docs);
      if Id(x) in seen {
        KeepFirstProperties(rest, seen);
        SubsequenceSkip(KeepFirst(rest, seen), x, rest);
      } else {
        var seen' := seen + {Id(x)};
        KeepFirstProperties(rest, seen');
        var tail := KeepFirst(rest, seen');
        var out := [x] + tail;
        assert out[1..] == tail;
        assert forall i :: 1 <= i < |out| ==> out[i] == tail[i - 1];
        assert forall i :: 0 <= i < |tail| ==> Id(tail[i]) in Ids(tail);
        IdsCons(out);
      }
    } else {
      assert Ids(docs) == {};
    }
  }

  /** Prepending an element keeps a subsequence a subsequence. */
  lemma {:induction false} SubsequenceSkip<T>(a: seq<T>, x: T, b: seq<T>)
    requires IsSubsequence(a, b)
    ensures IsSubsequence(a, [x] + b)
    decreases |b|, 1
  {
    var xb := [x] + b;
    assert xb[1..] == b;
    if |a| > 0 && a[0] == x {
      SubsequenceTail(a, b);
    }
  }

  /** Dropping the first element of a subsequence keeps it a subsequence. */
  lemma {:induction false} SubsequenceTail<T>(a: seq<T>, b: seq<T>)
    requires |a| > 0 && IsSubsequence(a, b)
    ensures IsSubsequence(a[1..], b)
    decreases |b|, 0
  {
    if a[0] == b[0] {
      SubsequenceSkip(a[1..], b[0], b[1..]);
    } else {
      SubsequenceTail(a, b[1..]);
      SubsequenceSkip(a[1..], b[0], b[1..]);
    }
    assert [b[0]] + b[1..] == b;
  }

  /** A list whose ids are distinct and unseen is returned unchanged. */
  lemma {:induction false} KeepFirstOfDistinct(docs: seq<Document>, seen: set<IdKey>)
    requires AllKeyed(docs) && DistinctIds(docs) && Ids(docs) !! seen
    ensures KeepFirst(docs, seen) == docs
    decreases |docs|
  {
    if |docs| > 0 {
      IdsCons(docs);
      var rest := docs[1..];
      assert forall i, j :: 0 <= i < j < |rest| ==> rest[i] == docs[i + 1] && rest[j] == docs[j + 1];
      forall j | 0 <= j < |rest|
        ensures Id(rest[j]) != Id(docs[0])
      {
        assert rest[j] == docs[j + 1];
      }
      KeepFirstOfDistinct(rest, seen + {Id(docs[0])});
      assert [docs[0]] + rest == docs;
    }
  }

  /** Removing duplicates twice is removing them once. */
  lemma DeduplicatedIdempotent(docs: seq<Document>)
    requires Deduplicated(docs).Ok?
    ensures Deduplicated(Deduplicated(docs).value) == Deduplicated(docs)
  {
    var out := KeepFirst(docs, {});
    KeepFirstProperties(docs, {});
    KeepFirstOfDistinct(out, {});
  }

  /** Two results sharing an id collapse to the first one, whatever the other
      fields of the second. */
  lemma DuplicateCollapses(a: Document, b: Document)
    requires Keyed(a) && Keyed(b) && Id(a) == Id(b)
    ensures Deduplicated([a, b]) == Ok([a])
  {
    assert [a, b][1..] == [b];
    assert [b][1..] == [];
    assert FirstKeyError([a, b]) == None;
    var seen: set<IdKey> := {};
    assert seen + {Id(a)} == {Id(a)};
    assert KeepFirst([b], {Id(a)}) == KeepFirst([], {Id(a)}) == [];
    assert KeepFirst([a, b], seen) == [a] + KeepFirst([b], seen + {Id(a)});
    assert [a] + [] == [a];
  }

  /** Ids Python calls equal collapse although they differ as JSON values:
      a document with id `1` and one with id `true` keep only the first. */
  lemma NumericIdsCollapse(a: Document, b: Document)
    requires IdField in a && IdField in b && a[IdField] == VInt(1) && b[IdField] == VBool(true)
    ensures Deduplicated([a, b]) == Ok([a])
  {
    DuplicateCollapses(a, b);
  }

  // ---------------------------------------------------------------- search

  /** A query's embedding vector. */
  type Embedding = seq<real>

  /** What reaches the search index: the text, the vector query (the query's
      embedding and its number of nearest neighbours), the filter, which is
      None when no filter argument is sent, and the number of hits asked for. */
  datatype SearchRequest = SearchRequest(text: string, vector: Embedding, neighbours: int, filter: Option<string>, top: int)

  /** The two remote services a search uses: the embedding model and the
      search index.  Each may fail, and the failure propagates. */
  datatype Backend = Backend(embed: string -> Result<Embedding>, index: SearchRequest -> Result<seq<Document>>)

  /** The request `_search` sends: the vector query asks for `top` nearest
      neighbours, and a filter is sent only when the dictionary is non-empty. */
  function Request(query: string, vector: Embedding, top: int, filters: Option<Filters>): (r: Result<SearchRequest>)
    ensures r.Ok? ==> r.value.text == query && r.value.vector == vector && r.value.neighbours == top && r.value.top == top
    ensures (filters.None? || |filters.value| == 0) ==> r == Ok(SearchRequest(query, vector, top, None, top))
    ensures filters.Some? && |filters.value| > 0 ==>
              match FilterExpression(filters.value)
              case Err(e) => r == Err(e)
              case Ok(f) => r == Ok(SearchRequest(query, vector, top, Some(f), top))
  {
    if filters.Some? && |filters.value| > 0 then
      var f :- FilterExpression(filters.value);
      Ok(SearchRequest(query, vector, top, Some(f), top))
    else Ok(SearchRequest(query, vector, top, None, top))
  }

  /** `search` then `_search`: embed the query, build the filter when there is
      one, query the index, and de-duplicate the hits. */
  function SearchResult(query: string, top: int, filters: Option<Filters>, backend: Backend): Result<seq<Document>>
  {
    var vector :- backend.embed(query);
    var req :- Request(query, vector, top, filters);
    var docs :- backend.index(req);
    Deduplicated(docs)
  }

  /** `search`: the embedding is computed first, then `_search` runs. */
  method Search(query: string, top: int, filters: Option<Filters>, backend: Backend) returns (r: Result<seq<Document>>)
    ensures r == SearchResult(query, top, filters, backend)
    ensures r.Ok? ==> AllKeyed(r.value) && DistinctIds(r.value)
  {
    var vector := backend.embed(query);
    if vector.Err? {
      return Err(vector.error);
    }
    var req: SearchRequest;
    if filters.Some? && |filters.value| > 0 {
      var f := BuildFilters(filters.value);
      if f.Err? {
        return Err(f.error);
      }
      req := SearchRequest(query, vector.value, top, Some(f.value), top);
    } else {
      req := SearchRequest(query, vector.value, top, None, top);
    }
    var found := backend.index(req);
    if found.Err? {
      return Err(found.error);
    }
    r := DeleteDuplicates(found.value);
    if r.Ok? {
      KeepFirstProperties(found.value, {});
    }
  }

  /** The hits of a successful search all carry a usable id, and no two
      carry ids Python calls equal. */
  lemma SearchHitsDistinct(query: string, top: int, filters: Option<Filters>, backend: Backend)
    requires SearchResult(query, top, filters, backend).Ok?
    ensures var hits := SearchResult(query, top, filters, backend).value;
            AllKeyed(hits) && DistinctIds(hits)
  {
    var vector := backend.embed(query).value;
    var req := Request(query, vector, top, filters).value;
    KeepFirstProperties(backend.index(req).value, {});
  }

  /** The embedding call comes first: when it fails, its error is the
      search's, whatever the filters, even unsupported ones. */
  lemma EmbeddingFailsFirst(query: string, top: int, filters: Option<Filters>, backend: Backend)
    requires backend.embed(query).Err?
    ensures SearchResult(query, top, filters, backend) == Err(backend.embed(query).error)
  {
  }

  /** A filter that cannot be built fails the search after the embedding and
      before the index is queried: the index's answers do not matter. */
  lemma BadFilterSkipsIndex(query: string, top: int, filters: Filters, b1: Backend, b2: Backend)
    requires |filters| > 0 && FilterExpression(filters).Err?
    requires b1.embed == b2.embed && b1.embed(query).Ok?
    ensures SearchResult(query, top, Some(filters), b1) == Err(FilterExpression(filters).error)
    ensures SearchResult(query, top, Some(filters), b1) == SearchResult(query, top, Some(filters), b2)
  {
  }
}
