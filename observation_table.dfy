/**
 * The sorting of the observation table: `desc`, `getSorting`, the
 * index-decorated `stableSort`, and the `handleRequestSort` toggle of the
 * sorted column and direction.
 *
 * A cell is compared by its value under the sorted column: a string, or
 * `undefined` (`None`) where the row has no such value.
 */
module ObservationTable {
  import opened Common
  import opened Text
  import opened PatientObservationState

  // ---------------------------------------------------------------- cell order

  /**
   * The order the table's comparator evidently means: a missing value
   * before every string, strings by `<`.
   */
  predicate KeyLess(x: Option<string>, y: Option<string>) {
    match (x, y)
    case (None, Some(_)) => true
    case (Some(a), Some(b)) => StrLess(a, b)
    case _ => false
  }

  lemma KeyLessAsymmetric(x: Option<string>, y: Option<string>)
    requires KeyLess(x, y)
    ensures !KeyLess(y, x) && x != y
  {
    if x.Some? {
      StrLessAsymmetric(x.value, y.value);
      StrLessIrreflexive(x.value);
    }
  }

  lemma KeyLessTransitive(x: Option<string>, y: Option<string>, z: Option<string>)
    requires KeyLess(x, y) && KeyLess(y, z)
    ensures KeyLess(x, z)
  {
    if x.Some? {
      StrLessTransitive(x.value, y.value, z.value);
    }
  }

  lemma KeyLessTotal(x: Option<string>, y: Option<string>)
    requires x != y
    ensures KeyLess(x, y) || KeyLess(y, x)
  {
    if x.Some? && y.Some? {
      StrLessTotal(x.value, y.value);
    }
  }

  /**
   * `desc(a, b, orderBy)` as written: -1 when `b[orderBy] < a[orderBy]`, 1
   * when `b[orderBy] > a[orderBy]`, 0 otherwise. A comparison with
   * `undefined` is false both ways, so a missing value ties with every value.
   */
  function AsWrittenDesc(x: Option<string>, y: Option<string>): int {
    if x.Some? && y.Some? && StrLess(y.value, x.value) then -1
    else if x.Some? && y.Some? && StrLess(x.value, y.value) then 1
    else 0
  }

  /**
   * Tying a missing value with every value makes ties intransitive: "b"
   * ties with a missing value and a missing value with "a", yet "b" and
   * "a" differ.
   */
  lemma AsWrittenDescIsInconsistent()
    ensures AsWrittenDesc(Some("b"), None) == 0 && AsWrittenDesc(None, Some("a")) == 0
    ensures AsWrittenDesc(Some("b"), Some("a")) == -1
  {
    assert StrLess("a", "b");
  }

  /** `desc` as written answers 0 exactly when the values are equal or either is missing. */
  lemma AsWrittenDescMeaning(x: Option<string>, y: Option<string>)
    ensures AsWrittenDesc(x, y) == -1 <==> x.Some? && y.Some? && StrLess(y.value, x.value)
    ensures AsWrittenDesc(x, y) == 1 <==> x.Some? && y.Some? && StrLess(x.value, y.value)
    ensures AsWrittenDesc(x, y) == 0 <==> x == y || x.None? || y.None?
  {
    if x.Some? && y.Some? {
      if StrLess(y.value, x.value) {
        StrLessAsymmetric(y.value, x.value);
        StrLessIrreflexive(x.value);
      } else if x != y {
        StrLessTotal(x.value, y.value);
      } else {
        StrLessIrreflexive(x.value);
      }
    }
  }

  /** `desc` over `KeyLess`: -1 when the first value is the larger, 1 when it is the smaller. */
  function Desc(x: Option<string>, y: Option<string>): int {
    if KeyLess(y, x) then -1 else if KeyLess(x, y) then 1 else 0
  }

  /** `Desc` is a three-way comparison: each outcome happens exactly when the values say so. */
  lemma DescMeaning(x: Option<string>, y: Option<string>)
    ensures Desc(x, y) == -1 <==> KeyLess(y, x)
    ensures Desc(x, y) == 1 <==> KeyLess(x, y)
    ensures Desc(x, y) == 0 <==> x == y
    ensures Desc(y, x) == -Desc(x, y)
  {
    if KeyLess(y, x) {
      KeyLessAsymmetric(y, x);
    } else if KeyLess(x, y) {
      KeyLessAsymmetric(x, y);
    } else if x != y {
      KeyLessTotal(x, y);
    }
  }

  /** Where both values are present, `Desc` is `desc` as written. */
  lemma DescAgreesWhenPresent(x: string, y: string)
    ensures Desc(Some(x), Some(y)) == AsWrittenDesc(Some(x), Some(y))
  {
  }

  /** `getSorting(order, orderBy)` applied to two cells: `desc`, or its negation for any other order. */
  function Compare(order: string, x: Option<string>, y: Option<string>): int {
    if order == "desc" then Desc(x, y) else -Desc(x, y)
  }

  /** The order a direction sorts cells in: largest first for "desc", smallest first otherwise. */
  predicate KeyBefore(order: string, x: Option<string>, y: Option<string>) {
    if order == "desc" then KeyLess(y, x) else KeyLess(x, y)
  }

  /** "desc" puts the largest values first; any other order sorts ascending. */
  lemma GetSortingOrder(order: string, x: Option<string>, y: Option<string>)
    ensures Compare(order, x, y) < 0 <==> KeyBefore(order, x, y)
    ensures Compare(order, x, y) == 0 <==> x == y
  {
    DescMeaning(x, y);
  }

  // ---------------------------------------------------------------- stableSort

  /** `[el, index]`: an element with its position in the input. */
  datatype Decorated<T> = Decorated(element: T, index: nat)

  /**
   * The comparator `stableSort` hands to `sort`: the cells' order, and
   * the positions when the cells tie.
   */
  function DecoratedCompare<T>(order: string, key: T -> Option<string>, p: Decorated<T>, q: Decorated<T>): int {
    var c := Compare(order, key(p.element), key(q.element));
    if c != 0 then c else p.index - q.index
  }

  /** `getSorting(order, orderBy)` as written, over `desc` as written. */
  function AsWrittenCompare(order: string, x: Option<string>, y: Option<string>): int {
    if order == "desc" then AsWrittenDesc(x, y) else -AsWrittenDesc(x, y)
  }

  /** The comparator `stableSort` hands to `sort`, over `desc` as written. */
  function AsWrittenDecoratedCompare(order: string, p: Decorated<Option<string>>, q: Decorated<Option<string>>): int {
    var c := AsWrittenCompare(order, p.element, q.element);
    if c != 0 then c else p.index - q.index
  }

  /**
   * With the cells "a", missing and "b" at positions 0, 1 and 2, sorted
   * "desc", the comparator as written puts "a" before the missing cell and
   * the missing cell before "b" (ties broken by position), and "b" before
   * "a": a cycle. No arrangement of the three agrees with every comparison,
   * so the rows shown depend on the comparisons the engine's sort makes.
   */
  lemma AsWrittenDecoratedIsCyclic()
    ensures var a0, m1, b2 := Decorated(Some("a"), 0), Decorated(None, 1), Decorated(Some("b"), 2);
      && AsWrittenDecoratedCompare("desc", a0, m1) < 0
      && AsWrittenDecoratedCompare("desc", m1, b2) < 0
      && AsWrittenDecoratedCompare("desc", b2, a0) < 0
  {
    assert StrLess("a", "b");
  }

  /**
   * Hence however `sort` arranges those three, some element ends up after
   * one the comparator as written puts after it.
   */
  lemma AsWrittenSortIsImpossible(s: seq<Decorated<Option<string>>>)
    requires multiset(s) == multiset{Decorated(Some("a"), 0), Decorated(None, 1), Decorated(Some("b"), 2)}
    ensures exists k, l | 0 <= k < l < |s| :: AsWrittenDecoratedCompare("desc", s[l], s[k]) < 0
  {
    var a0, m1, b2 := Decorated(Some("a"), 0), Decorated(None, 1), Decorated(Some("b"), 2);
    AsWrittenDecoratedIsCyclic();
    assert a0 in multiset(s) && m1 in multiset(s) && b2 in multiset(s);
    var i :| 0 <= i < |s| && s[i] == a0;
    var j :| 0 <= j < |s| && s[j] == m1;
    var k :| 0 <= k < |s| && s[k] == b2;
    if j < i {
      assert AsWrittenDecoratedCompare("desc", s[i], s[j]) < 0;
    } else if k < j {
      assert AsWrittenDecoratedCompare("desc", s[j], s[k]) < 0;
    } else {
      assert i < k && AsWrittenDecoratedCompare("desc", s[k], s[i]) < 0;
    }
  }

  predicate Before<T>(order: string, key: T -> Option<string>, p: Decorated<T>, q: Decorated<T>) {
    DecoratedCompare(order, key, p, q) < 0
  }

  /** The decorated comparator orders by cell first and by position among equal cells. */
  lemma BeforeMeaning<T>(order: string, key: T -> Option<string>, p: Decorated<T>, q: Decorated<T>)
    ensures Before(order, key, p, q) <==>
      KeyBefore(order, key(p.element), key(q.element)) || (key(p.element) == key(q.element) && p.index < q.index)
  {
    GetSortingOrder(order, key(p.element), key(q.element));
  }

  lemma BeforeAsymmetric<T>(order: string, key: T -> Option<string>, p: Decorated<T>, q: Decorated<T>)
    requires Before(order, key, p, q)
    ensures !Before(order, key, q, p)
  {
    BeforeMeaning(order, key, p, q);
    BeforeMeaning(order, key, q, p);
    var x, y := key(p.element), key(q.element);
    if order == "desc" {
      if KeyLess(y, x) { KeyLessAsymmetric(y, x); }
    } else {
      if KeyLess(x, y) { KeyLessAsymmetric(x, y); }
    }
  }

  /** Not coming after is transitive. */
  lemma NotAfterTransitive<T>(order: string, key: T -> Option<string>, p: Decorated<T>, q: Decorated<T>, r: Decorated<T>)
    requires !Before(order, key, q, p) && !Before(order, key, r, q)
    ensures !Before(order, key, r, p)
  {
    BeforeMeaning(order, key, q, p);
    BeforeMeaning(order, key, r, q);
    BeforeMeaning(order, key, r, p);
    var x, y, z := key(p.element), key(q.element), key(r.element);
    if x != y { KeyLessTotal(x, y); }
    if y != z { KeyLessTotal(y, z); }
    if KeyLess(x, y) && KeyLess(y, z) { KeyLessTransitive(x, y, z); }
    if KeyLess(z, y) && KeyLess(y, x) { KeyLessTransitive(z, y, x); }
    if order == "desc" {
      if KeyLess(x, z) { KeyLessAsymmetric(x, z); }
    } else {
      if KeyLess(z, x) { KeyLessAsymmetric(z, x); }
    }
  }

  /** Every element of the decorated array is one of the input's, at its own position. */
  ghost predicate Tracks<T>(rows: seq<T>, s: seq<Decorated<T>>) {
    && (forall k | 0 <= k < |s| :: s[k].index < |rows| && s[k].element == rows[s[k].index])
    && (forall k, l | 0 <= k < l < |s| :: s[k].index != s[l].index)
  }

  /** No element comes, by the decorated comparator, before an element on its left. */
  predicate SortedBy<T>(order: string, key: T -> Option<string>, s: seq<Decorated<T>>) {
    forall k, l | 0 <= k < l < |s| :: !Before(order, key, s[l], s[k])
  }

  /**
   * Part way through a round of insertion: the first `i + 1` elements are
   * sorted but for the one at `j`, which comes before none on its right.
   */
  predicate Inserting<T>(order: string, key: T -> Option<string>, s: seq<Decorated<T>>, i: nat, j: nat) {
    && j <= i < |s|
    && (forall k, l | 0 <= k < l <= i && k != j && l != j :: !Before(order, key, s[l], s[k]))
    && (forall l | j < l <= i :: !Before(order, key, s[l], s[j]))
  }

  /** Swapping the moving element with its left neighbour, which it comes before, keeps the round going. */
  lemma SwapStep<T>(rows: seq<T>, order: string, key: T -> Option<string>, s: seq<Decorated<T>>, i: nat, j: nat)
    requires Tracks(rows, s) && Inserting(order, key, s, i, j)
    requires 0 < j && Before(order, key, s[j], s[j - 1])
    ensures var t := s[j - 1 := s[j]][j := s[j - 1]];
      Tracks(rows, t) && Inserting(order, key, t, i, j - 1)
  {
    BeforeAsymmetric(order, key, s[j], s[j - 1]);
  }

  /** A round that stops where the moving element does not come before its left neighbour is done. */
  lemma InsertDone<T>(order: string, key: T -> Option<string>, s: seq<Decorated<T>>, i: nat, j: nat)
    requires Inserting(order, key, s, i, j)
    requires j == 0 || !Before(order, key, s[j], s[j - 1])
    ensures SortedBy(order, key, s[..i + 1])
  {
    if j > 0 {
      forall k | 0 <= k < j - 1
        ensures !Before(order, key, s[j], s[k])
      {
        NotAfterTransitive(order, key, s[k], s[j - 1], s[j]);
      }
    }
  }

  /** One round of insertion: the element at `i` moves left past every element it comes before. */
  method Insert<T>(a: array<Decorated<T>>, i: nat, order: string, key: T -> Option<string>, ghost rows: seq<T>)
    requires i < a.Length
    requires Tracks(rows, a[..]) && SortedBy(order, key, a[..i])
    modifies a
    ensures Tracks(rows, a[..]) && SortedBy(order, key, a[..i + 1])
  {
    var j: nat := i;
    assert Inserting(order, key, a[..], i, j);
    while j > 0 && Before(order, key, a[j], a[j - 1])
      invariant Tracks(rows, a[..]) && Inserting(order, key, a[..], i, j)
    {
      SwapStep(rows, order, key, a[..], i, j);
      a[j - 1], a[j] := a[j], a[j - 1];
      j := j - 1;
    }
    InsertDone(order, key, a[..], i, j);
  }

  /**
   * `stabilizedThis.sort(...)`: the decorated array sorted in place. The
   * engine's sort algorithm is not fixed by the language; insertion sort
   * stands for it, and since positions are distinct the order is total and
   * every correct sort gives the same array.
   */
  method SortDecorated<T>(a: array<Decorated<T>>, order: string, key: T -> Option<string>, ghost rows: seq<T>)
    requires Tracks(rows, a[..])
    modifies a
    ensures Tracks(rows, a[..])
    ensures SortedBy(order, key, a[..])
  {
    for i := 0 to a.Length
      invariant Tracks(rows, a[..])
      invariant SortedBy(order, key, a[..i])
    {
      Insert(a, i, order, key, rows);
    }
  }

  /**
   * `stableSort(array, cmp)`: the input's elements, each once, ordered by
   * the cells, with elements whose cells are equal in their input order.
   * `origin` gives the input position of each output element; the input
   * array is not modified.
   */
  method StableSort<T>(rows: array<T>, order: string, key: T -> Option<string>) returns (sorted: seq<T>, ghost origin: seq<nat>)
    ensures |sorted| == rows.Length && |origin| == rows.Length
    // a permutation: a one-to-one choice of input positions, hence the same multiset
    ensures multiset(sorted) == multiset(rows[..])
    ensures forall i | 0 <= i < |sorted| :: origin[i] < rows.Length && sorted[i] == rows[origin[i]]
    ensures forall i, j | 0 <= i < j < |sorted| :: origin[i] != origin[j]
    // ordered by the cells
    ensures forall i, j | 0 <= i < j < |sorted| :: !KeyBefore(order, key(sorted[j]), key(sorted[i]))
    // stable
    ensures forall i, j | 0 <= i < j < |sorted| && key(sorted[i]) == key(sorted[j]) :: origin[i] < origin[j]
  {
    var a := new Decorated<T>[rows.Length](i requires 0 <= i < rows.Length reads rows => Decorated(rows[i], i));
    SortDecorated(a, order, key, rows[..]);
    sorted := seq(a.Length, i requires 0 <= i < a.Length reads a => a[i].element);
    origin := seq(a.Length, i requires 0 <= i < a.Length reads a => a[i].index);
    Undecorate(rows[..], a[..], order, key, sorted, origin);
  }

  /** `stabilizedThis.map(el => el[0])` of a sorted decorated array: the sorted, stable permutation. */
  lemma Undecorate<T>(rows: seq<T>, s: seq<Decorated<T>>, order: string, key: T -> Option<string>, sorted: seq<T>, origin: seq<nat>)
    requires |s| == |rows| && Tracks(rows, s) && SortedBy(order, key, s)
    requires |sorted| == |s| && forall i | 0 <= i < |s| :: sorted[i] == s[i].element
    requires |origin| == |s| && forall i | 0 <= i < |s| :: origin[i] == s[i].index
    ensures Chooses(rows, sorted, origin) && multiset(sorted) == multiset(rows)
    ensures forall i, j | 0 <= i < j < |sorted| :: !KeyBefore(order, key(sorted[j]), key(sorted[i]))
    ensures forall i, j | 0 <= i < j < |sorted| && key(sorted[i]) == key(sorted[j]) :: origin[i] < origin[j]
  {
    forall i, j | 0 <= i < j < |sorted|
      ensures !KeyBefore(order, key(sorted[j]), key(sorted[i]))
      ensures key(sorted[i]) == key(sorted[j]) ==> origin[i] < origin[j]
    {
      BeforeMeaning(order, key, s[j], s[i]);
    }
    PositionsArePermutation(rows, sorted, origin);
  }

  /** The positions `0 .. n - 1` as a set. */
  ghost function Positions(n: nat): (r: set<nat>)
    ensures |r| == n && forall v: nat :: v in r <==> v < n
  {
    if n == 0 then {} else
      var r := Positions(n - 1) + {n - 1};
      assert n - 1 !in Positions(n - 1);
      r
  }

  /** The values of `origin`; there are as many as positions when no two are equal. */
  lemma {:induction false} ImageSize(origin: seq<nat>)
    requires forall i, j | 0 <= i < j < |origin| :: origin[i] != origin[j]
    ensures |set i | 0 <= i < |origin| :: origin[i]| == |origin|
  {
    if origin != [] {
      var n := |origin|;
      var front := origin[..n - 1];
      ImageSize(front);
      var image := set i | 0 <= i < n :: origin[i];
      var frontImage := set i | 0 <= i < n - 1 :: front[i];
      assert image == frontImage + {origin[n - 1]};
      assert origin[n - 1] !in frontImage;
    }
  }

  /** Distinct input positions, as many as there are inputs, take in every input position. */
  lemma EveryPosition(origin: seq<nat>, v: nat) returns (p: nat)
    requires forall i | 0 <= i < |origin| :: origin[i] < |origin|
    requires forall i, j | 0 <= i < j < |origin| :: origin[i] != origin[j]
    requires v < |origin|
    ensures p < |origin| && origin[p] == v
  {
    var image := set i | 0 <= i < |origin| :: origin[i];
    ImageSize(origin);
    var all := Positions(|origin|);
    assert image <= all;
    assert |all - image| == 0;
    assert v in all;
    p :| 0 <= p < |origin| && origin[p] == v;
  }

  /** The sequence without its element at `p`. */
  function RemoveAt<X>(s: seq<X>, p: nat): (r: seq<X>)
    requires p < |s|
    ensures |r| == |s| - 1
    ensures forall i | 0 <= i < |r| :: r[i] == s[if i < p then i else i + 1]
  {
    s[..p] + s[p + 1..]
  }

  lemma MultisetRemoveAt<X>(s: seq<X>, p: nat)
    requires p < |s|
    ensures multiset(s) == multiset(RemoveAt(s, p)) + multiset{s[p]}
  {
    assert s == s[..p] + [s[p]] + s[p + 1..];
  }

  /** A one-to-one choice of input positions for `sorted`. */
  ghost predicate Chooses<T>(rows: seq<T>, sorted: seq<T>, origin: seq<nat>) {
    && |sorted| == |rows| && |origin| == |rows|
    && (forall i | 0 <= i < |sorted| :: origin[i] < |rows| && sorted[i] == rows[origin[i]])
    && (forall i, j | 0 <= i < j < |sorted| :: origin[i] != origin[j])
  }

  /** Taking out the element chosen from the last input position leaves a choice from the rest. */
  lemma DropLast<T>(rows: seq<T>, sorted: seq<T>, origin: seq<nat>, p: nat)
    requires Chooses(rows, sorted, origin) && p < |origin| && origin[p] == |rows| - 1
    ensures Chooses(rows[..|rows| - 1], RemoveAt(sorted, p), RemoveAt(origin, p))
  {
    var sorted', origin' := RemoveAt(sorted, p), RemoveAt(origin, p);
    forall i, j | 0 <= i < j < |sorted'|
      ensures origin'[i] != origin'[j]
    {
      var k := if i < p then i else i + 1;
      var l := if j < p then j else j + 1;
      assert k < l;
    }
  }

  /**
   * A one-to-one choice of input positions gives back the input's elements,
   * each as often as it occurs.
   */
  lemma {:induction false} PositionsArePermutation<T>(rows: seq<T>, sorted: seq<T>, origin: seq<nat>)
    requires Chooses(rows, sorted, origin)
    ensures multiset(sorted) == multiset(rows)
  {
    var n := |rows|;
    if n == 0 {
      assert sorted == [] && rows == [];
    } else {
      var p := EveryPosition(origin, n - 1);
      var last := sorted[p];
      assert last == rows[n - 1];
      DropLast(rows, sorted, origin, p);
      var sorted', rows' := RemoveAt(sorted, p), rows[..n - 1];
      PositionsArePermutation(rows', sorted', RemoveAt(origin, p));
      MultisetRemoveAt(sorted, p);
      assert rows == rows' + [last];
      assert multiset(sorted) == multiset(sorted') + multiset{last} == multiset(rows') + multiset{last};
    }
  }

  // ---------------------------------------------------------------- the table's columns and state

  /** `row[orderBy]` for an observation row; an unknown column reads as undefined. */
  function Cell(column: string): Row -> Option<string> {
    (row: Row) =>
      if column == "code" then row.code
      else if column == "value" then row.value
      else if column == "issued" then row.issued
      else if column == "categories" then Some(row.categories)
      else if column == "interpretations" then Some(row.interpretations)
      else None
  }

  /**
   * `handleRequestSort`: clicking the column already sorted "desc" sorts it
   * "asc"; any other click sorts the clicked column "desc".
   */
  function NextOrder(order: string, orderBy: string, property: string): (r: string)
    ensures r == "asc" <==> orderBy == property && order == "desc"
    ensures r != "asc" ==> r == "desc"
  {
    if orderBy == property && order == "desc" then "asc" else "desc"
  }

  /** Clicking the same column again and again alternates between "desc" and "asc". */
  lemma ClicksAlternate(order: string, orderBy: string, property: string)
    ensures var first := NextOrder(order, orderBy, property);
      NextOrder(first, property, property) != first
      && NextOrder(NextOrder(first, property, property), property, property) == first
  {
  }

  /** The table's `order` and `orderBy` state. */
  class TableState {
    var order: string
    var orderBy: string

    constructor()
      ensures order == "asc" && orderBy == "issued"
    {
      order, orderBy := "asc", "issued";
    }

    method HandleRequestSort(property: string)
      modifies this
      ensures orderBy == property
      ensures order == NextOrder(old(order), old(orderBy), property)
    {
      order := NextOrder(order, orderBy, property);
      orderBy := property;
    }

    /**
     * The rows as the table shows them: sorted by the column in the
     * direction, rows with equal cells in their input order. `origin` gives
     * the input position of each row shown.
     */
    method SortedRows(rows: array<Row>) returns (shown: seq<Row>, ghost origin: seq<nat>)
      ensures |shown| == rows.Length && |origin| == rows.Length && multiset(shown) == multiset(rows[..])
      ensures forall i | 0 <= i < |shown| :: origin[i] < rows.Length && shown[i] == rows[origin[i]]
      ensures forall i, j | 0 <= i < j < |shown| :: origin[i] != origin[j]
      ensures forall i, j | 0 <= i < j < |shown| :: !KeyBefore(order, Cell(orderBy)(shown[j]), Cell(orderBy)(shown[i]))
      ensures forall i, j | 0 <= i < j < |shown| && Cell(orderBy)(shown[i]) == Cell(orderBy)(shown[j]) :: origin[i] < origin[j]
    {
      shown, origin := StableSort(rows, order, Cell(orderBy));
    }
  }
}
