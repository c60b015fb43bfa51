/**
 * The Python and numpy value semantics the three core files lean on:
 * numbers that arrive as ints or floats, the exceptions numpy raises,
 * Python's negative-index wrap-around, the guarded table write
 * `if index >= len: return; table[index] = value`, rectangular 2-D arrays
 * and numpy's row selection `array[rows, :]`.
 */
module PyValues {

  datatype Option<T> = None | Some(value: T)

  /** A Python number as an OSC message delivers it: an int or a float. */
  datatype Number = Int(i: int) | Float(f: real)

  /** The number's value, as float arithmetic sees it. */
  function ToReal(n: Number): real
  {
    match n
    case Int(i) => i as real
    case Float(f) => f
  }

  /**
   * The integer numpy keeps when a float is stored into an integer array:
   * the float truncated toward zero.
   */
  function TruncatedTowardZero(f: real): (r: int)
    ensures -1.0 < f - r as real < 1.0
    ensures 0.0 <= f ==> 0 <= r && r as real <= f
    ensures f <= 0.0 ==> r <= 0 && f <= r as real
  {
    if 0.0 <= f then f.Floor else -((-f).Floor)
  }

  /**
   * The value stored when a number is assigned into a numpy int32 table:
   * floats are truncated toward zero.
   */
  function ToInt32(n: Number): (r: int)
    ensures n.Int? ==> r == n.i
    ensures n.Float? ==> -1.0 < n.f - r as real < 1.0 && (0.0 <= n.f ==> 0 <= r) && (n.f <= 0.0 ==> r <= 0)
  {
    match n
    case Int(i) => i
    case Float(f) => TruncatedTowardZero(f)
  }

  /** The exceptions the modelled code can raise. */
  datatype PyError = IndexError | ValueError

  /**
   * What one call did: Done (state updated), Ignored (returned early on
   * purpose, state untouched) or Raised (an exception left the call).
   */
  datatype Outcome = Done | Ignored | Raised(error: PyError)

  /** Python accepts an index i into a sequence of length n when -n <= i < n. */
  predicate InBounds(i: int, n: nat)
  {
    -(n as int) <= i < n
  }

  /** The position Python reads for an accepted index: negative indices count from the end. */
  function Wrap(i: int, n: nat): (k: nat)
    requires InBounds(i, n)
    ensures k < n && k % n == i % n
  {
    if i < 0 then i + n else i
  }

  /** Where the guarded write `if index >= n: return; table[index] = v` lands. */
  datatype Slot = PastEnd | At(k: nat) | Rejected

  function GuardedSlot(index: Number, n: nat): Slot
  {
    match index
    case Int(i) =>
      if i >= n then PastEnd
      else if InBounds(i, n) then At(Wrap(i, n))
      else Rejected
    case Float(f) =>
      // numpy refuses a float subscript, but only once the bound check has let it through
      if f >= n as real then PastEnd else Rejected
  }

  /** The table after the guarded write of v. */
  function Written<T>(s: seq<T>, slot: Slot, v: T): seq<T>
    requires slot.At? ==> slot.k < |s|
  {
    if slot.At? then s[slot.k := v] else s
  }

  /** What the guarded write reports: a silent return past the end, an IndexError below -n. */
  function SlotOutcome(slot: Slot): Outcome
  {
    match slot
    case PastEnd => Ignored
    case At(_) => Done
    case Rejected => Raised(IndexError)
  }

  /**
   * The guarded write lands on a slot exactly for the integer indices
   * -n <= i < n; a negative index and the index n places further write the
   * same slot; every index at or past n is a silent no-op.
   */
  lemma GuardedSlotCases(index: Number, n: nat)
    ensures GuardedSlot(index, n).At? <==> index.Int? && InBounds(index.i, n)
    ensures GuardedSlot(index, n).At? ==> GuardedSlot(index, n).k < n
    ensures GuardedSlot(index, n) == PastEnd <==> ToReal(index) >= n as real
    ensures index.Int? && 0 <= index.i < n ==> GuardedSlot(Int(index.i - n), n) == GuardedSlot(index, n) == At(index.i)
  {
  }

  /** Exactly one entry changes when the guarded write lands, and none otherwise. */
  lemma WrittenChangesOneSlot<T>(s: seq<T>, slot: Slot, v: T, j: nat)
    requires slot.At? ==> slot.k < |s|
    requires j < |s|
    ensures |Written(s, slot, v)| == |s|
    ensures Written(s, slot, v)[j] == if slot.At? && slot.k == j then v else s[j]
  {
  }

  // ----- numpy 2-D arrays -----

  /** A 2-D numpy array given by its column count and its rows. */
  datatype Grid = Grid(width: nat, rows: seq<seq<real>>)

  ghost predicate Rectangular(g: Grid)
  {
    forall r :: 0 <= r < |g.rows| ==> |g.rows[r]| == g.width
  }

  /** numpy arrays are rectangular: every row has `width` entries. */
  type Array2 = g: Grid | Rectangular(g) witness Grid(0, [])

  /** All the selected rows exist (Python index rules). */
  predicate AllInBounds(rows: seq<int>, n: nat)
  {
    forall j :: 0 <= j < |rows| ==> InBounds(rows[j], n)
  }

  /**
   * numpy's `a[rows, :]`: a new array of the selected rows, in the order of
   * `rows`; IndexError (None) when one of them does not exist.
   */
  function Take(a: Array2, rows: seq<int>): (r: Option<Array2>)
    ensures r.Some? <==> AllInBounds(rows, |a.rows|)
    ensures r.Some? ==> r.value.width == a.width && |r.value.rows| == |rows|
  {
    if AllInBounds(rows, |a.rows|) then
      var selected: Array2 := Grid(a.width, seq(|rows|, j requires 0 <= j < |rows| => a.rows[Wrap(rows[j], |a.rows|)]));
      Some(selected)
    else
      None
  }

  /** Row j of the selection is the row `rows[j]` names, counted from the end when negative. */
  lemma TakeRow(a: Array2, rows: seq<int>, j: nat)
    requires AllInBounds(rows, |a.rows|) && j < |rows|
    ensures |Take(a, rows).value.rows| == |rows|
    ensures 0 <= rows[j] ==> Take(a, rows).value.rows[j] == a.rows[rows[j]]
    ensures rows[j] < 0 ==> Take(a, rows).value.rows[j] == a.rows[|a.rows| + rows[j]]
  {
  }

  /** Selecting the rows 0, 1, ..., n-1 of an n-row array gives the array back. */
  lemma TakeAllRows(a: Array2, rows: seq<int>)
    requires |rows| == |a.rows|
    requires forall j :: 0 <= j < |rows| ==> rows[j] == j
    ensures Take(a, rows) == Some(a)
  {
    assert AllInBounds(rows, |a.rows|);
    var t := Take(a, rows).value;
    assert t.rows == a.rows;
  }
}
