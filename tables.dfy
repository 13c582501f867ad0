/**
 * Rows of a table kept in primary-key order, as the store hands them back,
 * with the lookups the application issues against them.
 */
module Tables {
  import opened Wrappers

  /** `FirstOrDefault(row => matches(q, row))`: the index of the first matching row. */
  function FindFirst<Q, T>(rows: seq<T>, matches: (Q, T) -> bool, q: Q): (r: Option<nat>)
    ensures r.Some? ==> r.value < |rows| && matches(q, rows[r.value])
    ensures r.Some? ==> forall j :: 0 <= j < r.value ==> !matches(q, rows[j])
    ensures r.None? <==> forall j :: 0 <= j < |rows| ==> !matches(q, rows[j])
  {
    if rows == [] then None
    else if matches(q, rows[0]) then Some(0)
    else match FindFirst(rows[1..], matches, q)
      case None => None
      case Some(k) => Some(k + 1)
  }

  /** Store-assigned keys: positive, strictly increasing with the row position, below the next key to hand out. */
  ghost predicate KeysIncreasing<T>(rows: seq<T>, key: T -> int, next: int) {
    && next >= 1
    && (forall i :: 0 <= i < |rows| ==> 0 < key(rows[i]) < next)
    && (forall i, j :: 0 <= i < j < |rows| ==> key(rows[i]) < key(rows[j]))
  }

  /** Removing the row at `k` (`DbSet.Remove`). */
  function RemoveAt<T>(rows: seq<T>, k: nat): (r: seq<T>)
    requires k < |rows|
    ensures |r| == |rows| - 1
    ensures forall j :: 0 <= j < k ==> r[j] == rows[j]
    ensures forall j :: k <= j < |r| ==> r[j] == rows[j + 1]
  {
    rows[..k] + rows[k + 1..]
  }

  /** With increasing keys a key names at most one row. */
  lemma KeyNamesOneRow<T>(rows: seq<T>, key: T -> int, next: int, k: nat, j: nat)
    requires KeysIncreasing(rows, key, next)
    requires k < |rows| && j < |rows| && key(rows[k]) == key(rows[j])
    ensures k == j
  {
  }

  lemma AppendKeepsKeysIncreasing<T>(rows: seq<T>, key: T -> int, next: int, row: T)
    requires KeysIncreasing(rows, key, next) && key(row) == next
    ensures KeysIncreasing(rows + [row], key, next + 1)
  {
  }

  lemma RemoveKeepsKeysIncreasing<T>(rows: seq<T>, key: T -> int, next: int, k: nat)
    requires KeysIncreasing(rows, key, next) && k < |rows|
    ensures KeysIncreasing(RemoveAt(rows, k), key, next)
  {
    var r := RemoveAt(rows, k);
    forall i, j | 0 <= i < j < |r| ensures key(r[i]) < key(r[j]) {
      var i' := if i < k then i else i + 1;
      var j' := if j < k then j else j + 1;
      assert r[i] == rows[i'] && r[j] == rows[j'];
    }
  }

  lemma ReplaceKeepsKeysIncreasing<T>(rows: seq<T>, key: T -> int, next: int, k: nat, row: T)
    requires KeysIncreasing(rows, key, next) && k < |rows| && key(row) == key(rows[k])
    ensures KeysIncreasing(rows[k := row], key, next)
  {
  }

  // ---------------------------------------------------------------------
  // String comparison as the store evaluates it
  // ---------------------------------------------------------------------

  /** The string without its trailing U+0020 spaces. */
  function TrimTrailingSpaces(s: string): (r: string)
    ensures |r| <= |s| && r == s[..|r|]
    ensures forall i :: |r| <= i < |s| ==> s[i] == ' '
    ensures r != [] ==> r[|r| - 1] != ' '
  {
    if s != [] && s[|s| - 1] == ' ' then TrimTrailingSpaces(s[..|s| - 1]) else s
  }

  /**
   * `a = b` on strings in SQL Server: the shorter operand is padded with spaces
   * before comparing, so trailing spaces do not count.
   */
  predicate SqlEquals(a: string, b: string) {
    TrimTrailingSpaces(a) == TrimTrailingSpaces(b)
  }

  function Spaces(n: nat): (r: string)
    ensures |r| == n && forall i :: 0 <= i < n ==> r[i] == ' '
  {
    seq(n, _ => ' ')
  }

  /** Appending spaces to a string leaves it equal to itself under the store's comparison. */
  lemma {:induction false} TrailingSpacesIgnored(a: string, n: nat)
    ensures SqlEquals(a + Spaces(n), a)
  {
    var b := a + Spaces(n);
    if n == 0 {
      assert b == a;
    } else {
      assert b[|b| - 1] == ' ' && b[..|b| - 1] == a + Spaces(n - 1);
      TrailingSpacesIgnored(a, n - 1);
    }
  }
}
