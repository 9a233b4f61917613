/** First-exact-match search over a key column: the meaning of an
    exact-match VLOOKUP (range_lookup = FALSE) before it reads a result column. */
module ExactMatch {

  datatype Option<+T> = None | Some(value: T)

  /** The key column of a table: `key` of every row, in order. */
  function Column<T>(rows: seq<T>, key: T -> string): (col: seq<string>)
    ensures |col| == |rows|
    ensures forall i :: 0 <= i < |rows| ==> col[i] == key(rows[i])
  {
    seq(|rows|, i requires 0 <= i < |rows| => key(rows[i]))
  }

  /** Index of the first element equal to `key`; None when no element is. */
  function IndexOf<T(==)>(keys: seq<T>, key: T): (r: Option<nat>)
    ensures r.Some? ==> r.value < |keys| && keys[r.value] == key
    ensures r.None? <==> key !in keys
  {
    if |keys| == 0 then None
    else if keys[0] == key then Some(0)
    else match IndexOf(keys[1..], key)
         case None => None
         case Some(j) => Some(j + 1)
  }

  /** The match found is the first one: no earlier element equals `key`. */
  lemma {:induction false} IndexOfFirst<T>(keys: seq<T>, key: T)
    ensures IndexOf(keys, key).Some? ==> forall j :: 0 <= j < IndexOf(keys, key).value ==> keys[j] != key
  {
    if |keys| > 0 && keys[0] != key {
      IndexOfFirst(keys[1..], key);
    }
  }

  /** Any index holding `key` is at or after the first match. */
  lemma {:induction false} IndexOfIsFirst<T>(keys: seq<T>, key: T, i: nat)
    requires i < |keys| && keys[i] == key
    ensures IndexOf(keys, key).Some? && IndexOf(keys, key).value <= i
  {
    if keys[0] != key {
      IndexOfIsFirst(keys[1..], key, i - 1);
    }
  }

  /** Conversely, an index holding `key` with no earlier match is the first match. */
  lemma IndexOfAt<T>(keys: seq<T>, key: T, i: nat)
    requires i < |keys| && keys[i] == key
    requires forall j :: 0 <= j < i ==> keys[j] != key
    ensures IndexOf(keys, key) == Some(i)
  {
    IndexOfIsFirst(keys, key, i);
  }

  /** Over pairwise distinct keys, the search for key i finds index i. */
  lemma IndexOfDistinct<T>(keys: seq<T>, i: nat)
    requires i < |keys|
    requires forall a, b :: 0 <= a < b < |keys| ==> keys[a] != keys[b]
    ensures IndexOf(keys, keys[i]) == Some(i)
  {
    IndexOfAt(keys, keys[i], i);
  }
}
