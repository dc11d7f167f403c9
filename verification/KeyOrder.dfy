/** The keys of the log store and the order that its comparator gives them. */
module KeyOrder {
  import opened RaftTypes
  import opened Coding

  // ---------- the comparator

  /** U32ComparatorImpl::Compare: the sign of the difference, taken as an int32_t. */
  function Compare(a: nat, b: nat): int
    requires a < U32 && b < U32
  {
    var diff := ToI32(a - b);
    if diff < 0 then -1 else if diff > 0 then 1 else 0
  }

  /** The comparator says what unsigned order says, for both ways of asking. */
  ghost predicate Agrees(a: nat, b: nat)
    requires a < U32 && b < U32
  {
    && (Compare(a, b) < 0 <==> a < b) && (Compare(a, b) > 0 <==> a > b)
    && (Compare(b, a) < 0 <==> b < a) && (Compare(b, a) > 0 <==> b > a)
  }

  /** The comparator is unsigned order on two keys exactly if they are less than 2^31 apart. */
  lemma AgreesExactly(a: nat, b: nat)
    requires a < U32 && b < U32
    ensures Agrees(a, b) <==> -(I32 as int) < a - b < I32
  {
  }

  /** Below 2^31 the comparator is a total order: the unsigned one. */
  lemma OrderBelow(a: nat, b: nat)
    requires a < I32 && b < I32
    ensures Agrees(a, b)
  {
    AgreesExactly(a, b);
  }

  // ---------- the layout

  /** Key of an index's meta data; for index 0 the source wraps around to a key that is never stored, here -1. */
  function MetaKey(index: nat): int {
    index * 2 - 1
  }

  function DataKey(index: nat): int {
    index * 2
  }

  /** The log index of a key: of either parity. */
  function IndexOfKey(key: int): int {
    (key + 1) / 2
  }

  /** Indexes and keys above 0 correspond, an odd and an even key to each index. */
  lemma KeysInvert(index: nat, key: nat)
    ensures IndexOfKey(MetaKey(index)) == index && IndexOfKey(DataKey(index)) == index
    ensures key % 2 == 1 ==> MetaKey(IndexOfKey(key)) == key
    ensures key % 2 == 0 ==> DataKey(IndexOfKey(key)) == key
  {
  }

  /** Log indexes below this bound have keys that the comparator sorts as numbers. */
  const MAX_INDEX: nat := 0x4000_0000

  /** The comparator sorts key 0 and the keys of the indexes 1 .. n as numbers. */
  ghost predicate Sorted(n: nat)
    requires DataKey(n) < U32
  {
    forall x: nat, y: nat | x < y <= DataKey(n) :: Compare(x, y) < 0 && Compare(y, x) > 0
  }

  /** The layout is in order exactly for logs with indexes below 2^30. */
  lemma LayoutSortedExactly(n: nat)
    requires DataKey(n) < U32
    ensures Sorted(n) <==> n < MAX_INDEX
  {
    if n < MAX_INDEX {
      forall x: nat, y: nat | x < y <= DataKey(n)
        ensures Compare(x, y) < 0 && Compare(y, x) > 0
      {
        OrderBelow(x, y);
      }
    } else {
      assert Compare(DataKey(n), 0) < 0;
    }
  }
}
