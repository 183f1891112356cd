/** Records as the component handles them: plain JavaScript objects whose
    values are numbers, strings or `undefined`. A record keeps its properties
    in creation order; `Object.keys` lists them in ECMAScript's own-key
    order, array-index keys first. */
module Records {
  import opened Seqs
  import opened Text

  /** A cell value. Numbers are the results of the number conversion of
      `NumberFormat`; `NaN` is the not-a-number `parseFloat` returns for a
      field with no numeric prefix (the empty field among them); `Undef`
      is JavaScript's `undefined`. */
  datatype Value = Num(x: real) | NaN | Str(s: string) | Undef

  /** The JavaScript number semantics the pipeline uses, taken as given:
      the global `isNaN` applied to a string, `parseFloat` (`None` where it
      returns NaN), and the conversion of a number to a property key
      (`String(x)`). */
  datatype NumberFormat = NumberFormat(
    isNaN: string -> bool,
    parseFloat: string -> Option<real>,
    show: real -> string)

  /** An object: its own properties in the order they were created, and
      the value each holds. */
  datatype Record = Record(created: seq<string>, props: map<string, Value>)

  const EmptyRecord := Record([], map[])

  /** Every created key holds a value, every value sits under a created key,
      and no key is created twice. */
  ghost predicate WellFormed(r: Record) {
    && Distinct(r.created)
    && forall k :: k in r.created <==> k in r.props
  }

  /** Property read `r[k]`: the value stored under `k`, or `undefined` when
      `r` has no such property. */
  function Lookup(r: Record, k: string): Value {
    if k in r.props then r.props[k] else Undef
  }

  /** Property write `r[k] = v`: overwrites an existing property in place,
      or creates a new one after all existing properties. Afterwards `k`
      reads as `v` and every other key reads as before. */
  function Assign(r: Record, k: string, v: Value): (r': Record)
    ensures Lookup(r', k) == v
    ensures forall k' :: k' != k ==> Lookup(r', k') == Lookup(r, k')
  {
    Record(if k in r.props then r.created else r.created + [k], r.props[k := v])
  }

  /** Writes keep a record well formed: a key is created at most once. */
  lemma AssignKeepsWellFormed(r: Record, k: string, v: Value)
    requires WellFormed(r)
    ensures WellFormed(Assign(r, k, v))
    ensures Assign(r, k, v).created == if k in r.created then r.created else r.created + [k]
  {
    if k !in r.created {
      assert multiset(r.created)[k] == 0;
    }
  }

  /** The ECMAScript own-key order of an object whose keys were created in
      the order `created`: the array-index keys in ascending numeric order,
      then every other key in creation order. */
  function OwnKeys(created: seq<string>): seq<string> {
    SortBy(Filter(created, IsArrayIndex), IndexValue) + Filter(created, IsOtherKey)
  }

  /** The own-key order lists the same keys, each as often as before, puts
      every array index before every other key and in ascending order, and
      keeps the other keys in creation order. */
  lemma OwnKeysOrder(created: seq<string>)
    ensures var ks := OwnKeys(created);
      && multiset(ks) == multiset(created)
      && (forall i, j :: 0 <= i < j < |ks| && IsArrayIndex(ks[j]) ==>
            IsArrayIndex(ks[i]) && IndexValue(ks[i]) <= IndexValue(ks[j]))
      && Filter(ks, IsOtherKey) == Filter(created, IsOtherKey)
  {
    var indices := SortBy(Filter(created, IsArrayIndex), IndexValue);
    var others := Filter(created, IsOtherKey);
    var ks := indices + others;
    SortedFilterSatisfies(created, IsArrayIndex, IndexValue);
    assert multiset(ks) == multiset(created) by {
      FilterPartition(created, IsArrayIndex, IsOtherKey);
    }
    assert Filter(ks, IsOtherKey) == others by {
      FilterAppend(indices, others, IsOtherKey);
      FilterNone(indices, IsOtherKey);
      FilterAll(others, IsOtherKey);
    }
    forall i, j | 0 <= i < j < |ks| && IsArrayIndex(ks[j])
      ensures IsArrayIndex(ks[i]) && IndexValue(ks[i]) <= IndexValue(ks[j])
    {
      assert ks[i] == indices[i] && ks[j] == indices[j];
    }
  }

  /** When no key is an array index, the own-key order is creation order. */
  lemma OwnKeysInCreationOrder(created: seq<string>)
    requires forall i :: 0 <= i < |created| ==> !IsArrayIndex(created[i])
    ensures OwnKeys(created) == created
  {
    FilterNone(created, IsArrayIndex);
    FilterAll(created, IsOtherKey);
  }

  /** `Object.keys(r)`. */
  function Keys(r: Record): seq<string> {
    OwnKeys(r.created)
  }
}
