/**
 * Partial-field update, the loop shared by `update_company`, `update_user` and
 * `update_farmer` in backend/crud.py: for each (column, value) the client supplied,
 * `setattr(row, column, value)`. A supplied update is a dictionary, so it names each
 * column at most once; here it is a sequence of fields with distinct columns.
 */
module Updates {

  /** The record after setting each field of `update` in turn. */
  function Patched<R, F>(r: R, update: seq<F>, setField: (R, F) -> R): R
    decreases |update|
  {
    if update == [] then r
    else setField(Patched(r, update[..|update| - 1], setField), update[|update| - 1])
  }

  /** The `for key, value in update_data.items(): setattr(...)` loop. */
  method ApplyUpdate<R, F>(r: R, update: seq<F>, setField: (R, F) -> R) returns (s: R)
    ensures s == Patched(r, update, setField)
  {
    s := r;
    for i := 0 to |update|
      invariant s == Patched(r, update[..i], setField)
    {
      assert update[..i + 1][..i] == update[..i];
      s := setField(s, update[i]);
    }
    assert update[..|update|] == update;
  }

  /** No two fields of the update name the same column. */
  predicate DistinctColumns<F>(update: seq<F>, sameColumn: (F, F) -> bool) {
    forall i, j :: 0 <= i < |update| && 0 <= j < |update| && i != j ==> !sameColumn(update[i], update[j])
  }

  /**
   * The laws of setattr/getattr: `getField(r, g)` reads the column that `g` names, as a
   * field. Setting a field makes it read back; other columns are untouched.
   */
  ghost predicate FieldLaws<R(!new), F(!new)>(
    setField: (R, F) -> R, getField: (R, F) -> F, sameColumn: (F, F) -> bool)
  {
    && (forall r, f :: getField(setField(r, f), f) == f)
    && (forall r, f, g :: !sameColumn(f, g) ==> getField(setField(r, f), g) == getField(r, g))
  }

  /**
   * A partial update changes only the supplied fields: every supplied field reads back
   * with its supplied value, and every column no field names keeps its old value.
   */
  lemma {:induction false} PatchedSetsOnlySupplied<R(!new), F(!new)>(
    r: R, update: seq<F>, setField: (R, F) -> R, getField: (R, F) -> F, sameColumn: (F, F) -> bool)
    requires FieldLaws(setField, getField, sameColumn)
    requires DistinctColumns(update, sameColumn)
    ensures forall k :: 0 <= k < |update| ==>
      getField(Patched(r, update, setField), update[k]) == update[k]
    ensures forall g :: (forall k :: 0 <= k < |update| ==> !sameColumn(update[k], g)) ==>
      getField(Patched(r, update, setField), g) == getField(r, g)
    decreases |update|
  {
    if update != [] {
      var n := |update| - 1;
      var init := update[..n];
      assert DistinctColumns(init, sameColumn) by {
        forall i, j | 0 <= i < n && 0 <= j < n && i != j
          ensures !sameColumn(init[i], init[j])
        {
          assert init[i] == update[i] && init[j] == update[j];
        }
      }
      PatchedSetsOnlySupplied(r, init, setField, getField, sameColumn);
      var before := Patched(r, init, setField);
      forall k | 0 <= k < |update|
        ensures getField(Patched(r, update, setField), update[k]) == update[k]
      {
        if k < n {
          assert init[k] == update[k];
          assert !sameColumn(update[n], update[k]);
        }
      }
      forall g | forall k :: 0 <= k < |update| ==> !sameColumn(update[k], g)
        ensures getField(Patched(r, update, setField), g) == getField(r, g)
      {
        assert !sameColumn(update[n], g);
        assert forall k :: 0 <= k < n ==> init[k] == update[k];
      }
    }
  }
}
