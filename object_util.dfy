/**
 * `getChangedProperties(existing, updates)`: the entries of `updates` that are
 * defined and differ from `existing`. An object is a map from keys to values;
 * a key of `existing` that is absent reads as undefined, and an update entry
 * whose value is undefined is `None`.
 */
module ObjectUtil {
  import opened Wrappers

  /** An update entry that the diff keeps. */
  predicate IsChange<K, V(==)>(existing: map<K, V>, updates: map<K, Option<V>>, k: K)
    requires k in updates
  {
    updates[k].Some? && (k !in existing || existing[k] != updates[k].value)
  }

  /** The changes among the update keys in `keys`. */
  function ChangesAmong<K, V(==)>(existing: map<K, V>, updates: map<K, Option<V>>, keys: set<K>): map<K, V> {
    map k | k in keys && k in updates && IsChange(existing, updates, k) :: updates[k].value
  }

  /** The result `getChangedProperties` promises. */
  function ChangedProperties<K, V(==)>(existing: map<K, V>, updates: map<K, Option<V>>): map<K, V> {
    ChangesAmong(existing, updates, updates.Keys)
  }

  /** Writing a set of changes over an object. */
  function Apply<K, V>(existing: map<K, V>, changes: map<K, V>): map<K, V> {
    existing + changes
  }

  /** The loop over the update keys, one key at a time. */
  method GetChangedProperties<K, V(==)>(existing: map<K, V>, updates: map<K, Option<V>>) returns (changes: map<K, V>)
    ensures changes == ChangedProperties(existing, updates)
    ensures changes.Keys <= updates.Keys
    ensures forall k | k in updates :: k in changes <==> IsChange(existing, updates, k)
    ensures forall k | k in changes :: updates[k] == Some(changes[k])
  {
    changes := map[];
    var pending := updates.Keys;
    while pending != {}
      invariant pending <= updates.Keys
      invariant changes == ChangesAmong(existing, updates, updates.Keys - pending)
      decreases |pending|
    {
      var k :| k in pending;
      if updates[k].Some? && (k !in existing || existing[k] != updates[k].value) {
        changes := changes[k := updates[k].value];
      }
      pending := pending - {k};
    }
  }

  /** No updates, no changes. */
  lemma EmptyUpdatesNoChanges<K, V>(existing: map<K, V>)
    ensures ChangedProperties(existing, map[]) == map[]
  {
  }

  /** Once the changes are written, the same updates change nothing more. */
  lemma ApplyingChangesSettles<K, V>(existing: map<K, V>, updates: map<K, Option<V>>)
    ensures ChangedProperties(Apply(existing, ChangedProperties(existing, updates)), updates) == map[]
  {
    var changes := ChangedProperties(existing, updates);
    var after := Apply(existing, changes);
    forall k | k in updates && updates[k].Some?
      ensures k in after && after[k] == updates[k].value
    {
      if k in changes {
        assert after[k] == changes[k];
      } else {
        assert !IsChange(existing, updates, k);
      }
    }
    var again := ChangedProperties(after, updates);
    assert forall k :: k !in again;
  }

  /** Writing the changes gives the same object as writing every defined update. */
  lemma ApplyingChangesIsApplyingUpdates<K, V>(existing: map<K, V>, updates: map<K, Option<V>>)
    ensures Apply(existing, ChangedProperties(existing, updates)) ==
      existing + (map k | k in updates && updates[k].Some? :: updates[k].value)
  {
    var lhs := Apply(existing, ChangedProperties(existing, updates));
    var rhs := existing + (map k | k in updates && updates[k].Some? :: updates[k].value);
    assert lhs.Keys == rhs.Keys;
    forall k | k in lhs
      ensures lhs[k] == rhs[k]
    {
    }
  }
}
