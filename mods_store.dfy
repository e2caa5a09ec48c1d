/**
 * The front end's store of installed mods (src/lib/stores/modsStore.js): one list that
 * is replaced, appended to, filtered by name or cleared. Subscribers and their
 * notification are not part of this model.
 */
module ModsStore {
  /** A mod as the front end holds it; only its name is examined. */
  datatype ModRecord = ModRecord(name: string, details: string)

  /** `mods.filter(m => m.name !== modName)`. */
  function WithoutName(mods: seq<ModRecord>, name: string): (r: seq<ModRecord>)
    ensures |r| <= |mods|
    ensures forall i :: 0 <= i < |r| ==> r[i].name != name
    decreases |mods|
  {
    if |mods| == 0 then []
    else if mods[0].name != name then [mods[0]] + WithoutName(mods[1..], name)
    else WithoutName(mods[1..], name)
  }

  /** Exactly the entries with another name survive. */
  lemma {:induction false} WithoutNameMembers(mods: seq<ModRecord>, name: string, m: ModRecord)
    ensures m in WithoutName(mods, name) <==> m in mods && m.name != name
    decreases |mods|
  {
    if |mods| > 0 {
      WithoutNameMembers(mods[1..], name, m);
      assert mods == [mods[0]] + mods[1..];
    }
  }

  /** Filtering distributes over concatenation: the survivors keep their relative order. */
  lemma {:induction false} WithoutNameAppend(a: seq<ModRecord>, b: seq<ModRecord>, name: string)
    ensures WithoutName(a + b, name) == WithoutName(a, name) + WithoutName(b, name)
    decreases |a|
  {
    if |a| == 0 {
      assert a + b == b;
    } else {
      assert (a + b)[1..] == a[1..] + b;
      WithoutNameAppend(a[1..], b, name);
    }
  }

  /** Removing a name that no entry has changes nothing. */
  lemma {:induction false} WithoutAbsentName(mods: seq<ModRecord>, name: string)
    requires forall i :: 0 <= i < |mods| ==> mods[i].name != name
    ensures WithoutName(mods, name) == mods
    decreases |mods|
  {
    if |mods| > 0 {
      WithoutAbsentName(mods[1..], name);
      assert mods == [mods[0]] + mods[1..];
    }
  }

  /** Removing the same name twice is removing it once. */
  lemma WithoutNameIdempotent(mods: seq<ModRecord>, name: string)
    ensures WithoutName(WithoutName(mods, name), name) == WithoutName(mods, name)
  {
    WithoutAbsentName(WithoutName(mods, name), name);
  }

  /** Undoing an add: removing the name of the mod just added removes it and its namesakes. */
  lemma AddThenRemove(mods: seq<ModRecord>, m: ModRecord)
    ensures WithoutName(mods + [m], m.name) == WithoutName(mods, m.name)
  {
    WithoutNameAppend(mods, [m], m.name);
    assert WithoutName([m], m.name) == [];
    assert WithoutName(mods, m.name) + [] == WithoutName(mods, m.name);
  }

  /** The `installedMods` store. */
  class InstalledMods {
    var mods: seq<ModRecord>

    /** The store starts empty. */
    constructor ()
      ensures mods == []
    {
      mods := [];
    }

    /** `setMods`: the list loaded from the backend replaces the state. */
    method SetMods(newMods: seq<ModRecord>)
      modifies this
      ensures mods == newMods
    {
      mods := newMods;
    }

    /** `addMod`: the new mod goes at the end. */
    method AddMod(m: ModRecord)
      modifies this
      ensures mods == old(mods) + [m]
      ensures |mods| == |old(mods)| + 1 && mods[|mods| - 1] == m
    {
      mods := mods + [m];
    }

    /** `removeMod`: every mod of that name goes, the others keep their order. */
    method RemoveMod(name: string)
      modifies this
      ensures mods == WithoutName(old(mods), name)
      ensures forall m :: m in mods <==> m in old(mods) && m.name != name
    {
      forall m | true
        ensures m in WithoutName(mods, name) <==> m in mods && m.name != name
      {
        WithoutNameMembers(mods, name, m);
      }
      mods := WithoutName(mods, name);
    }

    /** `clear`. */
    method Clear()
      modifies this
      ensures mods == []
    {
      mods := [];
    }
  }
}
