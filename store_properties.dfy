/** What the draft's list updates promise. */
module StoreProperties {
  import opened Types
  import opened Money
  import opened Seqs
  import opened PricingService
  import opened Store

  // ---------------------------------------------------------------
  // toggleVideoAddon
  // ---------------------------------------------------------------

  /** After a toggle the add-on is selected exactly when it was not before,
      and every other add-on keeps its selection. */
  lemma ToggledMembership(addons: seq<string>, addon: string, other: string)
    requires other != addon
    ensures addon in Toggled(addons, addon) <==> addon !in addons
    ensures other in Toggled(addons, addon) <==> other in addons
  {
    if addon in addons {
      var r := Without(addons, SlugOf, addon);
      if other in addons {
        var j :| 0 <= j < |addons| && addons[j] == other;
        assert SlugOf(addons[j]) != addon;
      }
      forall j | 0 <= j < |r| ensures r[j] != addon {
        assert SlugOf(r[j]) != addon;
      }
    }
  }

  /** Toggling an unselected add-on twice restores the list exactly. */
  lemma ToggleTwiceRestores(addons: seq<string>, addon: string)
    requires addon !in addons
    ensures Toggled(Toggled(addons, addon), addon) == addons
  {
    assert addon in addons + [addon];
    WithoutAppend(addons, [addon], SlugOf, addon);
    forall j | 0 <= j < |addons| ensures SlugOf(addons[j]) != addon {
    }
    WithoutAbsent(addons, SlugOf, addon);
    assert Without([addon], SlugOf, addon) == [];
  }

  /** Toggling a selected add-on twice keeps the selection but moves the
      add-on to the end of the list. */
  lemma ToggleTwiceMovesToEnd(addons: seq<string>, addon: string)
    requires addon in addons
    ensures Toggled(Toggled(addons, addon), addon) == Without(addons, SlugOf, addon) + [addon]
  {
    var r := Without(addons, SlugOf, addon);
    forall j | 0 <= j < |r| ensures r[j] != addon {
      assert SlugOf(r[j]) != addon;
    }
  }

  /** A list without duplicates stays without duplicates. */
  lemma ToggledKeepsDistinct(addons: seq<string>, addon: string)
    requires DistinctKeys(addons, SlugOf)
    ensures DistinctKeys(Toggled(addons, addon), SlugOf)
  {
    if addon in addons {
      WithoutKeepsDistinct(addons, SlugOf, addon);
    } else {
      var r := addons + [addon];
      forall i, j | 0 <= i < j < |r| ensures SlugOf(r[i]) != SlugOf(r[j]) {
        if j == |addons| {
          assert r[i] == addons[i];
        }
      }
    }
  }

  // ---------------------------------------------------------------
  // Function lists
  // ---------------------------------------------------------------

  /** An update whose id matches nothing changes nothing. */
  lemma UpdateUnknownIdNoop(fs: seq<SelectedFunction>, id: string, u: FunctionUpdate)
    requires forall i :: 0 <= i < |fs| ==> fs[i].id != id
    ensures UpdatedById(fs, id, u) == fs
  {
  }

  /** An update that does not set `id` keeps every instance id in place,
      so the order of the list is unchanged. */
  lemma UpdateKeepsIds(fs: seq<SelectedFunction>, id: string, u: FunctionUpdate)
    requires u.id.None?
    ensures forall i :: 0 <= i < |fs| ==> UpdatedById(fs, id, u)[i].id == fs[i].id
  {
  }

  /** An empty update changes nothing. */
  lemma EmptyUpdateNoop(fs: seq<SelectedFunction>, id: string)
    ensures UpdatedById(fs, id, FunctionUpdate(None, None, None, None, None, None, None, None, None)) == fs
  {
  }

  /** Removing keeps every other entry, in order: removal distributes over
      a split of the list. */
  lemma RemoveSplits(fs: seq<SelectedFunction>, gs: seq<SelectedFunction>, id: string)
    ensures RemovedById(fs + gs, id) == RemovedById(fs, id) + RemovedById(gs, id)
  {
    WithoutAppend(fs, gs, IdOf, id);
  }

  /** No entry with the removed id survives; every other entry does. */
  lemma RemoveMembership(fs: seq<SelectedFunction>, id: string, f: SelectedFunction)
    requires f in fs
    ensures f in RemovedById(fs, id) <==> f.id != id
  {
    var r := RemovedById(fs, id);
    if f.id != id {
      var j :| 0 <= j < |fs| && fs[j] == f;
      assert IdOf(fs[j]) != id;
    }
    if f in r {
      var j :| 0 <= j < |r| && r[j] == f;
      assert IdOf(r[j]) != id;
    }
  }

  /** Adding an entry with a fresh instance id and then removing that id
      restores the list. */
  lemma AddThenRemoveRestores(fs: seq<SelectedFunction>, f: SelectedFunction)
    requires forall i :: 0 <= i < |fs| ==> fs[i].id != f.id
    ensures RemovedById(fs + [f], f.id) == fs
  {
    WithoutAppend(fs, [f], IdOf, f.id);
    forall j | 0 <= j < |fs| ensures IdOf(fs[j]) != f.id {
    }
    WithoutAbsent(fs, IdOf, f.id);
    assert Without([f], IdOf, f.id) == [];
  }

  // ---------------------------------------------------------------
  // The fixed 30 % split
  // ---------------------------------------------------------------

  /** The store's hard-coded split agrees with the engine's advance rule
      at the engine's default advance percentage of 30. */
  lemma ThirtyPercentIsEngineDefault(price: real)
    ensures ThirtyPercentAdvance(price) == PercentOf(price, 30.0)
  {
    assert 30.0 / 100.0 == 0.3;
  }

  /** For a non-negative price the advance lies between 0 and the price,
      so the balance is never negative. */
  lemma ThirtyPercentWithin(price: real)
    requires price >= 0.0
    ensures 0 <= ThirtyPercentAdvance(price)
    ensures ThirtyPercentAdvance(price) as real <= price
  {
    RoundMonotone(0.0, price * 0.3);
    assert Round(0.0) == 0;
    if price < 1.0 {
      RoundMonotone(price * 0.3, 0.3);
      assert Round(0.3) == 0;
    }
  }

  /** Worked values of the split, halves rounding up. */
  lemma ThirtyPercentExample()
    ensures ThirtyPercentAdvance(25000.0) == 7500
    ensures ThirtyPercentAdvance(1.0) == 0
    ensures ThirtyPercentAdvance(5.0) == 2
  {
    assert 25000.0 * 0.3 == 7500.0;
    assert 5.0 * 0.3 == 1.5;
  }
}
