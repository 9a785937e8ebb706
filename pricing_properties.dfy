/** What the pricing engine promises: line order and count, the zero line
    for a missing definition, clamped overage charges, the album quirks,
    the add-on filter, and the totals. */
module PricingProperties {
  import opened Types
  import opened Money
  import opened Seqs
  import opened PricingService

  // ---------------------------------------------------------------
  // Function lines
  // ---------------------------------------------------------------

  /** Pricing two lists one after the other gives the lines of each, in order. */
  lemma FunctionsPricingAppend(a: seq<SelectedFunction>, b: seq<SelectedFunction>,
                               defs: seq<EventFunction>, cfg: PricingConfiguration)
    ensures FunctionsPricing(a + b, defs, cfg) == FunctionsPricing(a, defs, cfg) + FunctionsPricing(b, defs, cfg)
  {
    var l, la, lb := FunctionsPricing(a + b, defs, cfg), FunctionsPricing(a, defs, cfg), FunctionsPricing(b, defs, cfg);
    assert |l| == |la + lb|;
    forall k | 0 <= k < |l| ensures l[k] == (la + lb)[k] {
      if k < |a| {
        assert (a + b)[k] == a[k];
      } else {
        assert (a + b)[k] == b[k - |a|];
      }
    }
  }

  /** Every line, priced or not, carries the selection's identity, duration and crew. */
  lemma LineMirrorsSelection(sel: SelectedFunction, defs: seq<EventFunction>, cfg: PricingConfiguration)
    ensures var l := FunctionLine(sel, defs, cfg);
      && l.functionId == sel.functionId
      && l.functionName == sel.name
      && l.details.duration == sel.duration
      && l.details.photographers == sel.photographers
      && l.details.cinematographers == sel.cinematographers
  {
  }

  /** A selection whose functionId matches no definition is priced at zero
      rather than failing; its included counts are zero too. */
  lemma MissingDefinitionLine(sel: SelectedFunction, defs: seq<EventFunction>, cfg: PricingConfiguration)
    requires forall i :: 0 <= i < |defs| ==> defs[i].id != sel.functionId
    ensures var l := FunctionLine(sel, defs, cfg);
      && l.basePrice == 0.0 && l.extraHoursCost == 0 && l.extraCrewCost == 0.0 && l.totalFunctionCost == 0.0
      && l.details.includedHours == 0.0 && l.details.extraHours == 0.0
      && l.details.includedPhotographers == 0 && l.details.includedCinematographers == 0
      && l.details.extraCrewCount == 0
  {
  }

  /** Within the included hours there is no extra-hours charge. */
  lemma NoOvertimeNoCharge(sel: SelectedFunction, ef: EventFunction, defs: seq<EventFunction>, cfg: PricingConfiguration)
    requires DefinitionOf(sel, defs) == Some(ef)
    requires sel.duration <= ef.defaultHours
    ensures FunctionLine(sel, defs, cfg).details.extraHours == 0.0
    ensures FunctionLine(sel, defs, cfg).extraHoursCost == 0
  {
    assert 0.0 * ef.extraHourRate == 0.0;
  }

  /** Overtime is charged on the hours beyond the included ones, rounded. */
  lemma OvertimeCharge(sel: SelectedFunction, ef: EventFunction, defs: seq<EventFunction>, cfg: PricingConfiguration)
    requires DefinitionOf(sel, defs) == Some(ef)
    requires sel.duration > ef.defaultHours
    ensures FunctionLine(sel, defs, cfg).details.extraHours == sel.duration - ef.defaultHours
    ensures FunctionLine(sel, defs, cfg).extraHoursCost == Round((sel.duration - ef.defaultHours) * ef.extraHourRate)
  {
  }

  /** Stretching a function from its included hours to Δ hours beyond them
      raises its cost by exactly round(Δ × extraHourRate). */
  lemma ExtraHoursIncrement(sel: SelectedFunction, ef: EventFunction, defs: seq<EventFunction>,
                            cfg: PricingConfiguration, delta: real)
    requires DefinitionOf(sel, defs) == Some(ef)
    requires delta >= 0.0
    ensures FunctionLine(sel.(duration := ef.defaultHours + delta), defs, cfg).totalFunctionCost
         == FunctionLine(sel.(duration := ef.defaultHours), defs, cfg).totalFunctionCost
            + Round(delta * ef.extraHourRate) as real
  {
    var long, base := sel.(duration := ef.defaultHours + delta), sel.(duration := ef.defaultHours);
    LineOfDefinition(long, sel, defs, cfg);
    LineOfDefinition(base, sel, defs, cfg);
    PricedLineIncrement(base, ef, cfg, delta);
    assert long == base.(duration := base.duration + delta);
  }

  /** A selection with the same functionId as `sel` is priced against sel's definition. */
  lemma LineOfDefinition(other: SelectedFunction, sel: SelectedFunction, defs: seq<EventFunction>, cfg: PricingConfiguration)
    requires DefinitionOf(sel, defs).Some? && other.functionId == sel.functionId
    ensures FunctionLine(other, defs, cfg) == PricedLine(other, DefinitionOf(sel, defs).value, cfg)
  {
  }

  lemma PricedLineIncrement(base: SelectedFunction, ef: EventFunction, cfg: PricingConfiguration, delta: real)
    requires base.duration == ef.defaultHours && delta >= 0.0
    ensures PricedLine(base.(duration := base.duration + delta), ef, cfg).totalFunctionCost
         == PricedLine(base, ef, cfg).totalFunctionCost + Round(delta * ef.extraHourRate) as real
  {
    var long := base.(duration := base.duration + delta);
    var pl, pb := PricedLine(long, ef, cfg), PricedLine(base, ef, cfg);
    assert pl.extraHoursCost == Round(delta * ef.extraHourRate);
    assert pb.extraHoursCost == 0;
    assert pl.extraCrewCost == pb.extraCrewCost;
    assert pl.totalFunctionCost == ef.flatPrice + pl.extraHoursCost as real + pl.extraCrewCost;
    assert pb.totalFunctionCost == ef.flatPrice + pb.extraCrewCost;
  }

  /** The extra crew is the surplus over each role's included count, summed
      without regard to role, and charged at the flat fee with no rounding. */
  lemma ExtraCrewCount(sel: SelectedFunction, ef: EventFunction, defs: seq<EventFunction>, cfg: PricingConfiguration)
    requires DefinitionOf(sel, defs) == Some(ef)
    ensures FunctionLine(sel, defs, cfg).details.extraCrewCount
         == Max0Int(sel.photographers - ef.includedPhotographers)
            + Max0Int(sel.cinematographers - ef.includedCinematographers)
    ensures FunctionLine(sel, defs, cfg).extraCrewCost
         == FunctionLine(sel, defs, cfg).details.extraCrewCount as real * cfg.extraCrewFlatFee
  {
  }

  /** Two crews with the same surplus head count cost the same, whatever
      the mix of photographers and cinematographers. */
  lemma ExtraCrewIsRoleAgnostic(sel: SelectedFunction, ef: EventFunction, p: int, c: int,
                                defs: seq<EventFunction>, cfg: PricingConfiguration)
    requires DefinitionOf(sel, defs) == Some(ef)
    requires Max0Int(p - ef.includedPhotographers) + Max0Int(c - ef.includedCinematographers)
          == Max0Int(sel.photographers - ef.includedPhotographers)
             + Max0Int(sel.cinematographers - ef.includedCinematographers)
    ensures FunctionLine(sel.(photographers := p, cinematographers := c), defs, cfg).totalFunctionCost
         == FunctionLine(sel, defs, cfg).totalFunctionCost
  {
    var other := sel.(photographers := p, cinematographers := c);
    LineOfDefinition(other, sel, defs, cfg);
    LineOfDefinition(sel, sel, defs, cfg);
    var a, b := PricedLine(other, ef, cfg), PricedLine(sel, ef, cfg);
    assert a.extraHoursCost == b.extraHoursCost;
    assert a.details.extraCrewCount == b.details.extraCrewCount;
    assert a.extraCrewCost == b.extraCrewCost;
  }

  /** With non-negative rates and fees a line never costs less than its flat price. */
  lemma LineCostsAtLeastFlatPrice(sel: SelectedFunction, ef: EventFunction, defs: seq<EventFunction>, cfg: PricingConfiguration)
    requires DefinitionOf(sel, defs) == Some(ef)
    requires ef.extraHourRate >= 0.0 && cfg.extraCrewFlatFee >= 0.0
    ensures FunctionLine(sel, defs, cfg).totalFunctionCost >= ef.flatPrice
  {
    var l := PricedLine(sel, ef, cfg);
    assert l.details.extraHours * ef.extraHourRate >= 0.0;
    assert l.details.extraCrewCount as real * cfg.extraCrewFlatFee >= 0.0;
  }

  // ---------------------------------------------------------------
  // Album line
  // ---------------------------------------------------------------

  /** Up to the base page count there is no extra-pages charge. */
  lemma NoExtraPagesAtBase(album: AlbumConfig, conf: AlbumConfiguration)
    requires album.pages as real <= conf.basePages
    ensures AlbumPricingOf(album, conf).details.extraPages == 0.0
    ensures AlbumPricingOf(album, conf).extraPagesCost == 0
  {
  }

  /** Extra pages are charged per ten pages: `basePages + 10k` pages cost
      k × per10PagesCost on top of the base, whatever pagesIncrement says. */
  lemma ExtraPagesPerTen(conf: AlbumConfiguration, k: nat, albumType: string)
    requires IsWhole(conf.basePages) && IsWhole(conf.per10PagesCost)
    ensures var a := AlbumPricingOf(AlbumConfig(conf.basePages.Floor + 10 * k, albumType), conf);
      && a.details.extraPages == 10.0 * k as real
      && a.extraPagesCost as real == k as real * conf.per10PagesCost
  {
    var album := AlbumConfig(conf.basePages.Floor + 10 * k, albumType);
    var extra := Max0(album.pages as real - conf.basePages);
    assert extra == 10.0 * k as real;
    var n := conf.per10PagesCost.Floor;
    var x := k as real * conf.per10PagesCost;
    assert extra / 10.0 * conf.per10PagesCost == x;
    assert IsWhole(x) by {
      RealOfProduct(k, n);
      assert x == (k * n) as real;
    }
    RoundWhole(x);
    assert AlbumPricingOf(album, conf).extraPagesCost == Round(x);
  }

  /** pagesIncrement is never read: changing it changes nothing. */
  lemma AlbumIgnoresPagesIncrement(album: AlbumConfig, conf: AlbumConfiguration, increment: real)
    ensures AlbumPricingOf(album, conf.(pagesIncrement := increment)) == AlbumPricingOf(album, conf)
  {
  }

  /** The multiplier is the double-album one exactly for the type
      "two-photobooks" and 1 for every other type. */
  lemma AlbumMultiplier(album: AlbumConfig, conf: AlbumConfiguration)
    ensures album.albumType == "two-photobooks" ==>
      AlbumPricingOf(album, conf).details.multiplier == conf.doubleAlbumMultiplier
    ensures album.albumType != "two-photobooks" ==>
      AlbumPricingOf(album, conf).details.multiplier == 1.0
    ensures AlbumPricingOf(album, conf).totalAlbumCost
         == Round((conf.basePriceSingle + AlbumPricingOf(album, conf).extraPagesCost as real)
                  * AlbumPricingOf(album, conf).details.multiplier)
  {
  }

  /** The album type the wizard offers for two books,
      "two-individual-photobooks", is priced exactly like a single book. */
  lemma WizardTwoBookTypePricedAsSingle(pages: int, conf: AlbumConfiguration)
    ensures AlbumPricingOf(AlbumConfig(pages, "two-individual-photobooks"), conf).totalAlbumCost
         == AlbumPricingOf(AlbumConfig(pages, "one-photobook"), conf).totalAlbumCost
  {
    var a, b := AlbumConfig(pages, "two-individual-photobooks"), AlbumConfig(pages, "one-photobook");
    assert a.albumType != DoubleAlbumType by {
      assert |a.albumType| != |DoubleAlbumType|;
    }
    assert b.albumType != DoubleAlbumType by {
      assert |b.albumType| != |DoubleAlbumType|;
    }
    assert AlbumPricingOf(a, conf).details.multiplier == 1.0;
    assert AlbumPricingOf(b, conf).details.multiplier == 1.0;
    assert AlbumPricingOf(a, conf).extraPagesCost == AlbumPricingOf(b, conf).extraPagesCost;
  }

  /** A single album with a whole base price costs the base plus the extra pages. */
  lemma SingleAlbumTotal(album: AlbumConfig, conf: AlbumConfiguration)
    requires album.albumType != "two-photobooks"
    requires IsWhole(conf.basePriceSingle)
    ensures AlbumPricingOf(album, conf).totalAlbumCost as real
         == conf.basePriceSingle + AlbumPricingOf(album, conf).extraPagesCost as real
  {
    var a := AlbumPricingOf(album, conf);
    var x := conf.basePriceSingle + a.extraPagesCost as real;
    assert x == (conf.basePriceSingle.Floor + a.extraPagesCost) as real;
    RoundWhole(x);
  }

  // ---------------------------------------------------------------
  // Add-on lines
  // ---------------------------------------------------------------

  /** The add-on lines of two slug lists are the lines of each, in order:
      the filter keeps the relative order of the slugs. */
  lemma {:induction false} AddonLinesAppend(a: seq<string>, b: seq<string>, options: seq<VideoAddonOption>)
    ensures AddonLines(a + b, options) == AddonLines(a, options) + AddonLines(b, options)
  {
    if |b| == 0 {
      assert a + b == a;
    } else {
      var b' := b[..|b| - 1];
      assert (a + b)[..|a + b| - 1] == a + b';
      assert (a + b)[|a + b| - 1] == b[|b| - 1];
      AddonLinesAppend(a, b', options);
    }
  }

  /** The last slug contributes at most one line, at the end. */
  lemma AddonLinesStep(slugs: seq<string>, options: seq<VideoAddonOption>)
    requires |slugs| > 0
    ensures var last := slugs[|slugs| - 1];
      AddonLines(slugs, options)
        == AddonLines(slugs[..|slugs| - 1], options)
           + (if IsKnownSlug(last, options)
              then [AddonLine(last, OptionOf(last, options).value.labelText, OptionOf(last, options).value.price)]
              else [])
  {
  }

  /** A selected slug gets a line exactly when the catalogue knows it. */
  lemma {:induction false} AddonLinesKeepKnownSlugs(slugs: seq<string>, options: seq<VideoAddonOption>, s: string)
    requires s in slugs
    ensures IsKnownSlug(s, options) <==> exists i :: 0 <= i < |AddonLines(slugs, options)| && AddonLines(slugs, options)[i].slug == s
  {
    var r := AddonLines(slugs, options);
    var n := |slugs|;
    var last := slugs[n - 1];
    var front := slugs[..n - 1];
    var rest := AddonLines(front, options);
    AddonLinesStep(slugs, options);
    if IsKnownSlug(s, options) {
      if s == last {
        assert r[|r| - 1].slug == s;
      } else {
        assert s in front by {
          assert slugs == front + [last];
        }
        AddonLinesKeepKnownSlugs(front, options, s);
        var i :| 0 <= i < |rest| && rest[i].slug == s;
        assert r[i] == rest[i];
      }
    }
  }

  /** When every slug is known there is one line per slug, in slug order. */
  lemma {:induction false} AllKnownAddonsKeepOrder(slugs: seq<string>, options: seq<VideoAddonOption>)
    requires forall i :: 0 <= i < |slugs| ==> IsKnownSlug(slugs[i], options)
    ensures |AddonLines(slugs, options)| == |slugs|
    ensures forall i :: 0 <= i < |slugs| ==> AddonLines(slugs, options)[i].slug == slugs[i]
  {
    if |slugs| > 0 {
      var front := slugs[..|slugs| - 1];
      var last := slugs[|slugs| - 1];
      assert forall i :: 0 <= i < |front| ==> front[i] == slugs[i];
      AllKnownAddonsKeepOrder(front, options);
      AddonLinesStep(slugs, options);
      assert IsKnownSlug(last, options);
      var r, rest := AddonLines(slugs, options), AddonLines(front, options);
      assert r == rest + [AddonLine(last, OptionOf(last, options).value.labelText, OptionOf(last, options).value.price)];
      forall i | 0 <= i < |slugs| ensures r[i].slug == slugs[i] {
        if i < |front| {
          assert r[i] == rest[i];
        }
      }
    }
  }

  // ---------------------------------------------------------------
  // Totals
  // ---------------------------------------------------------------

  lemma {:induction false} FunctionsTotalAppend(a: seq<FunctionPricing>, b: seq<FunctionPricing>)
    ensures FunctionsTotal(a + b) == FunctionsTotal(a) + FunctionsTotal(b)
  {
    if |b| == 0 {
      assert a + b == a;
    } else {
      var b' := b[..|b| - 1];
      assert (a + b)[..|a + b| - 1] == a + b';
      FunctionsTotalAppend(a, b');
    }
  }

  /** The subtotal is the main functions' total, plus the additional
      functions' total, plus the album, plus the add-ons. */
  lemma SubtotalByGroup(
    main: seq<SelectedFunction>, additional: seq<SelectedFunction>, album: AlbumConfig, slugs: seq<string>,
    defs: seq<EventFunction>, albumConf: AlbumConfiguration, cfg: PricingConfiguration, options: seq<VideoAddonOption>)
    ensures CalculatePricing(main, additional, album, slugs, defs, albumConf, cfg, options).subtotal
         == FunctionsTotal(FunctionsPricing(main, defs, cfg))
            + FunctionsTotal(FunctionsPricing(additional, defs, cfg))
            + AlbumPricingOf(album, albumConf).totalAlbumCost as real
            + AddonsTotal(AddonLines(slugs, options))
  {
    FunctionsPricingAppend(main, additional, defs, cfg);
    FunctionsTotalAppend(FunctionsPricing(main, defs, cfg), FunctionsPricing(additional, defs, cfg));
  }

  /** The breakdown's function lines are the main functions' lines followed by the additional ones'. */
  lemma FunctionLinesByGroup(
    main: seq<SelectedFunction>, additional: seq<SelectedFunction>, album: AlbumConfig, slugs: seq<string>,
    defs: seq<EventFunction>, albumConf: AlbumConfiguration, cfg: PricingConfiguration, options: seq<VideoAddonOption>)
    ensures CalculatePricing(main, additional, album, slugs, defs, albumConf, cfg, options).functions
         == FunctionsPricing(main, defs, cfg) + FunctionsPricing(additional, defs, cfg)
  {
    FunctionsPricingAppend(main, additional, defs, cfg);
  }

  /** With a tax rate of 0 the total is the subtotal. */
  lemma ZeroTaxTotalIsSubtotal(
    main: seq<SelectedFunction>, additional: seq<SelectedFunction>, album: AlbumConfig, slugs: seq<string>,
    defs: seq<EventFunction>, albumConf: AlbumConfiguration, cfg: PricingConfiguration, options: seq<VideoAddonOption>)
    requires cfg.taxPercentage == 0.0
    ensures var r := CalculatePricing(main, additional, album, slugs, defs, albumConf, cfg, options);
      r.tax == 0 && r.total == r.subtotal
  {
  }

  /** A share of 0 to 100 percent of a whole, non-negative amount lies
      between 0 and the amount. */
  lemma PercentWithin(amount: real, percentage: real)
    requires 0.0 <= percentage <= 100.0
    requires amount >= 0.0 && IsWhole(amount)
    ensures 0 <= PercentOf(amount, percentage) && PercentOf(amount, percentage) as real <= amount
  {
    var x := amount * (percentage / 100.0);
    assert 0.0 <= x <= amount;
    RoundMonotone(0.0, x);
    RoundMonotone(x, amount);
    RoundWhole(0.0);
    RoundWhole(amount);
  }

  /** For an advance rate between 0 and 100 percent and a whole, non-negative
      total, the advance is at most the total and the balance is non-negative. */
  lemma AdvanceWithinTotal(
    main: seq<SelectedFunction>, additional: seq<SelectedFunction>, album: AlbumConfig, slugs: seq<string>,
    defs: seq<EventFunction>, albumConf: AlbumConfiguration, cfg: PricingConfiguration, options: seq<VideoAddonOption>)
    requires 0.0 <= cfg.advancePercentage <= 100.0
    requires var r := CalculatePricing(main, additional, album, slugs, defs, albumConf, cfg, options);
      r.total >= 0.0 && IsWhole(r.total)
    ensures var r := CalculatePricing(main, additional, album, slugs, defs, albumConf, cfg, options);
      0 <= r.advance && r.advance as real <= r.total && r.balance >= 0.0
  {
    var r := CalculatePricing(main, additional, album, slugs, defs, albumConf, cfg, options);
    PercentWithin(r.total, cfg.advancePercentage);
  }

  /** Nothing selected and a single album at its base size: the subtotal is
      the album's base price. */
  lemma NoSelectionBaseline(defs: seq<EventFunction>, albumConf: AlbumConfiguration,
                            cfg: PricingConfiguration, options: seq<VideoAddonOption>)
    requires IsWhole(albumConf.basePages) && albumConf.basePages >= 0.0
    requires IsWhole(albumConf.basePriceSingle)
    ensures var album := AlbumConfig(albumConf.basePages.Floor, "one-photobook");
      var r := CalculatePricing([], [], album, [], defs, albumConf, cfg, options);
      && r.functions == [] && r.videoAddons == []
      && r.subtotal == albumConf.basePriceSingle
  {
    var album := AlbumConfig(albumConf.basePages.Floor, "one-photobook");
    NoExtraPagesAtBase(album, albumConf);
    RoundWhole(albumConf.basePriceSingle);
    assert "one-photobook" != DoubleAlbumType by {
      assert |"one-photobook"| != |DoubleAlbumType|;
    }
  }

  lemma {:induction false} FunctionsTotalNonNegative(lines: seq<FunctionPricing>)
    requires forall i :: 0 <= i < |lines| ==> lines[i].totalFunctionCost >= 0.0
    ensures FunctionsTotal(lines) >= 0.0
  {
    if |lines| > 0 {
      FunctionsTotalNonNegative(lines[..|lines| - 1]);
    }
  }

  lemma {:induction false} AddonsTotalNonNegative(lines: seq<AddonLine>)
    requires forall i :: 0 <= i < |lines| ==> lines[i].price >= 0.0
    ensures AddonsTotal(lines) >= 0.0
  {
    if |lines| > 0 {
      AddonsTotalNonNegative(lines[..|lines| - 1]);
    }
  }

  predicate NonNegativeDefinition(ef: EventFunction) {
    ef.flatPrice >= 0.0 && ef.extraHourRate >= 0.0
  }

  /** With a non-negative catalogue and fee every function line costs at least 0. */
  lemma FunctionLinesNonNegative(sels: seq<SelectedFunction>, defs: seq<EventFunction>, cfg: PricingConfiguration)
    requires forall i :: 0 <= i < |defs| ==> NonNegativeDefinition(defs[i])
    requires cfg.extraCrewFlatFee >= 0.0
    ensures forall i :: 0 <= i < |sels| ==> FunctionsPricing(sels, defs, cfg)[i].totalFunctionCost >= 0.0
  {
    forall i | 0 <= i < |sels| ensures FunctionsPricing(sels, defs, cfg)[i].totalFunctionCost >= 0.0 {
      match DefinitionOf(sels[i], defs)
      case None =>
      case Some(ef) =>
        assert NonNegativeDefinition(ef);
        LineCostsAtLeastFlatPrice(sels[i], ef, defs, cfg);
    }
  }

  /** With non-negative album constants the album costs at least 0. */
  lemma AlbumNonNegative(album: AlbumConfig, conf: AlbumConfiguration)
    requires conf.basePriceSingle >= 0.0 && conf.per10PagesCost >= 0.0 && conf.doubleAlbumMultiplier >= 0.0
    ensures AlbumPricingOf(album, conf).extraPagesCost >= 0
    ensures AlbumPricingOf(album, conf).totalAlbumCost >= 0
  {
    var a := AlbumPricingOf(album, conf);
    var x := a.details.extraPages / 10.0 * conf.per10PagesCost;
    assert x >= 0.0;
    RoundMonotone(0.0, x);
    RoundWhole(0.0);
    var m := a.details.multiplier;
    assert m >= 0.0;
    var b := conf.basePriceSingle + a.extraPagesCost as real;
    assert b >= 0.0;
    var y := b * m;
    assert y >= 0.0;
    RoundMonotone(0.0, y);
  }

  /** With non-negative catalogue prices every add-on line costs at least 0. */
  lemma AddonLinesNonNegative(slugs: seq<string>, options: seq<VideoAddonOption>)
    requires forall i :: 0 <= i < |options| ==> options[i].price >= 0.0
    ensures forall i :: 0 <= i < |AddonLines(slugs, options)| ==> AddonLines(slugs, options)[i].price >= 0.0
  {
    var r := AddonLines(slugs, options);
    forall i | 0 <= i < |r| ensures r[i].price >= 0.0 {
      var o := OptionOf(r[i].slug, options).value;
      assert o in options;
    }
  }

  /** With a non-negative catalogue and configuration, subtotal, tax and total
      are non-negative and the total is at least the subtotal. */
  lemma NonNegativeTotals(
    main: seq<SelectedFunction>, additional: seq<SelectedFunction>, album: AlbumConfig, slugs: seq<string>,
    defs: seq<EventFunction>, albumConf: AlbumConfiguration, cfg: PricingConfiguration, options: seq<VideoAddonOption>)
    requires forall i :: 0 <= i < |defs| ==> NonNegativeDefinition(defs[i])
    requires forall i :: 0 <= i < |options| ==> options[i].price >= 0.0
    requires cfg.extraCrewFlatFee >= 0.0 && cfg.taxPercentage >= 0.0
    requires albumConf.basePriceSingle >= 0.0 && albumConf.per10PagesCost >= 0.0
    requires albumConf.doubleAlbumMultiplier >= 0.0
    ensures var r := CalculatePricing(main, additional, album, slugs, defs, albumConf, cfg, options);
      r.subtotal >= 0.0 && r.tax >= 0 && r.total >= r.subtotal
  {
    var r := CalculatePricing(main, additional, album, slugs, defs, albumConf, cfg, options);
    var lines := FunctionsPricing(main + additional, defs, cfg);
    assert r.functions == lines;
    FunctionLinesNonNegative(main + additional, defs, cfg);
    FunctionsTotalNonNegative(lines);
    AddonLinesNonNegative(slugs, options);
    AddonsTotalNonNegative(r.videoAddons);
    AlbumNonNegative(album, albumConf);
    assert r.subtotal >= 0.0;
    PercentNonNegative(r.subtotal, cfg.taxPercentage);
  }

  /** A non-negative percentage of a non-negative amount rounds to at least 0. */
  lemma PercentNonNegative(amount: real, percentage: real)
    requires amount >= 0.0 && percentage >= 0.0
    ensures PercentOf(amount, percentage) >= 0
  {
    var t := amount * (percentage / 100.0);
    assert t >= 0.0;
    RoundMonotone(0.0, t);
    RoundWhole(0.0);
  }

  // ---------------------------------------------------------------
  // Worked examples
  // ---------------------------------------------------------------

  /** 90 pages over a base of 60 at 500 per ten pages: 30 extra pages costing 1500;
      as a single album over a base price of 8000: 9500; as a double album at 1.8:
      round(9500 × 1.8) = 17100. */
  lemma AlbumExample()
    ensures var conf := AlbumConfiguration(60.0, 8000.0, 500.0, 1.8, 10.0);
      var a := AlbumPricingOf(AlbumConfig(90, "two-photobooks"), conf);
      a.details.extraPages == 30.0 && a.extraPagesCost == 1500 && a.totalAlbumCost == 17100
    ensures var conf := AlbumConfiguration(60.0, 8000.0, 500.0, 1.8, 10.0);
      var a := AlbumPricingOf(AlbumConfig(90, "one-photobook"), conf);
      a.details.extraPages == 30.0 && a.extraPagesCost == 1500
      && a.details.multiplier == 1.0 && a.totalAlbumCost == 9500
  {
    var conf := AlbumConfiguration(60.0, 8000.0, 500.0, 1.8, 10.0);
    assert |"one-photobook"| != |DoubleAlbumType|;
    assert (1500.0 + 0.5).Floor == 1500;
    assert (9500.0 + 0.5).Floor == 9500;
    assert (9500.0 * 1.8 + 0.5).Floor == 17100;
  }

  /** Ten hours against eight included at 1000 an hour, one photographer over
      the included two, flat price 20000, fee 8000: 2000 + 8000 on top, 30000 in all. */
  lemma FunctionExample()
    ensures var ef := EventFunction("wedding", "Wedding", "", 8.0, 20000.0, 2, 2, 1000.0);
      var sel := SelectedFunction("wedding-1", "wedding", "Wedding", "", "07:30", "17:30", 10.0, 3, 2);
      var l := FunctionLine(sel, [ef], PricingConfiguration(8000.0, 0.0, 30.0));
      l.extraHoursCost == 2000 && l.extraCrewCost == 8000.0 && l.totalFunctionCost == 30000.0
  {
    var ef := EventFunction("wedding", "Wedding", "", 8.0, 20000.0, 2, 2, 1000.0);
    var sel := SelectedFunction("wedding-1", "wedding", "Wedding", "", "07:30", "17:30", 10.0, 3, 2);
    assert DefinitionOf(sel, [ef]) == Some(ef);
    assert (2000.0 + 0.5).Floor == 2000;
  }

  /** Included crew 2 + 2: a crew of 3 + 1 and a crew of 2 + 3 both count one
      extra head and cost the same. */
  lemma RoleAgnosticExample()
    ensures var ef := EventFunction("f", "F", "", 4.0, 10000.0, 2, 2, 0.0);
      var cfg := PricingConfiguration(8000.0, 0.0, 30.0);
      var a := FunctionLine(SelectedFunction("a", "f", "F", "", "", "", 4.0, 3, 1), [ef], cfg);
      var b := FunctionLine(SelectedFunction("b", "f", "F", "", "", "", 4.0, 2, 3), [ef], cfg);
      a.details.extraCrewCount == 1 && b.details.extraCrewCount == 1
      && a.totalFunctionCost == b.totalFunctionCost
  {
    var ef := EventFunction("f", "F", "", 4.0, 10000.0, 2, 2, 0.0);
    assert DefinitionOf(SelectedFunction("a", "f", "F", "", "", "", 4.0, 3, 1), [ef]) == Some(ef);
    assert DefinitionOf(SelectedFunction("b", "f", "F", "", "", "", 4.0, 2, 3), [ef]) == Some(ef);
  }
}
