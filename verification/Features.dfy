/**
 The features a licence has: its plan's entitlements, with each add-on of the
 licence's product adding a feature or replacing the plan's value for it.
 */
module Features {
  import opened Common

  datatype Entitlement = Entitlement(
    feature: string, valueType: string, value: string, period: string, unit: string, plan: string, meter: string)

  datatype Addon = Addon(
    product: string, feature: string, valueType: string, value: string, period: string, unit: string)

  function Own(a: Addon): Entitlement {
    Entitlement(a.feature, a.valueType, a.value, a.period, a.unit, "", "")
  }

  /** An add-on over what the feature was: the limit is the add-on's, the billing stays. */
  function Over(was: Entitlement, a: Addon): Entitlement {
    Own(a).(plan := was.plan, meter := was.meter, unit := if a.unit == "" then was.unit else a.unit)
  }

  /** Where a feature is listed, the last place if it is listed twice. */
  function Place(out: seq<Entitlement>, f: string): (p: Option<nat>)
    ensures p.Some? ==> p.value < |out| && out[p.value].feature == f
    ensures forall i :: 0 <= i < |out| && out[i].feature == f ==> p.Some? && i <= p.value
  {
    if out == [] then None
    else if out[|out| - 1].feature == f then Some(|out| - 1)
    else Place(out[..|out| - 1], f)
  }

  function Applied(out: seq<Entitlement>, a: Addon): seq<Entitlement> {
    match Place(out, a.feature)
    case Some(i) => out[i := Over(out[i], a)]
    case None => out + [Own(a)]
  }

  /** The left fold of the add-ons of one product over the plan's entitlements. */
  function Merged(plan: seq<Entitlement>, addons: seq<Addon>, product: string): seq<Entitlement> {
    if addons == [] then plan
    else
      var out, a := Merged(plan, addons[..|addons| - 1], product), addons[|addons| - 1];
      if a.product != product then out else Applied(out, a)
  }

  ghost predicate Indexes(index: map<string, nat>, out: seq<Entitlement>) {
    forall f :: (if f in index then Some(index[f]) else None) == Place(out, f)
  }

  /** The list and its index, updated in place, compute the fold; without add-ons to read, the plan's own. */
  method LicenseFeatures(plan: seq<Entitlement>, addons: Option<seq<Addon>>, product: string)
    returns (out: seq<Entitlement>)
    ensures out == if addons.None? then plan else Merged(plan, addons.value, product)
  {
    out := [];
    var index: map<string, nat> := map[];
    for i := 0 to |plan|
      invariant out == plan[..i] && Indexes(index, out)
    {
      var e := plan[i];
      index := index[e.feature := |out|];
      out := out + [e];
      assert out[..i] == plan[..i];
    }
    if addons.None? { return; }
    for k := 0 to |addons.value|
      invariant out == Merged(plan, addons.value[..k], product) && Indexes(index, out)
    {
      var a := addons.value[k];
      assert addons.value[..k + 1][..k] == addons.value[..k];
      if a.product != product { continue; }
      var e := Own(a);
      ghost var before := out;
      if a.feature in index {
        var i := index[a.feature];
        assert Place(out, a.feature) == Some(i);
        var was := out[i];
        e := e.(plan := was.plan, meter := was.meter);
        if e.unit == "" { e := e.(unit := was.unit); }
        out := out[i := e];
        ReplaceKeepsPlaces(before, i, e);
      } else {
        assert Place(out, a.feature).None?;
        index := index[a.feature := |out|];
        out := out + [e];
        assert out[..|before|] == before;
      }
    }
    assert addons.value[..|addons.value|] == addons.value;
  }

  lemma {:induction false} ReplaceKeepsPlaces(out: seq<Entitlement>, i: nat, e: Entitlement)
    requires i < |out| && e.feature == out[i].feature
    ensures forall f :: Place(out[i := e], f) == Place(out, f)
  {
    if i < |out| - 1 {
      ReplaceKeepsPlaces(out[..|out| - 1], i, e);
      assert out[i := e][..|out| - 1] == out[..|out| - 1][i := e];
    } else {
      assert out[i := e][..|out| - 1] == out[..|out| - 1];
    }
  }

  // -------------------------------------------------- feature by feature

  function Find(out: seq<Entitlement>, f: string): Option<Entitlement> {
    match Place(out, f)
    case Some(i) => Some(out[i])
    case None => None
  }

  /** The add-ons that bear on one feature, in order. */
  function Bearing(addons: seq<Addon>, product: string, f: string): seq<Addon> {
    if addons == [] then []
    else
      var before, a := Bearing(addons[..|addons| - 1], product, f), addons[|addons| - 1];
      if a.product == product && a.feature == f then before + [a] else before
  }

  predicate Distinct(out: seq<Entitlement>) {
    forall i, j :: 0 <= i < j < |out| ==> out[i].feature != out[j].feature
  }

  /** The unit of the last add-on that names one, else the plan's. */
  function Unit(plan: string, chain: seq<Addon>): string {
    if chain == [] then plan
    else if chain[|chain| - 1].unit != "" then chain[|chain| - 1].unit
    else Unit(plan, chain[..|chain| - 1])
  }

  /** What one feature comes to: everything from the last add-on but its billing, which is the plan's. */
  function Expected(was: Option<Entitlement>, chain: seq<Addon>): Option<Entitlement> {
    if chain == [] then was
    else
      var base := if was.Some? then was.value else Own(chain[0]);
      Some(Own(chain[|chain| - 1]).(plan := base.plan, meter := base.meter,
                                    unit := Unit(if was.Some? then was.value.unit else "", chain)))
  }

  lemma FindApplied(out: seq<Entitlement>, a: Addon, f: string)
    ensures Find(Applied(out, a), f) ==
            if f != a.feature then Find(out, f)
            else if Find(out, f).Some? then Some(Over(Find(out, f).value, a)) else Some(Own(a))
  {
    match Place(out, a.feature) {
      case Some(i) => ReplaceKeepsPlaces(out, i, Over(out[i], a));
      case None => assert (out + [Own(a)])[..|out|] == out;
    }
  }

  lemma ExpectedAdds(was: Option<Entitlement>, chain: seq<Addon>, a: Addon)
    ensures var e := Expected(was, chain);
            Expected(was, chain + [a]) == Some(if e.Some? then Over(e.value, a) else Own(a))
  {
    assert (chain + [a])[..|chain|] == chain && (chain + [a])[|chain|] == a;
    assert Unit(if was.Some? then was.value.unit else "", []) == if was.Some? then was.value.unit else "";
    if chain != [] { assert (chain + [a])[0] == chain[0]; }
  }

  /** Each feature of the merge is the plan's meter and plan, the last add-on's value and the last unit named. */
  lemma {:induction false} FeatureByFeature(plan: seq<Entitlement>, addons: seq<Addon>, product: string, f: string)
    ensures Find(Merged(plan, addons, product), f) == Expected(Find(plan, f), Bearing(addons, product, f))
  {
    if addons == [] {
    } else {
      var init, a := addons[..|addons| - 1], addons[|addons| - 1];
      FeatureByFeature(plan, init, product, f);
      if a.product == product {
        FindApplied(Merged(plan, init, product), a, f);
        if a.feature == f { ExpectedAdds(Find(plan, f), Bearing(init, product, f), a); }
      }
    }
  }

  /** One entry per feature, the plan's first and in their places. */
  lemma {:induction false} MergeKeepsPlan(plan: seq<Entitlement>, addons: seq<Addon>, product: string)
    requires Distinct(plan)
    ensures var out := Merged(plan, addons, product);
            && Distinct(out) && |plan| <= |out|
            && forall i :: 0 <= i < |plan| ==> out[i].feature == plan[i].feature && out[i].meter == plan[i].meter
  {
    if addons == [] {
    } else {
      MergeKeepsPlan(plan, addons[..|addons| - 1], product);
    }
  }

  /** Field by field: what the last add-on says, but for a unit it leaves open and the plan's billing. */
  lemma LastAddonDecides(plan: seq<Entitlement>, addons: seq<Addon>, product: string, f: string)
    requires Bearing(addons, product, f) != []
    ensures var e, chain := Find(Merged(plan, addons, product), f), Bearing(addons, product, f);
            var last, was := chain[|chain| - 1], Find(plan, f);
            && e.Some? && e.value.feature == f && last.feature == f && last.product == product
            && e.value.valueType == last.valueType && e.value.value == last.value && e.value.period == last.period
            && (last.unit != "" ==> e.value.unit == last.unit)
            && e.value.meter == (if was.Some? then was.value.meter else "")
            && e.value.plan == (if was.Some? then was.value.plan else "")
  {
    FeatureByFeature(plan, addons, product, f);
    BearingFits(addons, product, f);
  }

  lemma {:induction false} BearingFits(addons: seq<Addon>, product: string, f: string)
    ensures forall i :: 0 <= i < |Bearing(addons, product, f)| ==>
              Bearing(addons, product, f)[i].feature == f && Bearing(addons, product, f)[i].product == product
  {
    if addons == [] {
    } else {
      BearingFits(addons[..|addons| - 1], product, f);
    }
  }
}
