/** The plan list and the products seeded from it (shared/validations/pricing.validation.ts,
    back-end/src/database/seeds/001_seed_products.ts), for any list of plans. */
module PricingConfig {
  import opened Common
  import opened Rows
  import opened System
  import WebhookOutcomes

  datatype Plan = Plan(name: string, priceInCents: int, externalPriceId: Option<string>, isFreeTier: bool)

  datatype ConfigError = NoFreeTier | SeveralFreeTiers(count: nat) | FreeTierNotFree | MissingPriceId(plan: string)

  function FreeTiers(plans: seq<Plan>): seq<Plan> {
    if plans == [] then [] else (if plans[0].isFreeTier then [plans[0]] else []) + FreeTiers(plans[1..])
  }

  function PaidPlans(plans: seq<Plan>): seq<Plan> {
    if plans == [] then [] else (if plans[0].isFreeTier then [] else [plans[0]]) + PaidPlans(plans[1..])
  }

  predicate HasPriceId(p: Plan) { p.externalPriceId.Some? && p.externalPriceId.value != "" }

  function FirstWithoutPriceId(plans: seq<Plan>): Option<Plan> {
    if plans == [] then None else if !HasPriceId(plans[0]) then Some(plans[0]) else FirstWithoutPriceId(plans[1..])
  }

  /** The error that the validation throws, if any. */
  function ValidatePricingConfig(plans: seq<Plan>): Option<ConfigError> {
    var freeTiers := FreeTiers(plans);
    if |freeTiers| == 0 then Some(NoFreeTier)
    else if |freeTiers| > 1 then Some(SeveralFreeTiers(|freeTiers|))
    else if freeTiers[0].priceInCents != 0 then Some(FreeTierNotFree)
    else
      var missing := FirstWithoutPriceId(PaidPlans(plans));
      if missing.Some? then Some(MissingPriceId(missing.value.name)) else None
  }

  /** Plan `i` is the only free tier. */
  ghost predicate OnlyFreeTier(plans: seq<Plan>, i: nat) {
    i < |plans| && forall j :: 0 <= j < |plans| ==> (plans[j].isFreeTier <==> j == i)
  }

  lemma {:induction false} FreeTiersCount(plans: seq<Plan>)
    ensures |FreeTiers(plans)| == 0 <==> forall j :: 0 <= j < |plans| ==> !plans[j].isFreeTier
    ensures |FreeTiers(plans)| == 1 <==> exists i: nat :: OnlyFreeTier(plans, i)
    ensures forall i: nat :: OnlyFreeTier(plans, i) ==> FreeTiers(plans) == [plans[i]]
  {
    if plans == [] {
    } else {
      var rest := plans[1..];
      FreeTiersCount(rest);
      if plans[0].isFreeTier {
        assert |FreeTiers(plans)| == 1 ==> OnlyFreeTier(plans, 0);
        forall i: nat | OnlyFreeTier(plans, i) ensures FreeTiers(plans) == [plans[i]] {
          assert i == 0 && forall j :: 0 <= j < |rest| ==> rest[j] == plans[j + 1];
        }
      } else {
        if i: nat :| OnlyFreeTier(rest, i) {
          assert OnlyFreeTier(plans, i + 1);
        }
        forall i: nat | OnlyFreeTier(plans, i) ensures FreeTiers(plans) == [plans[i]] {
          assert OnlyFreeTier(rest, i - 1);
        }
      }
    }
  }

  lemma {:induction false} NoneMissing(plans: seq<Plan>)
    ensures FirstWithoutPriceId(PaidPlans(plans)).None? <==>
              forall j :: 0 <= j < |plans| && !plans[j].isFreeTier ==> HasPriceId(plans[j])
  {
    if plans == [] {
    } else {
      var rest := plans[1..];
      NoneMissing(rest);
      assert forall j :: 0 < j < |plans| ==> plans[j] == rest[j - 1];
      assert forall j :: 0 <= j < |rest| ==> rest[j] == plans[j + 1];
      if plans[0].isFreeTier {
        assert PaidPlans(plans) == PaidPlans(rest);
      } else {
        assert PaidPlans(plans)[1..] == PaidPlans(rest);
      }
    }
  }

  /** A plan list is accepted exactly when one plan is the free tier, it costs nothing, and every other plan has a price
      id. */
  lemma ValidationExact(plans: seq<Plan>)
    ensures ValidatePricingConfig(plans).None? <==>
              && (exists i: nat :: OnlyFreeTier(plans, i) && plans[i].priceInCents == 0)
              && (forall j :: 0 <= j < |plans| && !plans[j].isFreeTier ==> HasPriceId(plans[j]))
  {
    FreeTiersCount(plans);
    NoneMissing(plans);
    if i: nat :| OnlyFreeTier(plans, i) {
      assert FreeTiers(plans) == [plans[i]];
      forall k: nat | OnlyFreeTier(plans, k) ensures k == i { }
    }
  }

  /** The rows that the seed inserts, with the keys the database generates; none if two would break the unique free-tier
      index. */
  function Seed(plans: seq<Plan>, ids: seq<string>): Option<seq<Product>>
    requires |ids| == |plans|
  {
    if |FreeTiers(plans)| > 1 then None
    else Some(seq(|plans|, i requires 0 <= i < |plans| =>
                    Product(ids[i], plans[i].priceInCents, plans[i].externalPriceId, plans[i].isFreeTier)))
  }

  lemma {:induction false} FreeTierAt(products: seq<Product>, i: nat)
    requires i < |products| && forall j :: 0 <= j < |products| ==> (products[j].isFreeTier <==> j == i)
    ensures FreeTier(products) == Some(products[i])
  {
    if i == 0 {
    } else {
      assert forall j :: 0 <= j < |products| - 1 ==> products[1..][j] == products[j + 1];
      FreeTierAt(products[1..], i - 1);
    }
  }

  /** Seeding an accepted list gives a free tier, its row is the free plan's, and it is found in every later state. */
  lemma {:induction false} FreeTierAlwaysThere(plans: seq<Plan>, ids: seq<string>, db: Db, now: nat, calls: seq<Call>)
    requires |ids| == |plans| && ValidatePricingConfig(plans).None?
    requires Seed(plans, ids) == Some(db.products) && Inv(db) && AllowedRun(db, now, calls)
    ensures exists i: nat :: OnlyFreeTier(plans, i)
              && FreeTier(Run(db, calls).products) == Some(Product(ids[i], 0, plans[i].externalPriceId, true))
  {
    ValidationExact(plans);
    var i: nat :| OnlyFreeTier(plans, i) && plans[i].priceInCents == 0;
    FreeTierAt(db.products, i);
    ReachableRules(db, now, calls);
  }

  // ------------------------------------------------------------- which error, and which rows

  ghost predicate NoneFree(plans: seq<Plan>) { forall j :: 0 <= j < |plans| ==> !plans[j].isFreeTier }

  ghost predicate OneFree(plans: seq<Plan>) { exists i: nat :: OnlyFreeTier(plans, i) }

  /** Plan `j` is the first paid one without a price id. */
  ghost predicate FirstMissing(plans: seq<Plan>, j: int) {
    && 0 <= j < |plans| && !plans[j].isFreeTier
        && !(plans[j].externalPriceId.Some? && plans[j].externalPriceId.value != "")
    && forall k :: 0 <= k < j && !plans[k].isFreeTier ==>
        plans[k].externalPriceId.Some? && plans[k].externalPriceId.value != ""
  }

  lemma {:induction false} FirstMissingFound(plans: seq<Plan>)
    ensures FirstWithoutPriceId(PaidPlans(plans)).Some? ==>
              exists j :: FirstMissing(plans, j) && FirstWithoutPriceId(PaidPlans(plans)) == Some(plans[j])
  {
    if plans == [] {
    } else {
      var rest := plans[1..];
      FirstMissingFound(rest);
      if plans[0].isFreeTier {
        assert PaidPlans(plans) == PaidPlans(rest);
      } else {
        assert PaidPlans(plans) == [plans[0]] + PaidPlans(rest) && PaidPlans(plans)[1..] == PaidPlans(rest);
      }
      if !plans[0].isFreeTier && !HasPriceId(plans[0]) {
        assert FirstMissing(plans, 0);
      } else if j :| FirstMissing(rest, j) && FirstWithoutPriceId(PaidPlans(rest)) == Some(rest[j]) {
        assert FirstMissing(plans, j + 1) && plans[j + 1] == rest[j];
      }
    }
  }

  /** Which error a plan list gets: none free, several free, the free one not free of charge, or the first paid plan
      without a price id. */
  lemma ErrorExactly(plans: seq<Plan>)
    ensures var r := ValidatePricingConfig(plans);
            && (r == Some(NoFreeTier) <==> NoneFree(plans))
            && (r.Some? && r.value.SeveralFreeTiers? <==> !NoneFree(plans) && !OneFree(plans))
            && (r == Some(FreeTierNotFree) <==> exists i: nat :: OnlyFreeTier(plans, i) && plans[i].priceInCents != 0)
            && (r.Some? && r.value.MissingPriceId? ==>
                exists j :: FirstMissing(plans, j) && r.value.plan == plans[j].name)
  {
    FreeTiersCount(plans);
    FirstMissingFound(plans);
    if i: nat :| OnlyFreeTier(plans, i) {
      assert FreeTiers(plans) == [plans[i]];
      forall k: nat | OnlyFreeTier(plans, k) ensures k == i { }
    }
  }

  /** The seed inserts a row for each plan, with its price, price id and mark, unless two plans are marked as free. */
  lemma SeedExactly(plans: seq<Plan>, ids: seq<string>)
    requires |ids| == |plans|
    ensures Seed(plans, ids).None? <==> !NoneFree(plans) && !OneFree(plans)
    ensures Seed(plans, ids).Some? ==>
              && |Seed(plans, ids).value| == |plans|
              && forall i :: 0 <= i < |plans| ==>
                   Seed(plans, ids).value[i] ==
                     Product(ids[i], plans[i].priceInCents, plans[i].externalPriceId, plans[i].isFreeTier)
  {
    FreeTiersCount(plans);
  }

  /** In every later state the price id of a plan finds the product of a plan with that price id, and no other price
      finds anything. */
  lemma PlansAreFound(plans: seq<Plan>, ids: seq<string>, db: Db, now: nat, calls: seq<Call>, priceId: string)
    requires |ids| == |plans| && Seed(plans, ids) == Some(db.products) && Inv(db) && AllowedRun(db, now, calls)
    ensures var found := ProductByPrice(Run(db, calls).products, priceId);
            && (found.None? <==> forall i :: 0 <= i < |plans| ==> plans[i].externalPriceId != Some(priceId))
            && (found.Some? ==> exists i :: 0 <= i < |plans| && plans[i].externalPriceId == Some(priceId)
                                            && found.value.id == ids[i]
                                                && found.value.priceInCents == plans[i].priceInCents)
  {
    ProductsStay(db, now, calls);
    SeedExactly(plans, ids);
    WebhookOutcomes.ProductByPriceExactly(db.products, priceId);
    hide ProductByPrice, Seed, Inv, AllowedRun, Run;
    assert forall i :: 0 <= i < |plans| ==>
        (WebhookOutcomes.Priced(db.products, i, priceId) <==> plans[i].externalPriceId == Some(priceId));
  }

  /** No call writes products. */
  lemma {:induction false} ProductsStay(db: Db, now: nat, calls: seq<Call>)
    requires Inv(db) && AllowedRun(db, now, calls)
    ensures Run(db, calls).products == db.products
    decreases |calls|
  {
    if calls == [] {
    } else {
      StepKeepsInv(db, calls[0]);
      hide Step, Inv, Allowed;
      ProductsStay(Step(db, calls[0]), calls[0].now, calls[1..]);
    }
  }
}
