/** The subscription plan catalogue (lib/subscription-plans.ts): a constant
    table keyed by plan id and two lookups. */
module SubscriptionPlans {
  import opened Js

  datatype Plan = Plan(
    id: string,
    name: string,
    description: string,
    price: int,
    originalPrice: Option<int>,
    currency: string,
    features: seq<string>,
    badge: Option<string>,
    isPromo: Option<bool>,
    maxUsers: Option<int>)

  const BaseFeatures: seq<string> :=
    ["Generaciones ilimitadas", "Exportar a PDF profesional", "Biblioteca sin límites"]

  const Navidad: Plan := Plan(
    "navidad-2024", "MAÑANA PRO - Oferta Navidad",
    "Acceso ilimitado a generación de planeaciones NEM",
    29, Some(49), "MXN", BaseFeatures, Some("🎄 Oferta de Navidad"), Some(true), None)

  const EarlyBird: Plan := Plan(
    "early-bird", "MAÑANA PRO - Early Bird",
    "Precio especial para los primeros 100 usuarios",
    19, Some(49), "MXN", BaseFeatures, Some("🐦 Early Bird"), Some(true), Some(100))

  const Regular: Plan := Plan(
    "regular", "MAÑANA PRO - Mensual",
    "Acceso ilimitado a generación de planeaciones NEM",
    49, None, "MXN", BaseFeatures, None, None, None)

  const Anual: Plan := Plan(
    "anual", "MAÑANA PRO - Anual",
    "12 meses de acceso ilimitado (2 meses gratis)",
    490, Some(588), "MXN", BaseFeatures + ["2 meses gratis incluidos"],
    Some("💰 Ahorra 17%"), Some(true), None)

  /** `SUBSCRIPTION_PLANS`. */
  const Plans: map<string, Plan> := map[
    "navidad-2024" := Navidad,
    "early-bird" := EarlyBird,
    "regular" := Regular,
    "anual" := Anual]

  const ACTIVE_PLAN_ID: string := "navidad-2024"

  /** `getActivePlan()`: the Christmas offer at 29 MXN, marked as a promotion. */
  function GetActivePlan(): (p: Plan)
    ensures p.id == ACTIVE_PLAN_ID && p.price == 29 && p.originalPrice == Some(49)
    ensures p.isPromo == Some(true) && p.currency == "MXN"
  {
    Plans[ACTIVE_PLAN_ID]
  }

  /** `getPlanById(id)`: the plan stored under `id`, `undefined` for any other
      id; keys inherited from `Object.prototype` are not modelled. */
  function GetPlanById(planId: string): (p: Option<Plan>)
    ensures p.Some? <==> planId in {"navidad-2024", "early-bird", "regular", "anual"}
    ensures p.Some? ==> p.value.id == planId
  {
    if planId in Plans then Some(Plans[planId]) else None
  }

  /** Every key of the table is the id of the plan stored under it, and every
      plan is priced in MXN. */
  lemma KeysAreIds()
    ensures forall k :: k in Plans ==> Plans[k].id == k && Plans[k].currency == "MXN"
  {
  }

  /** A plan that shows an original price is cheaper than it; only the regular
      plan has none. */
  lemma DiscountsAreReal()
    ensures forall k :: k in Plans && Plans[k].originalPrice.Some? ==>
      Plans[k].price < Plans[k].originalPrice.value
    ensures forall k :: k in Plans ==> (Plans[k].originalPrice.None? <==> k == "regular")
  {
  }

  /** Only the early-bird plan caps its users, at 100. */
  lemma OnlyEarlyBirdCapsUsers()
    ensures forall k :: k in Plans ==> (Plans[k].maxUsers.Some? <==> k == "early-bird")
    ensures Plans["early-bird"].maxUsers == Some(100)
  {
  }
}
