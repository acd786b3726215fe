/** The labels of `pages/Profile.tsx`. `nowMs` stands for the current time in milliseconds. */
module Profile {
  import opened Types
  import opened JsText

  const HourMs: nat := 1000 * 60 * 60
  const Expired: string := "Expirado"
  const PlanFree: string := "Gratuito (Limitado)"
  const PlanTrial: string := "Premium (Período de Teste)"
  const PlanPremium: string := "Premium (Mensal)"

  /** `Math.ceil(diffMs / 3600000)` for a positive difference: the fewest whole hours covering it. */
  function CeilHours(diffMs: int): (h: nat)
    requires diffMs > 0
    ensures h >= 1
    ensures (h - 1) * HourMs < diffMs <= h * HourMs
  {
    (diffMs + HourMs - 1) / HourMs
  }

  /** `getTrialTimeRemaining`: None (null) off trial or without an end date, `Expirado` once the
      end has passed, else the hours left. */
  function TrialTimeRemaining(user: User, nowMs: int): (r: Option<string>)
    ensures r.None? <==> !user.isTrial || user.trialEndsAt.None?
    ensures r.Some? ==> (r.value == Expired <==> user.trialEndsAt.value - nowMs <= 0)
    ensures r.Some? && user.trialEndsAt.value - nowMs > 0 ==>
      r.value == NatToString(CeilHours(user.trialEndsAt.value - nowMs)) + " horas"
  {
    if !user.isTrial || user.trialEndsAt.None? then None
    else
      var diffMs := user.trialEndsAt.value - nowMs;
      if diffMs <= 0 then Some(Expired)
      else
        var h := CeilHours(diffMs);
        assert (NatToString(h) + " horas")[0] != Expired[0] by {
          NatToStringRoundTrip(h);
          assert IsDigit(NatToString(h)[0]);
        }
        Some(NatToString(h) + " horas")
  }

  /** A freshly registered user (trial of one day) sees 24 hours left at the moment of sign-up. */
  lemma FreshTrialShowsADay(user: User, nowMs: int)
    requires user.isTrial && user.trialEndsAt == Some(nowMs + 24 * HourMs)
    ensures TrialTimeRemaining(user, nowMs) == Some("24 horas")
  {
    var diffMs := user.trialEndsAt.value - nowMs;
    assert diffMs == 24 * HourMs;
    assert CeilHours(diffMs) == 24;
    assert DigitChar(2) == '2' && DigitChar(4) == '4';
    assert NatToString(24) == NatToString(2) + [DigitChar(4)];
    assert NatToString(24) == "24";
    assert NatToString(24) + " horas" == "24 horas";
  }

  /** The plan badge: trial wins over premium. */
  function PlanLabel(user: User): (r: string)
    ensures user.isTrial ==> r == PlanTrial
    ensures !user.isTrial && user.isPremium ==> r == PlanPremium
    ensures !user.isTrial && !user.isPremium ==> r == PlanFree
  {
    if user.isTrial then PlanTrial else if user.isPremium then PlanPremium else PlanFree
  }

  /** The faith badge, shown only when a faith is set. */
  function FaithBadge(faith: Option<Faith>): (r: Option<string>)
    ensures r.None? <==> faith.None?
    ensures r.Some? ==> (r.value == "Católica" <==> faith.value == Catholic)
    ensures r.Some? ==> (r.value == "Evangélica" <==> faith.value != Catholic)
  {
    match faith
    case None => None
    case Some(f) => Some(if f == Catholic then "Católica" else "Evangélica")
  }

  /** The gender line, shown only when a gender is set; each value has its own text. */
  function GenderLabel(gender: Option<Gender>): (r: Option<string>)
    ensures r.None? <==> gender.None?
    ensures gender == Some(PreferNotSay) ==> r == Some("Prefiro não dizer")
    ensures gender == Some(Female) ==> r == Some("Feminino")
    ensures gender == Some(Male) ==> r == Some("Masculino")
    ensures gender == Some(Other) ==> r == Some("Outro")
  {
    match gender
    case None => None
    case Some(g) =>
      Some(if g == PreferNotSay then "Prefiro não dizer"
           else if g == Female then "Feminino"
           else if g == Male then "Masculino"
           else "Outro")
  }

  /** No two genders share a label. */
  lemma GenderLabelInjective(g1: Gender, g2: Gender)
    requires GenderLabel(Some(g1)) == GenderLabel(Some(g2))
    ensures g1 == g2
  {
    var l1 := GenderLabel(Some(g1)).value;
    var l2 := GenderLabel(Some(g2)).value;
    assert l1[0] == l2[0];
    if l1[0] == 'F' {
      assert l1[1] == l2[1];
    }
  }
}
