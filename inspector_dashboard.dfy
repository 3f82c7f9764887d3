/** The classification helpers of the inspector dashboard
    (src/components/dashboards/InspectorDashboard.tsx).

    Each helper picks a colour for a label or a score and returns the Tailwind class
    string for it. Here the choice of colour (a Tone) is separated from the class string
    each helper builds from it, so that the choice can be stated and the strings are
    still the ones the dashboard renders. */
module InspectorDashboard {

  datatype Tone = Green | Yellow | Orange | Red | Gray

  /** Badge classes used for component status. The status helper never picks orange
      (`StatusTone` ensures `t != Orange`), so the orange badge is never rendered by this
      dashboard; it is here only because the colours are shared with the other helpers. */
  function BadgeClass(t: Tone): string
  {
    match t
    case Green => "bg-green-100 text-green-800"
    case Yellow => "bg-yellow-100 text-yellow-800"
    case Orange => "bg-orange-100 text-orange-800"
    case Red => "bg-red-100 text-red-800"
    case Gray => "bg-gray-100 text-gray-800"
  }

  /** Text classes used for risk and health score. */
  function TextClass(t: Tone): string
  {
    match t
    case Green => "text-green-600"
    case Yellow => "text-yellow-600"
    case Orange => "text-orange-600"
    case Red => "text-red-600"
    case Gray => "text-gray-600"
  }

  /** Background classes used for priority. */
  function FillClass(t: Tone): string
  {
    match t
    case Green => "bg-green-500"
    case Yellow => "bg-yellow-500"
    case Orange => "bg-orange-500"
    case Red => "bg-red-500"
    case Gray => "bg-gray-500"
  }

  /** Different colours give different class strings, for each of the three class
      families. */
  lemma ClassesDistinguishTones(a: Tone, b: Tone)
    requires a != b
    ensures BadgeClass(a) != BadgeClass(b)
    ensures TextClass(a) != TextClass(b)
    ensures FillClass(a) != FillClass(b)
  {
  }

  // ---------------------------------------------------------------------------
  // Status of a component

  /** `OK`, `Worn` and `Defective` are green, yellow and red; every other status is gray. */
  function StatusTone(status: string): (t: Tone)
    ensures t == Green <==> status == "OK"
    ensures t == Yellow <==> status == "Worn"
    ensures t == Red <==> status == "Defective"
    ensures t == Gray <==> status != "OK" && status != "Worn" && status != "Defective"
    ensures t != Orange
  {
    match status
    case "OK" => Green
    case "Worn" => Yellow
    case "Defective" => Red
    case _ => Gray
  }

  /** The badge class of a component status. */
  function GetStatusColor(status: string): (c: string)
    ensures c == "bg-green-100 text-green-800" <==> status == "OK"
    ensures c == "bg-yellow-100 text-yellow-800" <==> status == "Worn"
    ensures c == "bg-red-100 text-red-800" <==> status == "Defective"
    ensures c == "bg-gray-100 text-gray-800" <==>
      status != "OK" && status != "Worn" && status != "Defective"
  {
    BadgeClass(StatusTone(status))
  }

  // ---------------------------------------------------------------------------
  // Risk level

  /** `low`, `medium`, `high` and `critical` are green, yellow, orange and red; every
      other risk is gray. */
  function RiskTone(risk: string): (t: Tone)
    ensures t == Green <==> risk == "low"
    ensures t == Yellow <==> risk == "medium"
    ensures t == Orange <==> risk == "high"
    ensures t == Red <==> risk == "critical"
    ensures t == Gray <==> risk != "low" && risk != "medium" && risk != "high" && risk != "critical"
  {
    match risk
    case "low" => Green
    case "medium" => Yellow
    case "high" => Orange
    case "critical" => Red
    case _ => Gray
  }

  /** The text class of a risk level. */
  function GetRiskColor(risk: string): (c: string)
    ensures c == "text-green-600" <==> risk == "low"
    ensures c == "text-yellow-600" <==> risk == "medium"
    ensures c == "text-orange-600" <==> risk == "high"
    ensures c == "text-red-600" <==> risk == "critical"
    ensures c == "text-gray-600" <==>
      risk != "low" && risk != "medium" && risk != "high" && risk != "critical"
  {
    TextClass(RiskTone(risk))
  }

  /** The four known risk levels get four different class strings, none of them the
      gray default. */
  lemma RiskLevelsDistinct(r1: string, r2: string)
    requires r1 in ["low", "medium", "high", "critical"]
    requires r2 in ["low", "medium", "high", "critical"]
    requires r1 != r2
    ensures GetRiskColor(r1) != GetRiskColor(r2)
    ensures GetRiskColor(r1) != TextClass(Gray)
  {
  }

  // ---------------------------------------------------------------------------
  // Priority of an overdue inspection

  /** `critical` is red, `urgent` and `high` orange, `medium` yellow, `normal` and `low`
      green; every other priority is gray. */
  function PriorityTone(priority: string): (t: Tone)
    ensures t == Red <==> priority == "critical"
    ensures t == Orange <==> priority == "urgent" || priority == "high"
    ensures t == Yellow <==> priority == "medium"
    ensures t == Green <==> priority == "normal" || priority == "low"
    ensures t == Gray <==>
      priority !in ["critical", "urgent", "high", "medium", "normal", "low"]
  {
    match priority
    case "critical" => Red
    case "urgent" => Orange
    case "high" => Orange
    case "medium" => Yellow
    case "normal" => Green
    case "low" => Green
    case _ => Gray
  }

  /** The fill class of a priority. */
  function GetPriorityColor(priority: string): (c: string)
    ensures c == "bg-red-500" <==> priority == "critical"
    ensures c == "bg-orange-500" <==> priority == "urgent" || priority == "high"
    ensures c == "bg-yellow-500" <==> priority == "medium"
    ensures c == "bg-green-500" <==> priority == "normal" || priority == "low"
    ensures c == "bg-gray-500" <==>
      priority !in ["critical", "urgent", "high", "medium", "normal", "low"]
  {
    FillClass(PriorityTone(priority))
  }

  /** Two priorities share a class string exactly when they share a colour: `urgent`
      with `high`, `normal` with `low`. */
  lemma PrioritySharedColours(p1: string, p2: string)
    ensures GetPriorityColor(p1) == GetPriorityColor(p2) <==> PriorityTone(p1) == PriorityTone(p2)
    ensures GetPriorityColor("urgent") == GetPriorityColor("high")
    ensures GetPriorityColor("normal") == GetPriorityColor("low")
  {
  }

  // ---------------------------------------------------------------------------
  // Health score

  /** The bands of a health score, from worst to best. */
  function HealthRank(t: Tone): (k: nat)
    ensures k <= 3
  {
    match t
    case Red => 0
    case Orange => 1
    case Yellow => 2
    case Green => 3
    case Gray => 0
  }

  /** Scores of 80 and above are green, from 60 yellow, from 40 orange, below 40 red. */
  function HealthTone(score: real): (t: Tone)
    ensures t == Green <==> score >= 80.0
    ensures t == Yellow <==> 60.0 <= score < 80.0
    ensures t == Orange <==> 40.0 <= score < 60.0
    ensures t == Red <==> score < 40.0
    ensures t != Gray
  {
    if score >= 80.0 then Green
    else if score >= 60.0 then Yellow
    else if score >= 40.0 then Orange
    else Red
  }

  /** The text class of a health score: green exactly from 80 on, yellow from 60, orange
      from 40, red below. */
  function GetHealthScoreColor(score: real): (c: string)
    ensures c == "text-green-600" <==> score >= 80.0
    ensures c == "text-yellow-600" <==> 60.0 <= score < 80.0
    ensures c == "text-orange-600" <==> 40.0 <= score < 60.0
    ensures c == "text-red-600" <==> score < 40.0
  {
    TextClass(HealthTone(score))
  }

  /** Raising a score never moves it to a worse band. */
  lemma HealthBandMonotone(lo: real, hi: real)
    requires lo <= hi
    ensures HealthRank(HealthTone(lo)) <= HealthRank(HealthTone(hi))
  {
  }
}
