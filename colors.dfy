/**
 * The risk-level colour helpers of the browser UI: each maps a level name,
 * whatever its letter case, to a set of style classes.
 */
module Colors {
  import Strings

  /** The level names the helpers recognise, in lower case. */
  predicate IsKnownLevel(lower: string) {
    lower == "critical" || lower == "high" || lower == "medium" || lower == "low"
  }

  /** `getRiskColor`: a background class plus white text. */
  function GetRiskColor(level: string): (c: string)
    ensures var l := Strings.ToLower(level);
      && (l == "critical" ==> c == "bg-critical text-white")
      && (l == "high" ==> c == "bg-high text-white")
      && (l == "medium" ==> c == "bg-medium text-white")
      && (l == "low" ==> c == "bg-low text-white")
      && (!IsKnownLevel(l) ==> c == "bg-gray-500 text-white")
  {
    match Strings.ToLower(level)
    case "critical" => "bg-critical text-white"
    case "high" => "bg-high text-white"
    case "medium" => "bg-medium text-white"
    case "low" => "bg-low text-white"
    case _ => "bg-gray-500 text-white"
  }

  /** `getRiskBorderColor`. */
  function GetRiskBorderColor(level: string): (c: string)
    ensures var l := Strings.ToLower(level);
      && (l == "critical" ==> c == "border-critical")
      && (l == "high" ==> c == "border-high")
      && (l == "medium" ==> c == "border-medium")
      && (l == "low" ==> c == "border-low")
      && (!IsKnownLevel(l) ==> c == "border-gray-500")
  {
    match Strings.ToLower(level)
    case "critical" => "border-critical"
    case "high" => "border-high"
    case "medium" => "border-medium"
    case "low" => "border-low"
    case _ => "border-gray-500"
  }

  /** `getRiskTextColor`. */
  function GetRiskTextColor(level: string): (c: string)
    ensures var l := Strings.ToLower(level);
      && (l == "critical" ==> c == "text-critical")
      && (l == "high" ==> c == "text-high")
      && (l == "medium" ==> c == "text-medium")
      && (l == "low" ==> c == "text-low")
      && (!IsKnownLevel(l) ==> c == "text-gray-500")
  {
    match Strings.ToLower(level)
    case "critical" => "text-critical"
    case "high" => "text-high"
    case "medium" => "text-medium"
    case "low" => "text-low"
    case _ => "text-gray-500"
  }

  /** Two spellings that differ only in letter case get the same classes. */
  lemma CaseInsensitive(a: string, b: string)
    requires Strings.ToLower(a) == Strings.ToLower(b)
    ensures GetRiskColor(a) == GetRiskColor(b)
    ensures GetRiskBorderColor(a) == GetRiskBorderColor(b)
    ensures GetRiskTextColor(a) == GetRiskTextColor(b)
  {
  }

  /** Lower-casing a name first changes nothing. */
  lemma {:induction false} LowerCasedNameSameColors(a: string)
    ensures GetRiskColor(Strings.ToLower(a)) == GetRiskColor(a)
    ensures GetRiskBorderColor(Strings.ToLower(a)) == GetRiskBorderColor(a)
    ensures GetRiskTextColor(Strings.ToLower(a)) == GetRiskTextColor(a)
  {
    Strings.ToLowerIdempotent(a);
    CaseInsensitive(Strings.ToLower(a), a);
  }

  /** Each of the five class lists `getRiskColor` returns ends with white text. */
  lemma WhiteTextLast(c: string)
    requires c in ["bg-critical text-white", "bg-high text-white", "bg-medium text-white", "bg-low text-white", "bg-gray-500 text-white"]
    ensures Strings.EndsWith(c, " text-white")
  {
    var w := " text-white";
    if c == "bg-critical text-white" {
      assert c == "bg-critical" + w;
    } else if c == "bg-high text-white" {
      assert c == "bg-high" + w;
    } else if c == "bg-medium text-white" {
      assert c == "bg-medium" + w;
    } else if c == "bg-low text-white" {
      assert c == "bg-low" + w;
    } else {
      assert c == "bg-gray-500" + w;
    }
  }

  /** Every background choice comes with white text. */
  lemma {:induction false} RiskColorHasWhiteText(level: string)
    ensures Strings.EndsWith(GetRiskColor(level), " text-white")
  {
    WhiteTextLast(GetRiskColor(level));
  }

  /**
   * The three helpers recognise the same names: each falls back to its gray
   * variant exactly when the lower-cased name is none of the four levels, and
   * the four levels get four different classes.
   */
  lemma {:induction false} SameKeys(level: string)
    ensures GetRiskColor(level) == "bg-gray-500 text-white" <==> !IsKnownLevel(Strings.ToLower(level))
    ensures GetRiskBorderColor(level) == "border-gray-500" <==> !IsKnownLevel(Strings.ToLower(level))
    ensures GetRiskTextColor(level) == "text-gray-500" <==> !IsKnownLevel(Strings.ToLower(level))
  {
  }

  lemma DistinctClasses()
    ensures |{GetRiskColor("critical"), GetRiskColor("high"), GetRiskColor("medium"), GetRiskColor("low")}| == 4
  {
    assert Strings.ToLower("critical") == "critical";
    assert Strings.ToLower("high") == "high";
    assert Strings.ToLower("medium") == "medium";
    assert Strings.ToLower("low") == "low";
  }
}
