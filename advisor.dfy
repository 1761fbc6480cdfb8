/**
 The fitness tips (app.py, lines 101-119): a BMI tier that always produces
 one message, then five independent threshold checks, each producing at most
 one message, and a closing success banner. The tips depend on the form
 submission only.
 */
module Advisor {
  import opened Health

  // The thresholds; every comparison is strict.
  const ObeseAbove: real := 30.0
  const OverweightAbove: real := 25.0
  const CholesterolAbove := 240
  const GlucoseAbove := 126

  datatype Tip =
    | Obese | Overweight | HealthyBmi
    | HighCholesterol | HighGlucose | Smoking | Alcohol | LowActivity

  predicate IsBmiTip(t: Tip)
  {
    t == Obese || t == Overweight || t == HealthyBmi
  }

  /** The condition under which a tip is shown, each stated on its own
      rather than as the else-branch of an earlier test. */
  predicate Fires(m: HealthMetrics, t: Tip)
  {
    match t
    case Obese => m.bmi > ObeseAbove
    case Overweight => OverweightAbove < m.bmi <= ObeseAbove
    case HealthyBmi => m.bmi <= OverweightAbove
    case HighCholesterol => m.cholesterol > CholesterolAbove
    case HighGlucose => m.glucose > GlucoseAbove
    case Smoking => m.smoking == Yes
    case Alcohol => m.alcohol == Yes
    case LowActivity => m.activity == Low
  }

  /** The position of a tip's rule in the chain; the three BMI tips share the first. */
  function Rank(t: Tip): (r: nat)
    ensures r <= 5
    ensures r == 0 <==> IsBmiTip(t)
  {
    match t
    case Obese => 0
    case Overweight => 0
    case HealthyBmi => 0
    case HighCholesterol => 1
    case HighGlucose => 2
    case Smoking => 3
    case Alcohol => 4
    case LowActivity => 5
  }

  /** Tips listed in rule order, each rule at most once. */
  predicate StrictlyRanked(s: seq<Tip>)
  {
    forall i, j :: 0 <= i < j < |s| ==> Rank(s[i]) < Rank(s[j])
  }

  /** The if / elif / else on BMI: exactly one tier, first match wins. */
  function BmiTier(bmi: real): (t: Tip)
    ensures IsBmiTip(t)
    ensures t == Obese <==> bmi > ObeseAbove
    ensures t == Overweight <==> OverweightAbove < bmi <= ObeseAbove
    ensures t == HealthyBmi <==> bmi <= OverweightAbove
  {
    if bmi > ObeseAbove then Obese
    else if bmi > OverweightAbove then Overweight
    else HealthyBmi
  }

  function When(c: bool, t: Tip): (s: seq<Tip>)
    ensures t in s <==> c
    ensures |s| <= 1 && forall u :: u in s ==> u == t
  {
    if c then [t] else []
  }

  /** The tips shown for a submission. Each rule appends its tip, in the
      order the chain runs. */
  function Advise(m: HealthMetrics): (tips: seq<Tip>)
    ensures 1 <= |tips| <= 6
    ensures tips[0] == BmiTier(m.bmi)
  {
    [BmiTier(m.bmi)]
      + When(m.cholesterol > CholesterolAbove, HighCholesterol)
      + When(m.glucose > GlucoseAbove, HighGlucose)
      + When(m.smoking == Yes, Smoking)
      + When(m.alcohol == Yes, Alcohol)
      + When(m.activity == Low, LowActivity)
  }

  /** Appending a tip whose rule comes later keeps the list in rule order,
      and adds that tip exactly when the rule fires. */
  lemma AppendRanked(s: seq<Tip>, c: bool, t: Tip)
    requires StrictlyRanked(s)
    requires forall u :: u in s ==> Rank(u) < Rank(t)
    ensures StrictlyRanked(s + When(c, t))
    ensures forall u :: u in s + When(c, t) <==> u in s || (c && u == t)
    ensures forall u :: u in s + When(c, t) ==> Rank(u) <= Rank(t)
  {
    if c {
      var r := s + [t];
      forall i, j | 0 <= i < j < |r| ensures Rank(r[i]) < Rank(r[j]) {
        if j == |s| { assert r[i] == s[i]; assert s[i] in s; }
        else { assert r[i] == s[i] && r[j] == s[j]; }
      }
    }
  }

  /** Appending a tip when its rule fires adds that tip and nothing else. */
  lemma AppendMembers(s: seq<Tip>, c: bool, t: Tip)
    ensures forall u :: u in s + When(c, t) <==> u in s || (c && u == t)
  {
  }

  /** The chain lists its tips in rule order, the BMI tier first and only first. */
  lemma AdviseRanked(m: HealthMetrics)
    ensures StrictlyRanked(Advise(m))
    ensures forall i :: 0 <= i < |Advise(m)| ==> (IsBmiTip(Advise(m)[i]) <==> i == 0)
    ensures forall i, j :: 0 <= i < j < |Advise(m)| ==> Advise(m)[i] != Advise(m)[j]
  {
    var s0 := [BmiTier(m.bmi)];
    var s1 := s0 + When(m.cholesterol > CholesterolAbove, HighCholesterol);
    AppendRanked(s0, m.cholesterol > CholesterolAbove, HighCholesterol);
    var s2 := s1 + When(m.glucose > GlucoseAbove, HighGlucose);
    AppendRanked(s1, m.glucose > GlucoseAbove, HighGlucose);
    var s3 := s2 + When(m.smoking == Yes, Smoking);
    AppendRanked(s2, m.smoking == Yes, Smoking);
    var s4 := s3 + When(m.alcohol == Yes, Alcohol);
    AppendRanked(s3, m.alcohol == Yes, Alcohol);
    AppendRanked(s4, m.activity == Low, LowActivity);
    var s5 := Advise(m);
    forall i | 0 < i < |s5| ensures !IsBmiTip(s5[i]) {
      assert Rank(s5[0]) < Rank(s5[i]);
    }
    RankedHasNoDuplicates(s5);
  }

  /** Each tip is shown exactly when its rule fires. */
  lemma AdviseMembers(m: HealthMetrics, t: Tip)
    ensures t in Advise(m) <==> Fires(m, t)
  {
    var s0 := [BmiTier(m.bmi)];
    var s1 := s0 + When(m.cholesterol > CholesterolAbove, HighCholesterol);
    var s2 := s1 + When(m.glucose > GlucoseAbove, HighGlucose);
    var s3 := s2 + When(m.smoking == Yes, Smoking);
    var s4 := s3 + When(m.alcohol == Yes, Alcohol);
    AppendMembers(s0, m.cholesterol > CholesterolAbove, HighCholesterol);
    AppendMembers(s1, m.glucose > GlucoseAbove, HighGlucose);
    AppendMembers(s2, m.smoking == Yes, Smoking);
    AppendMembers(s3, m.alcohol == Yes, Alcohol);
    AppendMembers(s4, m.activity == Low, LowActivity);
    assert t in s0 <==> t == BmiTier(m.bmi);
  }

  /** A strictly ranked list holds each tip at most once. */
  lemma RankedHasNoDuplicates(s: seq<Tip>)
    requires StrictlyRanked(s)
    ensures forall i, j :: 0 <= i < j < |s| ==> s[i] != s[j]
  {
  }

  /** The first tip of a strictly ranked list has the least rank, and is the
      only member with that rank. */
  lemma FirstIsLeast(s: seq<Tip>, x: Tip)
    requires StrictlyRanked(s) && x in s
    ensures Rank(s[0]) <= Rank(x)
    ensures Rank(x) == Rank(s[0]) ==> x == s[0]
  {
    var k :| 0 <= k < |s| && s[k] == x;
    if k > 0 {
      assert Rank(s[0]) < Rank(s[k]);
    }
  }

  /** Dropping the first tip of a strictly ranked list removes that tip only. */
  lemma TailMembers(s: seq<Tip>, x: Tip)
    requires StrictlyRanked(s) && s != []
    ensures x in s[1..] <==> x in s && x != s[0]
  {
    if x in s[1..] {
      var k :| 1 <= k < |s| && s[k] == x;
      assert Rank(s[0]) < Rank(s[k]);
    }
    if x in s && x != s[0] {
      var k :| 0 <= k < |s| && s[k] == x;
      assert s[1..][k - 1] == x;
    }
  }

  /** Two strictly ranked lists with the same members are the same list. */
  lemma {:induction false} RankedUnique(a: seq<Tip>, b: seq<Tip>)
    requires StrictlyRanked(a) && StrictlyRanked(b)
    requires forall t :: t in a <==> t in b
    ensures a == b
  {
    if b != [] {
      assert b[0] in a;
    }
    if a != [] {
      assert a[0] in a;
      FirstIsLeast(b, a[0]);
      FirstIsLeast(a, b[0]);
      forall t ensures t in a[1..] <==> t in b[1..] {
        TailMembers(a, t);
        TailMembers(b, t);
      }
      RankedUnique(a[1..], b[1..]);
      assert a == [a[0]] + a[1..] && b == [b[0]] + b[1..];
    }
  }

  /** The tips are determined by the rules alone: a list is what the chain
      shows exactly when it lists the firing tips in rule order. */
  lemma AdviseCharacterised(m: HealthMetrics, s: seq<Tip>)
    ensures s == Advise(m) <==> StrictlyRanked(s) && forall t :: t in s <==> Fires(m, t)
  {
    AdviseRanked(m);
    forall t ensures t in Advise(m) <==> Fires(m, t) {
      AdviseMembers(m, t);
    }
    if StrictlyRanked(s) && forall t :: t in s <==> Fires(m, t) {
      RankedUnique(s, Advise(m));
    }
  }

  /** The boundary values: a BMI of exactly 25 is healthy, exactly 30 is
      overweight, and cholesterol 240 or glucose 126 give no message. */
  lemma Boundaries(m: HealthMetrics)
    ensures m.bmi == 25.0 ==> Advise(m)[0] == HealthyBmi
    ensures m.bmi == 30.0 ==> Advise(m)[0] == Overweight
    ensures m.cholesterol == 240 ==> HighCholesterol !in Advise(m)
    ensures m.glucose == 126 ==> HighGlucose !in Advise(m)
  {
    AdviseMembers(m, HighCholesterol);
    AdviseMembers(m, HighGlucose);
  }

  /** The emoji each tip's text starts with. */
  function Icon(t: Tip): char
  {
    match t
    case Obese => '🏃'
    case Overweight => '⚖'
    case HealthyBmi => '✅'
    case HighCholesterol => '🥗'
    case HighGlucose => '🍎'
    case Smoking => '🚭'
    case Alcohol => '🍷'
    case LowActivity => '🏋'
  }

  /** The rest of each tip's text. Two of the emoji are followed by the
      emoji presentation selector U+FE0F, which belongs to the text. */
  function Rest(t: Tip): string
  {
    match t
    case Obese => " You are in the **Obese** category. Consider weight management strategies like daily walking and a balanced diet."
    case Overweight => "\U{FE0F} You are **Overweight**. Regular exercise and reducing processed food can help lower risk."
    case HealthyBmi => " Your BMI is in the healthy range. Maintain your lifestyle with regular activity."
    case HighCholesterol => " Your cholesterol is high. Reduce saturated fats and increase fiber intake."
    case HighGlucose => " Your glucose level is high. Monitor sugar intake and consult a doctor for diabetes screening."
    case Smoking => " Quitting smoking will significantly reduce chronic disease risks."
    case Alcohol => " Reduce alcohol intake to improve heart and liver health."
    case LowActivity => "\U{FE0F} Increase your physical activity (at least 30 min of brisk walking daily)."
  }

  /** The text st.write shows for a tip. */
  function Message(t: Tip): string
  {
    [Icon(t)] + Rest(t)
  }

  /** The text of the closing st.success call. */
  const BannerText: string := ['🎯'] + " Stay consistent with healthy habits for long-term fitness!"

  /** One element of page output: an st.write of a tip's message, or the
      closing success banner. */
  datatype Line = Write(tip: Tip) | Banner

  function Render(l: Line): string
  {
    match l
    case Write(t) => Message(t)
    case Banner => BannerText
  }

  /** The page never shows the same text for two different lines: distinct
      tips, and the banner, are written as distinct texts. */
  lemma RenderInjective(l: Line, l': Line)
    requires Render(l) == Render(l')
    ensures l == l'
  {
    RenderStartsWith(l);
    RenderStartsWith(l');
    LeadInjective(l, l');
  }

  lemma LeadInjective(l: Line, l': Line)
    requires Lead(l) == Lead(l')
    ensures l == l'
  {
  }

  /** The first character of a line's text: its emoji. */
  function Lead(l: Line): char
  {
    match l
    case Write(t) => Icon(t)
    case Banner => '🎯'
  }

  lemma RenderStartsWith(l: Line)
    ensures |Render(l)| > 0 && Render(l)[0] == Lead(l)
  {
  }

  /** The written lines for a list of tips, one per tip in the same order. */
  function Writes(tips: seq<Tip>): (lines: seq<Line>)
  {
    seq(|tips|, i requires 0 <= i < |tips| => Write(tips[i]))
  }

  /** The page the tips section produces: the tip messages in order, then the banner. */
  function TipsPage(m: HealthMetrics): seq<Line>
  {
    Writes(Advise(m)) + [Banner]
  }

  /** The banner is always last and appears once, preceded by one written
      line per tip. */
  lemma TipsPageShape(m: HealthMetrics)
    ensures |TipsPage(m)| == |Advise(m)| + 1
    ensures 2 <= |TipsPage(m)| <= 7
    ensures TipsPage(m)[|TipsPage(m)| - 1] == Banner
    ensures forall i :: 0 <= i < |TipsPage(m)| - 1 ==> TipsPage(m)[i] == Write(Advise(m)[i])
  {
  }

  /** Appending a tip when its rule fires appends its line when it fires. */
  lemma WritesWhen(tips: seq<Tip>, c: bool, t: Tip)
    ensures Writes(tips + When(c, t)) == Writes(tips) + (if c then [Write(t)] else [])
  {
    if c {
      assert (tips + [t])[..|tips|] == tips;
    } else {
      assert tips + [] == tips;
    }
  }

  /** The tips section run step by step: each rule that fires appends its
      message to the page, then the banner is appended. */
  method ShowFitnessTips(m: HealthMetrics) returns (page: seq<Line>)
    ensures page == TipsPage(m)
  {
    ghost var tips := [BmiTier(m.bmi)];
    if m.bmi > ObeseAbove {
      page := [Write(Obese)];
    } else if m.bmi > OverweightAbove {
      page := [Write(Overweight)];
    } else {
      page := [Write(HealthyBmi)];
    }
    assert page == Writes(tips);
    WritesWhen(tips, m.cholesterol > CholesterolAbove, HighCholesterol);
    tips := tips + When(m.cholesterol > CholesterolAbove, HighCholesterol);
    if m.cholesterol > CholesterolAbove {
      page := page + [Write(HighCholesterol)];
    }
    assert page == Writes(tips);
    WritesWhen(tips, m.glucose > GlucoseAbove, HighGlucose);
    tips := tips + When(m.glucose > GlucoseAbove, HighGlucose);
    if m.glucose > GlucoseAbove {
      page := page + [Write(HighGlucose)];
    }
    assert page == Writes(tips);
    WritesWhen(tips, m.smoking == Yes, Smoking);
    tips := tips + When(m.smoking == Yes, Smoking);
    if m.smoking == Yes {
      page := page + [Write(Smoking)];
    }
    assert page == Writes(tips);
    WritesWhen(tips, m.alcohol == Yes, Alcohol);
    tips := tips + When(m.alcohol == Yes, Alcohol);
    if m.alcohol == Yes {
      page := page + [Write(Alcohol)];
    }
    assert page == Writes(tips);
    WritesWhen(tips, m.activity == Low, LowActivity);
    tips := tips + When(m.activity == Low, LowActivity);
    if m.activity == Low {
      page := page + [Write(LowActivity)];
    }
    assert page == Writes(tips);
    page := page + [Banner];
  }
}
