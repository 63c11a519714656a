/** PHQ-9 severity bands (Kroenke, Spitzer & Williams, J Gen Intern Med 2001):
    the total is split at the cut-points 5, 10, 15 and 20 into five bands,
    and a total of 15 or more is flagged with a warning and helplines. */
module Banding {

  datatype Severity = Minimal | Mild | Moderate | ModeratelySevere | Severe

  /** Cut-points in increasing order; reaching the k-th one (counting from 1)
      puts a total at least in the k-th band above Minimal. */
  const CutPoints: seq<int> := [5, 10, 15, 20]

  /** Totals at or above this show the warning style and the helplines. */
  const HelplineThreshold: int := 15

  /** Position of a band in the order Minimal < Mild < ... < Severe. */
  function Rank(s: Severity): (n: nat)
    ensures n <= |CutPoints|
  {
    match s
    case Minimal => 0
    case Mild => 1
    case Moderate => 2
    case ModeratelySevere => 3
    case Severe => 4
  }

  predicate AtMostAsSevere(x: Severity, y: Severity) {
    Rank(x) <= Rank(y)
  }

  /** The band of a total, tested from the most severe band down; the
      total lies between the band's ends. */
  function Classify(total: int): (s: Severity)
    ensures InBand(total, s)
  {
    if total >= 20 then Severe
    else if total >= 15 then ModeratelySevere
    else if total >= 10 then Moderate
    else if total >= 5 then Mild
    else Minimal
  }

  /** Smallest total in band `s` (Minimal has no lower end: every total
      below the first cut-point lands there). */
  function LowerBound(s: Severity): (b: int)
    requires s != Minimal
  {
    CutPoints[Rank(s) - 1]
  }

  /** First total above band `s` (Severe has no upper end). */
  function UpperBound(s: Severity): (b: int)
    requires s != Severe
  {
    CutPoints[Rank(s)]
  }

  /** Reference definition: `total` lies between the ends of band `s`. */
  predicate InBand(total: int, s: Severity) {
    && (s == Minimal || LowerBound(s) <= total)
    && (s == Severe || total < UpperBound(s))
  }

  /** How many of the cut-points `cps` the total reaches. */
  function Reached(cps: seq<int>, total: int): (n: nat)
    ensures n <= |cps|
  {
    if |cps| == 0 then 0
    else (if cps[0] <= total then 1 else 0) + Reached(cps[1..], total)
  }

  /** A total lies in the band Classify returns and in no other: the bands
      are exhaustive, disjoint, and each one is the stated interval. */
  lemma ClassifyIsBand(total: int, s: Severity)
    ensures Classify(total) == s <==> InBand(total, s)
  {
  }

  /** The band's rank is the number of cut-points the total reaches. */
  lemma ClassifyCountsCutPoints(total: int)
    ensures Rank(Classify(total)) == Reached(CutPoints, total)
  {
    var c1 := CutPoints[1..];
    var c2 := c1[1..];
    var c3 := c2[1..];
    assert c1 == [10, 15, 20] && c2 == [15, 20] && c3 == [20] && c3[1..] == [];
    assert Reached(c3, total) == (if 20 <= total then 1 else 0);
    assert Reached(c2, total) == (if 15 <= total then 1 else 0) + Reached(c3, total);
    assert Reached(c1, total) == (if 10 <= total then 1 else 0) + Reached(c2, total);
    assert Reached(CutPoints, total) == (if 5 <= total then 1 else 0) + Reached(c1, total);
  }

  /** A larger total never falls in a milder band. */
  lemma {:induction false} ClassifyMonotone(s: int, t: int)
    requires s <= t
    ensures AtMostAsSevere(Classify(s), Classify(t))
  {
    ReachedMonotone(CutPoints, s, t);
    ClassifyCountsCutPoints(s);
    ClassifyCountsCutPoints(t);
  }

  lemma {:induction false} ReachedMonotone(cps: seq<int>, s: int, t: int)
    requires s <= t
    ensures Reached(cps, s) <= Reached(cps, t)
  {
    if |cps| > 0 {
      ReachedMonotone(cps[1..], s, t);
    }
  }

  /** Whether the result is shown in warning style with the helplines:
      exactly for totals in the two most severe bands. */
  function ShowHelplines(score: int): (shown: bool)
    ensures shown <==> Classify(score) == ModeratelySevere || Classify(score) == Severe
  {
    score >= HelplineThreshold
  }

  /** Helplines appear exactly for the two most severe bands. */
  lemma HelplinesIffSevere(score: int)
    ensures ShowHelplines(score) <==>
            Classify(score) == ModeratelySevere || Classify(score) == Severe
  {
  }

  /** Name of a band as the feedback text spells it. */
  function Name(s: Severity): (n: string)
  {
    match s
    case Severe => "Severe"
    case ModeratelySevere => "Moderately severe"
    case Moderate => "Moderate"
    case Mild => "Mild"
    case Minimal => "Minimal"
  }

  /** Feedback text shown under the score for each band: the band's name
      followed by its advice. */
  function Message(s: Severity): (m: string)
    ensures |m| > |Name(s)|
    ensures m[..|Name(s)|] == Name(s)
  {
    Name(s) + match s
      case Severe => " depression: Please seek immediate professional help."
      case ModeratelySevere => " depression: It’s highly recommended to talk to a professional."
      case Moderate => " depression: Consider speaking to a professional."
      case Mild => " depression: Professional support might be beneficial."
      case Minimal => " or no depression: No major concerns."
  }

  lemma MessageLength(s: Severity)
    ensures |Message(s)| == match s
      case Severe => 59
      case ModeratelySevere => 80
      case Moderate => 57
      case Mild => 58
      case Minimal => 44
  {
  }

  /** Different bands never show the same feedback text. */
  lemma MessageDeterminesBand(x: Severity, y: Severity)
    ensures Message(x) == Message(y) <==> x == y
  {
    if x != y {
      // the five texts already differ in length
      MessageLength(x);
      MessageLength(y);
    }
  }
}
