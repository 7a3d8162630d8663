/**
 The scoring passes of services/pain_inference.py. Which rules fire is input; the passes that
 compound, dampen, adjust, weigh, filter, demote and sort what fired are modelled as written.
*/
module PainInference {
  import opened Common

  datatype Inference = Inference(ruleId: string, category: string, confidence: int)

  /** What the dampeners and the detection pass read of the bundle; detections are by rule. */
  datatype Signals = Signals(sslAutomation: bool, hiresDevops: bool, dataPlatformTools: bool, domains: nat,
                             detections: map<string, seq<int>>)

  /** Keyword hits of problems_solved per category, and whether the product type is msp. */
  datatype Seller = Seller(security: nat, engineering: nat, operations: nat, marketing: nat, data: nat, msp: bool)

  function Hits(seller: Seller, category: string): nat {
    if category == "security" then seller.security
    else if category == "engineering" then seller.engineering
    else if category == "operations" then seller.operations
    else if category == "marketing" then seller.marketing
    else if category == "data" then seller.data
    else 0
  }

  function MaxHits(seller: Seller): int {
    Max(seller.security, Max(seller.engineering, Max(seller.operations, Max(seller.marketing, seller.data))))
  }

  function Boosts(sellerCategory: string): set<string> {
    if sellerCategory == "database" then
      {"database_scaling_pressure", "data_infra_pain", "scaling_pressure", "tech_debt"}
    else if sellerCategory == "cloud" then
      {"multi_cloud", "vendor_lock_in", "scaling_pressure", "cloud_program_capacity_gap",
       "transformation_hiring_cluster", "partner_delivery_motion", "observability_gap",
       "observability_stack_detected"}
    else if sellerCategory == "fintech" then {"compliance_gap", "security_gap", "cert_gap"}
    else if sellerCategory == "healthtech" then {"compliance_gap", "security_gap"}
    else if sellerCategory == "martech" then {"identity_fragmentation", "tag_bloat", "marketing_product_mismatch"}
    else if sellerCategory == "devtools" then
      {"observability_gap", "observability_stack_detected", "tool_sprawl", "scaling_pressure", "tech_debt"}
    else {}
  }

  predicate Scored(results: seq<Inference>, low: int, high: int) {
    forall i :: 0 <= i < |results| ==> low <= results[i].confidence <= high
  }

  predicate Fired(results: seq<Inference>, ruleId: string) {
    exists i :: 0 <= i < |results| && results[i].ruleId == ruleId
  }

  // ---- the passes, one inference or one list at a time -------------------------

  /** The last result of a rule, as a dictionary keyed by rule id keeps it. */
  function LastOf(results: seq<Inference>, ruleId: string): (i: nat)
    requires Fired(results, ruleId)
    ensures i < |results| && results[i].ruleId == ruleId
    ensures forall j :: i < j < |results| ==> results[j].ruleId != ruleId
    decreases |results|
  {
    var last := |results| - 1;
    if results[last].ruleId == ruleId then last else
    assert Fired(results[..last], ruleId) by {
      var i :| 0 <= i < |results| && results[i].ruleId == ruleId;
      assert results[..last][i] == results[i];
    }
    LastOf(results[..last], ruleId)
  }

  function Matched(results: seq<Inference>, constituents: seq<string>): seq<string>
    decreases |constituents|
  {
    if constituents == [] then [] else
    var last := |constituents| - 1;
    Matched(results, constituents[..last])
    + if Fired(results, constituents[last]) then [constituents[last]] else []
  }

  /** The highest confidence among the matched rules. */
  function Highest(results: seq<Inference>, matched: seq<string>): int
    requires forall i :: 0 <= i < |matched| ==> Fired(results, matched[i])
    requires matched != []
    decreases |matched|
  {
    var last := |matched| - 1;
    var own := results[LastOf(results, matched[last])].confidence;
    if last == 0 then own else Max(Highest(results, matched[..last]), own)
  }

  lemma {:induction false} MatchedFired(results: seq<Inference>, constituents: seq<string>)
    ensures forall i :: 0 <= i < |Matched(results, constituents)| ==> Fired(results, Matched(results, constituents)[i])
    decreases |constituents|
  {
    if constituents != [] {
      MatchedFired(results, constituents[..|constituents| - 1]);
    }
  }

  datatype CompoundRule = CompoundRule(ruleId: string, category: string, constituents: seq<string>)

  const COMPOUNDS := [
    CompoundRule("systemic_security_underinvestment", "security", ["security_gap", "cert_gap"]),
    CompoundRule("engineering_capacity_crisis", "engineering",
                 ["tech_debt", "scaling_pressure", "hiring_velocity_anomaly"]),
    CompoundRule("marketing_infra_debt", "marketing",
                 ["identity_fragmentation", "tag_bloat", "marketing_product_mismatch"])]

  /** What a compound rule adds: one result, 10 above its best constituent, when two of them fired. */
  function Compound(fired: seq<Inference>, rule: CompoundRule): seq<Inference> {
    var matched := Matched(fired, rule.constituents);
    MatchedFired(fired, rule.constituents);
    if |matched| >= 2 then [Inference(rule.ruleId, rule.category, Min(Highest(fired, matched) + 10, 95))] else []
  }

  /** What compound rules add, rule by rule. */
  function CompoundsOf(fired: seq<Inference>, rules: seq<CompoundRule>): seq<Inference>
    decreases |rules|
  {
    if rules == [] then []
    else CompoundsOf(fired, rules[..|rules| - 1]) + Compound(fired, rules[|rules| - 1])
  }

  function Compounded(fired: seq<Inference>): seq<Inference> {
    fired + CompoundsOf(fired, COMPOUNDS)
  }

  /** A rule's result lowered by n, but not below `least` if it has one. */
  function Lowered(results: seq<Inference>, ruleId: string, n: int, least: Option<int>): (lowered: seq<Inference>)
    ensures |lowered| == |results|
  {
    if !Fired(results, ruleId) then results else
    var i := LastOf(results, ruleId);
    var c := results[i].confidence - n;
    results[i := results[i].(confidence := if least.Some? then Max(c, least.value) else c)]
  }

  function Floored(results: seq<Inference>): (floored: seq<Inference>)
    ensures |floored| == |results|
  {
    seq(|results|, i requires 0 <= i < |results| => results[i].(confidence := Max(results[i].confidence, 10)))
  }

  function Dampened(results: seq<Inference>, signals: Signals): (dampened: seq<Inference>)
    ensures |dampened| == |results|
  {
    var a := if Fired(results, "cert_gap") && signals.sslAutomation
             then Lowered(results, "systemic_security_underinvestment", 15, None) else results;
    var b := if signals.hiresDevops then Lowered(a, "observability_gap", 10, None) else a;
    var c := if signals.dataPlatformTools then Lowered(b, "database_scaling_pressure", 10, None) else b;
    var d := if signals.domains > 3
             then Lowered(c, "tool_sprawl", 10 * (signals.domains - 3), Some(30)) else c;
    Floored(d)
  }

  function Sum(xs: seq<int>): int
    decreases |xs|
  {
    if xs == [] then 0 else Sum(xs[..|xs| - 1]) + xs[|xs| - 1]
  }

  function Clamp(c: int): int {
    Max(10, Min(95, c))
  }

  /** Lowered where the technologies behind it were detected with an average confidence below 60 or 40. */
  function Detected(r: Inference, signals: Signals): Inference {
    if r.ruleId !in signals.detections || signals.detections[r.ruleId] == [] then r else
    var relevant := signals.detections[r.ruleId];
    var n := |relevant|;
    var less := if Sum(relevant) < 40 * n then 20 else if Sum(relevant) < 60 * n then 10 else 0;
    r.(confidence := Clamp(r.confidence - less))
  }

  function Suppressed(r: Inference, seller: Seller): Inference {
    if Hits(seller, "security") == 0 && r.category == "security" then r.(confidence := 0) else r
  }

  function Layer1(r: Inference, seller: Seller): Inference {
    if r.category == "" || r.confidence == 0 then r
    else if Hits(seller, r.category) >= 1 then r.(confidence := r.confidence + 15)
    else if MaxHits(seller) >= 2 then r.(confidence := r.confidence - 10)
    else r
  }

  function Layer2(r: Inference, sellerCategory: string): Inference {
    if r.ruleId in Boosts(sellerCategory) && r.confidence > 0 then r.(confidence := r.confidence + 15) else r
  }

  function Bonus(r: Inference, seller: Seller): Inference {
    if seller.msp && (r.category == "operations" || r.category == "data") then r.(confidence := r.confidence + 5) else r
  }

  function Clamped(r: Inference): Inference {
    if r.confidence > 0 then r.(confidence := Clamp(r.confidence)) else r
  }

  /** The whole seller pass on one result. */
  function Weighed(r: Inference, seller: Seller, sellerCategory: string): Inference {
    var s := Suppressed(r, seller);
    if MaxHits(seller) == 0 && sellerCategory == "" then s
    else Clamped(Bonus(Layer2(Layer1(s, seller), sellerCategory), seller))
  }

  function Demoted(r: Inference, irrelevant: set<string>): Inference {
    if r.ruleId in irrelevant then r.(category := "_background_" + r.category) else r
  }

  function Positive(results: seq<Inference>): seq<Inference>
    decreases |results|
  {
    if results == [] then [] else
    var last := |results| - 1;
    Positive(results[..last]) + if results[last].confidence > 0 then [results[last]] else []
  }

  function Insert(r: Inference, rest: seq<Inference>): seq<Inference> {
    if rest == [] || r.confidence >= rest[0].confidence then [r] + rest else [rest[0]] + Insert(r, rest[1..])
  }

  /** sort(key=confidence, reverse=True), which keeps results of equal confidence in their order. */
  function Sorted(results: seq<Inference>): seq<Inference> {
    if results == [] then [] else Insert(results[0], Sorted(results[1..]))
  }

  // ---- the engine -------------------------------------------------------------

  function DetectedAll(results: seq<Inference>, signals: Signals): (detected: seq<Inference>)
    ensures |detected| == |results|
  {
    seq(|results|, i requires 0 <= i < |results| => Detected(results[i], signals))
  }

  /** The results as the passes that do not know the seller leave them. */
  function Adjusted(fired: seq<Inference>, signals: Signals): seq<Inference> {
    DetectedAll(Dampened(Compounded(fired), signals), signals)
  }

  function WeighedAll(results: seq<Inference>, seller: Seller, sellerCategory: string): (weighed: seq<Inference>)
    ensures |weighed| == |results|
  {
    seq(|results|, i requires 0 <= i < |results| => Weighed(results[i], seller, sellerCategory))
  }

  function Kept(results: seq<Inference>, seller: Option<Seller>, sellerCategory: string): seq<Inference> {
    if seller.Some? then Positive(WeighedAll(results, seller.value, sellerCategory)) else results
  }

  function DemotedAll(results: seq<Inference>, sellerCategory: string, irrelevant: set<string>): seq<Inference> {
    if sellerCategory == "" then results
    else seq(|results|, i requires 0 <= i < |results| => Demoted(results[i], irrelevant))
  }

  function Evaluated(fired: seq<Inference>, signals: Signals, seller: Option<Seller>, sellerCategory: string,
                     irrelevant: set<string>): seq<Inference>
  {
    Sorted(DemotedAll(Kept(Adjusted(fired, signals), seller, sellerCategory), sellerCategory, irrelevant))
  }

  // ---- what each pass makes of a confidence -----------------------------------

  lemma CompoundsInTurn(fired: seq<Inference>, a: CompoundRule, b: CompoundRule, c: CompoundRule)
    ensures CompoundsOf(fired, [a, b, c]) == Compound(fired, a) + Compound(fired, b) + Compound(fired, c)
  {
    assert [a, b, c][..2] == [a, b] && [a, b][..1] == [a] && [a][..0] == [];
    assert CompoundsOf(fired, [a]) == Compound(fired, a);
  }

  lemma {:induction false} MatchedTwo(fired: seq<Inference>, constituents: seq<string>)
    ensures |Matched(fired, constituents)| >= 1 <==>
            exists a :: 0 <= a < |constituents| && Fired(fired, constituents[a])
    ensures |Matched(fired, constituents)| >= 2 <==>
            exists a, b :: 0 <= a < b < |constituents| && Fired(fired, constituents[a]) && Fired(fired, constituents[b])
    decreases |constituents|
  {
    if constituents != [] {
      var last := |constituents| - 1;
      var front := constituents[..last];
      MatchedTwo(fired, front);
      assert forall a :: 0 <= a < last ==> front[a] == constituents[a];
    }
  }

  lemma {:induction false} MatchedMembers(fired: seq<Inference>, constituents: seq<string>, id: string)
    ensures id in Matched(fired, constituents) <==> id in constituents && Fired(fired, id)
    decreases |constituents|
  {
    if constituents != [] {
      var last := |constituents| - 1;
      MatchedMembers(fired, constituents[..last], id);
      assert constituents == constituents[..last] + [constituents[last]];
    }
  }

  lemma {:induction false} HighestMeaning(fired: seq<Inference>, matched: seq<string>)
    requires matched != [] && forall i :: 0 <= i < |matched| ==> Fired(fired, matched[i])
    ensures forall id :: id in matched ==> fired[LastOf(fired, id)].confidence <= Highest(fired, matched)
    ensures exists id :: id in matched && fired[LastOf(fired, id)].confidence == Highest(fired, matched)
    decreases |matched|
  {
    var last := |matched| - 1;
    var own := fired[LastOf(fired, matched[last])].confidence;
    assert matched[last] in matched;
    if last > 0 {
      var front := matched[..last];
      HighestMeaning(fired, front);
      assert forall id :: id in matched <==> id in front || id == matched[last];
      if Highest(fired, matched) != own {
        var id :| id in front && fired[LastOf(fired, id)].confidence == Highest(fired, front);
        assert id in matched;
      }
    }
  }

  /** A rule's confidence is that of its last result. */
  predicate ConfidenceIs(fired: seq<Inference>, ruleId: string, c: int) {
    exists i :: && 0 <= i < |fired| && fired[i].ruleId == ruleId && fired[i].confidence == c
                && forall j :: i < j < |fired| ==> fired[j].ruleId != ruleId
  }

  lemma LastConfidence(fired: seq<Inference>, ruleId: string, c: int)
    requires Fired(fired, ruleId)
    ensures ConfidenceIs(fired, ruleId, c) <==> c == fired[LastOf(fired, ruleId)].confidence
  {
    var last := LastOf(fired, ruleId);
    if ConfidenceIs(fired, ruleId, c) {
      var i :| && 0 <= i < |fired| && fired[i].ruleId == ruleId && fired[i].confidence == c
               && forall j :: i < j < |fired| ==> fired[j].ruleId != ruleId;
      assert !(i < last) && !(last < i);
    }
  }

  /** The highest confidence among some rules. */
  ghost predicate IsBest(fired: seq<Inference>, ids: seq<string>, best: int) {
    && (exists id :: id in ids && ConfidenceIs(fired, id, best))
    && (forall id, c :: id in ids && ConfidenceIs(fired, id, c) ==> c <= best)
  }

  /**
   A compound fires exactly when two of its constituents fired, 10 above the highest of their
   confidences and at most at 95.
  */
  lemma CompoundMeaning(fired: seq<Inference>, rule: CompoundRule)
    ensures Compound(fired, rule) == [] || |Compound(fired, rule)| == 1
    ensures Compound(fired, rule) != [] <==>
            exists a, b :: && 0 <= a < b < |rule.constituents|
                           && Fired(fired, rule.constituents[a]) && Fired(fired, rule.constituents[b])
    ensures Compound(fired, rule) != [] ==>
            exists best :: && IsBest(fired, rule.constituents, best)
                           && Compound(fired, rule)[0]
                              == Inference(rule.ruleId, rule.category, if best > 85 then 95 else best + 10)
  {
    var matched := Matched(fired, rule.constituents);
    MatchedFired(fired, rule.constituents);
    MatchedTwo(fired, rule.constituents);
    if |matched| >= 2 {
      var best := Highest(fired, matched);
      HighestMeaning(fired, matched);
      var top :| top in matched && fired[LastOf(fired, top)].confidence == best;
      MatchedMembers(fired, rule.constituents, top);
      LastConfidence(fired, top, best);
      forall id, c | id in rule.constituents && ConfidenceIs(fired, id, c)
        ensures c <= best
      {
        MatchedMembers(fired, rule.constituents, id);
        LastConfidence(fired, id, c);
      }
      assert IsBest(fired, rule.constituents, best);
    }
  }

  predicate IsLast(results: seq<Inference>, i: nat)
    requires i < |results|
  {
    forall j :: i < j < |results| ==> results[j].ruleId != results[i].ruleId
  }

  /** A confidence after the dampeners, which speak of the last result of their rule, and the floor of 10. */
  function DampenedScore(results: seq<Inference>, i: nat, signals: Signals): int
    requires i < |results|
  {
    var (ruleId, c) := (results[i].ruleId, results[i].confidence);
    var lowered :=
      if !IsLast(results, i) then c
      else if ruleId == "systemic_security_underinvestment" && signals.sslAutomation
              && exists j :: 0 <= j < |results| && results[j].ruleId == "cert_gap" then c - 15
      else if ruleId == "observability_gap" && signals.hiresDevops then c - 10
      else if ruleId == "database_scaling_pressure" && signals.dataPlatformTools then c - 10
      else if ruleId == "tool_sprawl" && signals.domains > 3 then
        if c - 10 * (signals.domains - 3) < 30 then 30 else c - 10 * (signals.domains - 3)
      else c;
    if lowered < 10 then 10 else lowered
  }

  /** One dampener touches the last result of its rule, and nothing else. */
  lemma LoweredAt(results: seq<Inference>, ruleId: string, n: int, least: Option<int>, i: nat)
    requires i < |results|
    ensures Lowered(results, ruleId, n, least)[i]
         == if results[i].ruleId != ruleId || !IsLast(results, i) then results[i]
            else results[i].(confidence := if least.Some? then Max(results[i].confidence - n, least.value)
                                           else results[i].confidence - n)
    ensures Lowered(results, ruleId, n, least)[i].ruleId == results[i].ruleId
  {
    if Fired(results, ruleId) {
      var last := LastOf(results, ruleId);
      if results[i].ruleId == ruleId && i != last {
        assert !(last < i);
      }
    } else {
      assert results[i].ruleId != ruleId;
    }
  }

  lemma SameRules(results: seq<Inference>, lowered: seq<Inference>, i: nat)
    requires |lowered| == |results| && i < |results|
    requires forall j :: 0 <= j < |results| ==> lowered[j].ruleId == results[j].ruleId
    ensures IsLast(lowered, i) <==> IsLast(results, i)
  {
  }

  /** results with one dampener applied if asked for */
  function Damped(results: seq<Inference>, apply: bool, ruleId: string, n: int, least: Option<int>):
    (damped: seq<Inference>)
    ensures |damped| == |results|
  {
    if apply then Lowered(results, ruleId, n, least) else results
  }

  lemma DampedAt(results: seq<Inference>, apply: bool, ruleId: string, n: int, least: Option<int>, i: nat)
    requires i < |results|
    ensures var damped := Damped(results, apply, ruleId, n, least);
            && (forall j :: 0 <= j < |results| ==> damped[j].ruleId == results[j].ruleId)
            && (IsLast(damped, i) <==> IsLast(results, i))
            && var c := results[i].confidence - n;
               damped[i] == if !apply || results[i].ruleId != ruleId || !IsLast(results, i) then results[i]
                            else results[i].(confidence := if least.Some? then Max(c, least.value) else c)
  {
    if apply {
      LoweredAt(results, ruleId, n, least, i);
    }
    SameRules(results, Damped(results, apply, ruleId, n, least), i);
  }

  lemma DampenedAt(results: seq<Inference>, signals: Signals, i: nat)
    requires i < |results|
    ensures Dampened(results, signals)[i] == results[i].(confidence := DampenedScore(results, i, signals))
  {
    var first := Fired(results, "cert_gap") && signals.sslAutomation;
    var a := Damped(results, first, "systemic_security_underinvestment", 15, None);
    var b := Damped(a, signals.hiresDevops, "observability_gap", 10, None);
    var c := Damped(b, signals.dataPlatformTools, "database_scaling_pressure", 10, None);
    DampedAt(results, first, "systemic_security_underinvestment", 15, None, i);
    DampedAt(a, signals.hiresDevops, "observability_gap", 10, None, i);
    DampedAt(b, signals.dataPlatformTools, "database_scaling_pressure", 10, None, i);
    DampedAt(c, signals.domains > 3, "tool_sprawl", 10 * (signals.domains - 3), Some(30), i);
  }

  /** Each result with the confidence the dampeners leave it. */
  predicate IsDampened(before: seq<Inference>, after: seq<Inference>, signals: Signals) {
    && |after| == |before|
    && forall k :: 0 <= k < |before| ==> after[k] == before[k].(confidence := DampenedScore(before, k, signals))
  }

  lemma DampenedMeaning(results: seq<Inference>, signals: Signals)
    ensures IsDampened(results, Dampened(results, signals), signals)
  {
    forall k | 0 <= k < |results|
      ensures Dampened(results, signals)[k] == results[k].(confidence := DampenedScore(results, k, signals))
    {
      DampenedAt(results, signals, k);
    }
  }

  /** sum(xs) / len(xs) */
  function Average(xs: seq<int>): real
    requires xs != []
  {
    Sum(xs) as real / |xs| as real
  }

  lemma {:induction false} SumAppend(xs: seq<int>, ys: seq<int>)
    ensures Sum(xs + ys) == Sum(xs) + Sum(ys)
    ensures forall x :: Sum([x]) == x
    decreases |ys|
  {
    forall x
      ensures Sum([x]) == x
    {
      assert [x][..0] == [];
    }
    if ys == [] {
      assert xs + ys == xs;
    } else {
      assert (xs + ys)[..|xs + ys| - 1] == xs + ys[..|ys| - 1];
      SumAppend(xs, ys[..|ys| - 1]);
    }
  }

  /** A confidence after detection: 20 less below an average of 40, 10 less below 60, and between 10 and 95. */
  function DetectedScore(r: Inference, signals: Signals): int {
    if r.ruleId !in signals.detections || signals.detections[r.ruleId] == [] then r.confidence else
    var average := Average(signals.detections[r.ruleId]);
    var c := if average < 40.0 then r.confidence - 20 else if average < 60.0 then r.confidence - 10 else r.confidence;
    if c < 10 then 10 else if c > 95 then 95 else c
  }

  lemma AverageBelow(sum: int, n: nat, bound: nat)
    requires n > 0
    ensures sum as real / n as real < bound as real <==> sum < bound * n
  {
    var average := sum as real / n as real;
    assert average * n as real == sum as real;
    if average < bound as real {
      assert average * n as real < bound as real * n as real;
    } else {
      assert average * n as real >= bound as real * n as real;
    }
    assert bound as real * n as real == (bound * n) as real;
  }

  /** Each result with the confidence that detection leaves it. */
  predicate IsDetected(before: seq<Inference>, after: seq<Inference>, signals: Signals) {
    && |after| == |before|
    && forall k :: 0 <= k < |before| ==> after[k] == before[k].(confidence := DetectedScore(before[k], signals))
  }

  lemma DetectedMeaning(results: seq<Inference>, signals: Signals)
    ensures IsDetected(results, DetectedAll(results, signals), signals)
  {
    forall k | 0 <= k < |results|
      ensures Detected(results[k], signals) == results[k].(confidence := DetectedScore(results[k], signals))
    {
      var r := results[k];
      if r.ruleId in signals.detections && signals.detections[r.ruleId] != [] {
        var relevant := signals.detections[r.ruleId];
        AverageBelow(Sum(relevant), |relevant|, 40);
        AverageBelow(Sum(relevant), |relevant|, 60);
      }
    }
  }

  /** The seller categories that care most for a rule. */
  predicate Favoured(ruleId: string, sellerCategory: string) {
    || (ruleId == "database_scaling_pressure" && sellerCategory == "database")
    || (ruleId == "data_infra_pain" && sellerCategory == "database")
    || (ruleId == "scaling_pressure" && sellerCategory in ["database", "cloud", "devtools"])
    || (ruleId == "tech_debt" && sellerCategory in ["database", "devtools"])
    || (ruleId == "multi_cloud" && sellerCategory == "cloud")
    || (ruleId == "vendor_lock_in" && sellerCategory == "cloud")
    || (ruleId == "cloud_program_capacity_gap" && sellerCategory == "cloud")
    || (ruleId == "transformation_hiring_cluster" && sellerCategory == "cloud")
    || (ruleId == "partner_delivery_motion" && sellerCategory == "cloud")
    || (ruleId == "observability_gap" && sellerCategory in ["cloud", "devtools"])
    || (ruleId == "observability_stack_detected" && sellerCategory in ["cloud", "devtools"])
    || (ruleId == "tool_sprawl" && sellerCategory == "devtools")
    || (ruleId == "compliance_gap" && sellerCategory in ["fintech", "healthtech"])
    || (ruleId == "security_gap" && sellerCategory in ["fintech", "healthtech"])
    || (ruleId == "cert_gap" && sellerCategory == "fintech")
    || (ruleId == "identity_fragmentation" && sellerCategory == "martech")
    || (ruleId == "tag_bloat" && sellerCategory == "martech")
    || (ruleId == "marketing_product_mismatch" && sellerCategory == "martech")
  }

  lemma BoostsAre(ruleId: string, sellerCategory: string)
    ensures ruleId in Boosts(sellerCategory) <==> Favoured(ruleId, sellerCategory)
  {
    if sellerCategory in ["database", "cloud", "fintech"] {
      BoostsOf(ruleId, sellerCategory);
    } else {
      BoostsOfOthers(ruleId, sellerCategory);
    }
  }

  lemma BoostsOf(ruleId: string, sellerCategory: string)
    requires sellerCategory in ["database", "cloud", "fintech"]
    ensures ruleId in Boosts(sellerCategory) <==> Favoured(ruleId, sellerCategory)
  {
  }

  lemma BoostsOfOthers(ruleId: string, sellerCategory: string)
    requires sellerCategory !in ["database", "cloud", "fintech"]
    ensures ruleId in Boosts(sellerCategory) <==> Favoured(ruleId, sellerCategory)
  {
  }

  /** The seller's keywords speak of the category. */
  predicate Touches(seller: Seller, category: string) {
    || (category == "security" && seller.security >= 1)
    || (category == "engineering" && seller.engineering >= 1)
    || (category == "operations" && seller.operations >= 1)
    || (category == "marketing" && seller.marketing >= 1)
    || (category == "data" && seller.data >= 1)
  }

  predicate SomeHits(seller: Seller, n: int) {
    || seller.security >= n || seller.engineering >= n || seller.operations >= n || seller.marketing >= n
    || seller.data >= n
  }

  /**
   The confidence with which a result from 10 to 95 leaves the seller pass: 0 for security without
   a security seller; as it was, for a seller of whom nothing is known; and otherwise with 15 more
   for a category the seller touches or 10 less for one that a focused seller does not, 15 more for
   a rule the seller cares for, and 5 more for operations and data if it sells services, between 10
   and 95. A result that comes to 0 by its category is dropped, unless the 5 revive it.
  */
  function SellerScore(r: Inference, seller: Seller, sellerCategory: string): int {
    var byCategory :=
      if r.category == "" then 0
      else if Touches(seller, r.category) then 15
      else if SomeHits(seller, 2) then -10
      else 0;
    var byRule := if Favoured(r.ruleId, sellerCategory) then 15 else 0;
    var byService := if seller.msp && (r.category == "operations" || r.category == "data") then 5 else 0;
    if r.category == "security" && seller.security == 0 then 0
    else if !SomeHits(seller, 1) && sellerCategory == "" then r.confidence
    else if r.confidence == 10 && byCategory == -10 then (if byService == 5 then 10 else 0)
    else
      var c := r.confidence + byCategory + byRule + byService;
      if c < 10 then 10 else if c > 95 then 95 else c
  }

  lemma HitsTouch(seller: Seller, category: string)
    ensures Hits(seller, category) >= 1 <==> Touches(seller, category)
    ensures forall n :: n >= 1 ==> (MaxHits(seller) >= n <==> SomeHits(seller, n))
  {
  }

  lemma WeighedScore(r: Inference, seller: Seller, sellerCategory: string)
    requires 10 <= r.confidence <= 95
    ensures Weighed(r, seller, sellerCategory) == r.(confidence := SellerScore(r, seller, sellerCategory))
  {
    HitsTouch(seller, r.category);
    HitsTouch(seller, "security");
    if !(r.category == "security" && seller.security == 0) && (SomeHits(seller, 1) || sellerCategory != "") {
      LayersScore(r, seller, sellerCategory);
    }
  }

  lemma LayersScore(r: Inference, seller: Seller, sellerCategory: string)
    requires 10 <= r.confidence <= 95 && !(r.category == "security" && seller.security == 0)
    requires SomeHits(seller, 1) || sellerCategory != ""
    ensures Clamped(Bonus(Layer2(Layer1(r, seller), sellerCategory), seller))
         == r.(confidence := SellerScore(r, seller, sellerCategory))
  {
    BoostsAre(r.ruleId, sellerCategory);
    HitsTouch(seller, r.category);
  }

  /** Each result with the confidence it leaves the seller pass with. */
  predicate IsWeighed(before: seq<Inference>, after: seq<Inference>, seller: Seller, sellerCategory: string) {
    && |after| == |before|
    && forall k :: 0 <= k < |before| && 10 <= before[k].confidence <= 95 ==>
         after[k] == before[k].(confidence := SellerScore(before[k], seller, sellerCategory))
  }

  lemma WeighedMeaning(results: seq<Inference>, seller: Seller, sellerCategory: string)
    ensures IsWeighed(results, WeighedAll(results, seller, sellerCategory), seller, sellerCategory)
  {
    forall k | 0 <= k < |results| && 10 <= results[k].confidence <= 95
      ensures Weighed(results[k], seller, sellerCategory)
           == results[k].(confidence := SellerScore(results[k], seller, sellerCategory))
    {
      WeighedScore(results[k], seller, sellerCategory);
    }
  }

  /** An adjusted result is a compounded one, dampened first and then lowered for weak detections. */
  lemma AdjustedAt(fired: seq<Inference>, signals: Signals, i: nat)
    requires i < |Compounded(fired)|
    ensures |Adjusted(fired, signals)| == |Compounded(fired)|
    ensures var (before, after) := (Compounded(fired)[i], Adjusted(fired, signals)[i]);
            var dampened := before.(confidence := DampenedScore(Compounded(fired), i, signals));
            after == before.(confidence := DetectedScore(dampened, signals))
  {
    DampenedAt(Compounded(fired), signals, i);
    DetectedMeaning(Dampened(Compounded(fired), signals), signals);
  }

  class Engine {
    var results: seq<Inference>

    constructor (fired: seq<Inference>)
      ensures results == fired
    {
      results := fired;
    }

    /** One compound rule against the rules that fired. */
    method EvaluateCompound(fired: seq<Inference>, rule: CompoundRule)
      modifies this
      ensures results == old(results) + Compound(fired, rule)
    {
      var matched := Matched(fired, rule.constituents);
      MatchedFired(fired, rule.constituents);
      if |matched| >= 2 {
        var conf := Min(Highest(fired, matched) + 10, 95);
        results := results + [Inference(rule.ruleId, rule.category, conf)];
      }
    }

    method EvaluateRules(rules: seq<CompoundRule>)
      modifies this
      ensures results == old(results) + CompoundsOf(old(results), rules)
    {
      var fired := results;
      for k := 0 to |rules|
        invariant results == fired + CompoundsOf(fired, rules[..k])
      {
        assert rules[..k + 1][..k] == rules[..k];
        EvaluateCompound(fired, rules[k]);
      }
      assert rules[..|rules|] == rules;
    }

    method EvaluateCompounds()
      modifies this
      ensures results == Compounded(old(results))
      ensures results
           == old(results)
              + Compound(old(results), CompoundRule("systemic_security_underinvestment", "security",
                                                    ["security_gap", "cert_gap"]))
              + Compound(old(results), CompoundRule("engineering_capacity_crisis", "engineering",
                                                    ["tech_debt", "scaling_pressure", "hiring_velocity_anomaly"]))
              + Compound(old(results), CompoundRule("marketing_infra_debt", "marketing",
                                                    ["identity_fragmentation", "tag_bloat",
                                                     "marketing_product_mismatch"]))
    {
      ghost var fired := results;
      EvaluateRules(COMPOUNDS);
      CompoundsInTurn(fired, COMPOUNDS[0], COMPOUNDS[1], COMPOUNDS[2]);
      assert COMPOUNDS == [COMPOUNDS[0], COMPOUNDS[1], COMPOUNDS[2]];
    }

    /** The floor below every confidence. */
    method FloorAll()
      modifies this
      ensures results == Floored(old(results))
    {
      ghost var before := results;
      for i := 0 to |results|
        invariant |results| == |before|
        invariant forall k :: 0 <= k < |before| ==>
          results[k] == if k < i then before[k].(confidence := Max(before[k].confidence, 10)) else before[k]
      {
        if results[i].confidence < 10 {
          results := results[i := results[i].(confidence := 10)];
        }
      }
      assert results == Floored(before);
    }

    method ApplyDampeners(signals: Signals)
      modifies this
      ensures results == Dampened(old(results), signals)
      ensures IsDampened(old(results), results, signals)
    {
      if Fired(results, "cert_gap") && signals.sslAutomation {
        results := Lowered(results, "systemic_security_underinvestment", 15, None);
      }
      if signals.hiresDevops {
        results := Lowered(results, "observability_gap", 10, None);
      }
      if signals.dataPlatformTools {
        results := Lowered(results, "database_scaling_pressure", 10, None);
      }
      if signals.domains > 3 {
        results := Lowered(results, "tool_sprawl", 10 * (signals.domains - 3), Some(30));
      }
      FloorAll();
      DampenedMeaning(old(results), signals);
    }

    method ApplyDetectionConfidence(signals: Signals)
      modifies this
      ensures results == DetectedAll(old(results), signals)
      ensures IsDetected(old(results), results, signals)
    {
      DetectedMeaning(results, signals);
      ghost var before := results;
      for i := 0 to |results|
        invariant |results| == |before|
        invariant forall k :: 0 <= k < |before| ==>
          results[k] == if k < i then Detected(before[k], signals) else before[k]
      {
        var r := results[i];
        if r.ruleId in signals.detections && signals.detections[r.ruleId] != [] {
          var relevant := signals.detections[r.ruleId];
          if Sum(relevant) < 40 * |relevant| {
            r := r.(confidence := r.confidence - 20);
          } else if Sum(relevant) < 60 * |relevant| {
            r := r.(confidence := r.confidence - 10);
          }
          results := results[i := r.(confidence := Clamp(r.confidence))];
        }
      }
    }

    /** Hard suppression of security results. */
    method SuppressSecurity(seller: Seller)
      modifies this
      ensures |results| == |old(results)|
      ensures forall k :: 0 <= k < |results| ==> results[k] == Suppressed(old(results)[k], seller)
    {
      ghost var before := results;
      for i := 0 to |results|
        invariant |results| == |before|
        invariant forall k :: 0 <= k < |before| ==>
          results[k] == if k < i then Suppressed(before[k], seller) else before[k]
      {
        if Hits(seller, "security") == 0 && results[i].category == "security" {
          results := results[i := results[i].(confidence := 0)];
        }
      }
    }

    /** Layer 1: boost or dampen by category. */
    method WeighCategories(seller: Seller)
      modifies this
      ensures |results| == |old(results)|
      ensures forall k :: 0 <= k < |results| ==> results[k] == Layer1(old(results)[k], seller)
    {
      ghost var before := results;
      for i := 0 to |results|
        invariant |results| == |before|
        invariant forall k :: 0 <= k < |before| ==>
          results[k] == if k < i then Layer1(before[k], seller) else before[k]
      {
        var r := results[i];
        if r.category != "" && r.confidence != 0 {
          if Hits(seller, r.category) >= 1 {
            results := results[i := r.(confidence := r.confidence + 15)];
          } else if MaxHits(seller) >= 2 {
            results := results[i := r.(confidence := r.confidence - 10)];
          }
        }
      }
    }

    /** Layer 2: boost rules aligned with the seller. */
    method BoostRules(sellerCategory: string)
      modifies this
      ensures |results| == |old(results)|
      ensures forall k :: 0 <= k < |results| ==> results[k] == Layer2(old(results)[k], sellerCategory)
    {
      ghost var before := results;
      for i := 0 to |results|
        invariant |results| == |before|
        invariant forall k :: 0 <= k < |before| ==>
          results[k] == if k < i then Layer2(before[k], sellerCategory) else before[k]
      {
        if results[i].ruleId in Boosts(sellerCategory) && results[i].confidence > 0 {
          results := results[i := results[i].(confidence := results[i].confidence + 15)];
        }
      }
    }

    /** The professional services bonus. */
    method AddBonus(seller: Seller)
      modifies this
      ensures |results| == |old(results)|
      ensures forall k :: 0 <= k < |results| ==> results[k] == Bonus(old(results)[k], seller)
    {
      ghost var before := results;
      for i := 0 to |results|
        invariant |results| == |before|
        invariant forall k :: 0 <= k < |before| ==>
          results[k] == if k < i then Bonus(before[k], seller) else before[k]
      {
        if seller.msp && results[i].category in ["operations", "data"] {
          results := results[i := results[i].(confidence := results[i].confidence + 5)];
        }
      }
    }

    /** The final clamp, which leaves suppressed results at 0. */
    method ClampAll()
      modifies this
      ensures |results| == |old(results)|
      ensures forall k :: 0 <= k < |results| ==> results[k] == Clamped(old(results)[k])
    {
      ghost var before := results;
      for i := 0 to |results|
        invariant |results| == |before|
        invariant forall k :: 0 <= k < |before| ==>
          results[k] == if k < i then Clamped(before[k]) else before[k]
      {
        if results[i].confidence > 0 {
          results := results[i := results[i].(confidence := Clamp(results[i].confidence))];
        }
      }
    }

    method ApplySellerWeighting(seller: Seller, sellerCategory: string)
      modifies this
      ensures results == WeighedAll(old(results), seller, sellerCategory)
      ensures IsWeighed(old(results), results, seller, sellerCategory)
    {
      WeighedMeaning(results, seller, sellerCategory);
      SuppressSecurity(seller);
      if MaxHits(seller) == 0 && sellerCategory == "" {
        return;
      }
      WeighCategories(seller);
      BoostRules(sellerCategory);
      AddBonus(seller);
      ClampAll();
    }

    method DemoteIrrelevant(irrelevant: set<string>)
      modifies this
      ensures |results| == |old(results)|
      ensures forall k :: 0 <= k < |results| ==> results[k] == Demoted(old(results)[k], irrelevant)
    {
      ghost var kept := results;
      for i := 0 to |results|
        invariant |results| == |kept|
        invariant forall k :: 0 <= k < |kept| ==>
          results[k] == if k < i then Demoted(kept[k], irrelevant) else kept[k]
      {
        if results[i].ruleId in irrelevant {
          results := results[i := results[i].(category := "_background_" + results[i].category)];
        }
      }
    }

    /** The three passes that do not know the seller. */
    method Adjust(signals: Signals)
      modifies this
      ensures results == Adjusted(old(results), signals)
    {
      EvaluateCompounds();
      ApplyDampeners(signals);
      ApplyDetectionConfidence(signals);
    }

    method Evaluate(signals: Signals, seller: Option<Seller>, sellerCategory: string, irrelevant: set<string>)
      modifies this
      ensures results == Evaluated(old(results), signals, seller, sellerCategory, irrelevant)
    {
      Adjust(signals);
      if seller.Some? {
        ApplySellerWeighting(seller.value, sellerCategory);
        results := Positive(results);
      }
      ghost var kept := results;
      if sellerCategory != "" {
        DemoteIrrelevant(irrelevant);
      }
      assert results == DemotedAll(kept, sellerCategory, irrelevant);
      results := Sorted(results);
    }
  }

  // ---- the bounds of every pass -----------------------------------------------

  lemma {:induction false} HighestInRange(fired: seq<Inference>, matched: seq<string>, low: int, high: int)
    requires forall i :: 0 <= i < |matched| ==> Fired(fired, matched[i])
    requires matched != [] && Scored(fired, low, high)
    ensures low <= Highest(fired, matched) <= high
    decreases |matched|
  {
    if |matched| > 1 {
      HighestInRange(fired, matched[..|matched| - 1], low, high);
    }
  }

  lemma CompoundInRange(fired: seq<Inference>, rule: CompoundRule)
    requires Scored(fired, 25, 85)
    ensures Scored(Compound(fired, rule), 10, 95)
  {
    MatchedFired(fired, rule.constituents);
    if Matched(fired, rule.constituents) != [] {
      HighestInRange(fired, Matched(fired, rule.constituents), 25, 85);
    }
  }

  lemma {:induction false} CompoundsInRange(fired: seq<Inference>, rules: seq<CompoundRule>)
    requires Scored(fired, 25, 85)
    ensures Scored(CompoundsOf(fired, rules), 10, 95)
    decreases |rules|
  {
    if rules != [] {
      CompoundsInRange(fired, rules[..|rules| - 1]);
      CompoundInRange(fired, rules[|rules| - 1]);
    }
  }

  lemma LoweredAtMost(results: seq<Inference>, ruleId: string, n: nat, least: Option<int>)
    requires forall i :: 0 <= i < |results| ==> results[i].confidence <= 95
    requires least.Some? ==> least.value <= 95
    ensures forall i :: 0 <= i < |results| ==> Lowered(results, ruleId, n, least)[i].confidence <= 95
  {
  }

  lemma DampenedInRange(results: seq<Inference>, signals: Signals)
    requires Scored(results, 10, 95)
    ensures Scored(Dampened(results, signals), 10, 95)
  {
    var a := if Fired(results, "cert_gap") && signals.sslAutomation
             then Lowered(results, "systemic_security_underinvestment", 15, None) else results;
    LoweredAtMost(results, "systemic_security_underinvestment", 15, None);
    var b := if signals.hiresDevops then Lowered(a, "observability_gap", 10, None) else a;
    LoweredAtMost(a, "observability_gap", 10, None);
    var c := if signals.dataPlatformTools then Lowered(b, "database_scaling_pressure", 10, None) else b;
    LoweredAtMost(b, "database_scaling_pressure", 10, None);
    if signals.domains > 3 {
      LoweredAtMost(c, "tool_sprawl", 10 * (signals.domains - 3), Some(30));
    }
  }

  /** Rules that fire between 25 and 85 leave every result between 10 and 95 when the seller pass begins. */
  lemma AdjustedInRange(fired: seq<Inference>, signals: Signals)
    requires Scored(fired, 25, 85)
    ensures Scored(Adjusted(fired, signals), 10, 95)
  {
    CompoundsInRange(fired, COMPOUNDS);
    DampenedInRange(Compounded(fired), signals);
  }

  // ---- what the seller pass drops ---------------------------------------------

  /** Security without a security seller; or a result already at 10 in a category the seller does not touch. */
  predicate Dropped(r: Inference, seller: Seller) {
    || (r.category == "security" && seller.security == 0)
    || (&& r.confidence == 10 && r.category != "" && Hits(seller, r.category) == 0 && MaxHits(seller) >= 2
        && !(seller.msp && (r.category == "operations" || r.category == "data")))
  }

  /** The seller pass leaves a result at 0 exactly when it is dropped, and otherwise between 10 and 95. */
  lemma WeighedOutcome(r: Inference, seller: Seller, sellerCategory: string)
    requires 10 <= r.confidence <= 95
    ensures var w := Weighed(r, seller, sellerCategory);
            && w.ruleId == r.ruleId && w.category == r.category
            && (if Dropped(r, seller) then w.confidence == 0 else 10 <= w.confidence <= 95)
  {
  }

  lemma {:induction false} PositiveMembers(results: seq<Inference>, r: Inference)
    ensures r in Positive(results) <==> r in results && r.confidence > 0
    decreases |results|
  {
    if results != [] {
      var last := |results| - 1;
      PositiveMembers(results[..last], r);
      assert results == results[..last] + [results[last]];
    }
  }

  lemma {:induction false} InsertMembers(r: Inference, rest: seq<Inference>, x: Inference)
    ensures x in Insert(r, rest) <==> x == r || x in rest
  {
    if rest != [] {
      assert rest == [rest[0]] + rest[1..];
      InsertMembers(r, rest[1..], x);
    }
  }

  lemma {:induction false} SortedMembers(results: seq<Inference>, x: Inference)
    ensures x in Sorted(results) <==> x in results
  {
    if results != [] {
      assert results == [results[0]] + results[1..];
      SortedMembers(results[1..], x);
      InsertMembers(results[0], Sorted(results[1..]), x);
    }
  }

  lemma KeptMember(results: seq<Inference>, seller: Option<Seller>, sellerCategory: string, x: Inference)
    requires Scored(results, 10, 95)
    ensures x in Kept(results, seller, sellerCategory) <==>
            if seller.None? then x in results
            else exists i :: 0 <= i < |results| && !Dropped(results[i], seller.value)
                             && x == Weighed(results[i], seller.value, sellerCategory)
  {
    if seller.Some? {
      var weighed := WeighedAll(results, seller.value, sellerCategory);
      PositiveMembers(weighed, x);
      forall i | 0 <= i < |results|
        ensures weighed[i].confidence > 0 <==> !Dropped(results[i], seller.value)
      {
        WeighedOutcome(results[i], seller.value, sellerCategory);
      }
    }
  }

  /** Every result of an evaluation comes from one that was adjusted, weighed and not dropped. */
  lemma EvaluatedMember(fired: seq<Inference>, signals: Signals, seller: Option<Seller>, sellerCategory: string,
                        irrelevant: set<string>, x: Inference)
    requires Scored(fired, 25, 85)
    ensures x in Evaluated(fired, signals, seller, sellerCategory, irrelevant) <==>
            exists k :: && k in Kept(Adjusted(fired, signals), seller, sellerCategory)
                        && x == if sellerCategory == "" then k else Demoted(k, irrelevant)
  {
    var kept := Kept(Adjusted(fired, signals), seller, sellerCategory);
    var demoted := DemotedAll(kept, sellerCategory, irrelevant);
    SortedMembers(demoted, x);
    if x in demoted {
      var i :| 0 <= i < |demoted| && demoted[i] == x;
      assert kept[i] in kept;
    }
    if k :| k in kept && x == if sellerCategory == "" then k else Demoted(k, irrelevant) {
      var i :| 0 <= i < |kept| && kept[i] == k;
      assert demoted[i] == x;
    }
  }

  /** Every confidence an evaluation reports is between 10 and 95. */
  lemma EvaluatedInRange(fired: seq<Inference>, signals: Signals, seller: Option<Seller>, sellerCategory: string,
                         irrelevant: set<string>, x: Inference)
    requires Scored(fired, 25, 85) && x in Evaluated(fired, signals, seller, sellerCategory, irrelevant)
    ensures 10 <= x.confidence <= 95
  {
    var adjusted := Adjusted(fired, signals);
    AdjustedInRange(fired, signals);
    EvaluatedMember(fired, signals, seller, sellerCategory, irrelevant, x);
    var k :| && k in Kept(adjusted, seller, sellerCategory)
             && x == if sellerCategory == "" then k else Demoted(k, irrelevant);
    KeptMember(adjusted, seller, sellerCategory, k);
    if seller.Some? {
      var i :| 0 <= i < |adjusted| && !Dropped(adjusted[i], seller.value)
               && k == Weighed(adjusted[i], seller.value, sellerCategory);
      WeighedOutcome(adjusted[i], seller.value, sellerCategory);
    }
  }

  /** A result as it is reported: with its score for the seller, and in the background where it is irrelevant. */
  function Reported(r: Inference, seller: Seller, sellerCategory: string, irrelevant: set<string>): Inference {
    var category := if sellerCategory != "" && r.ruleId in irrelevant then "_background_" + r.category else r.category;
    Inference(r.ruleId, category, SellerScore(r, seller, sellerCategory))
  }

  /** The adjusted result a reported one comes from. */
  lemma ReportedFrom(fired: seq<Inference>, signals: Signals, seller: Seller, sellerCategory: string,
                     irrelevant: set<string>, x: Inference) returns (r: Inference)
    requires Scored(fired, 25, 85)
    requires x in Evaluated(fired, signals, Some(seller), sellerCategory, irrelevant)
    ensures r in Adjusted(fired, signals) && r.ruleId == x.ruleId && !Dropped(r, seller)
    ensures x == Reported(r, seller, sellerCategory, irrelevant)
  {
    var adjusted := Adjusted(fired, signals);
    AdjustedInRange(fired, signals);
    EvaluatedMember(fired, signals, Some(seller), sellerCategory, irrelevant, x);
    var k :| && k in Kept(adjusted, Some(seller), sellerCategory)
             && x == if sellerCategory == "" then k else Demoted(k, irrelevant);
    KeptMember(adjusted, Some(seller), sellerCategory, k);
    var i :| 0 <= i < |adjusted| && !Dropped(adjusted[i], seller)
             && k == Weighed(adjusted[i], seller, sellerCategory);
    r := adjusted[i];
    WeighedOutcome(r, seller, sellerCategory);
    WeighedScore(r, seller, sellerCategory);
  }

  /** What an adjusted result that is not dropped is reported as. */
  lemma ReportedAs(fired: seq<Inference>, signals: Signals, seller: Seller, sellerCategory: string,
                   irrelevant: set<string>, r: Inference) returns (x: Inference)
    requires Scored(fired, 25, 85)
    requires r in Adjusted(fired, signals) && !Dropped(r, seller)
    ensures x in Evaluated(fired, signals, Some(seller), sellerCategory, irrelevant)
    ensures x == Reported(r, seller, sellerCategory, irrelevant)
  {
    var adjusted := Adjusted(fired, signals);
    AdjustedInRange(fired, signals);
    var k := Weighed(r, seller, sellerCategory);
    var i :| 0 <= i < |adjusted| && adjusted[i] == r;
    WeighedOutcome(r, seller, sellerCategory);
    WeighedScore(r, seller, sellerCategory);
    KeptMember(adjusted, Some(seller), sellerCategory, k);
    x := if sellerCategory == "" then k else Demoted(k, irrelevant);
    EvaluatedMember(fired, signals, Some(seller), sellerCategory, irrelevant, x);
  }

  /** A seller without security keywords is never shown a security result. */
  lemma NoSecurityForOthers(fired: seq<Inference>, signals: Signals, seller: Seller, sellerCategory: string,
                            irrelevant: set<string>, x: Inference)
    requires Scored(fired, 25, 85) && seller.security == 0
    requires x in Evaluated(fired, signals, Some(seller), sellerCategory, irrelevant)
    ensures x.category != "security"
  {
    var r := ReportedFrom(fired, signals, seller, sellerCategory, irrelevant, x);
    assert ("_background_" + r.category)[0] == '_';
  }

  /** A result is dropped exactly when its score for the seller is 0. */
  lemma DroppedScore(r: Inference, seller: Seller, sellerCategory: string)
    requires 10 <= r.confidence <= 95
    ensures Dropped(r, seller) <==> SellerScore(r, seller, sellerCategory) == 0
  {
    WeighedOutcome(r, seller, sellerCategory);
    WeighedScore(r, seller, sellerCategory);
  }

  /** What is reported is exactly each adjusted result whose score for the seller is not 0, with that score. */
  lemma ReportedExactly(fired: seq<Inference>, signals: Signals, seller: Seller, sellerCategory: string,
                        irrelevant: set<string>, x: Inference)
    requires Scored(fired, 25, 85)
    ensures x in Evaluated(fired, signals, Some(seller), sellerCategory, irrelevant)
            <==> (exists r :: && r in Adjusted(fired, signals) && SellerScore(r, seller, sellerCategory) != 0
                              && x == Reported(r, seller, sellerCategory, irrelevant))
  {
    var (adjusted, evaluated) := (Adjusted(fired, signals),
                                  Evaluated(fired, signals, Some(seller), sellerCategory, irrelevant));
    AdjustedInRange(fired, signals);
    if x in evaluated {
      var r := ReportedFrom(fired, signals, seller, sellerCategory, irrelevant, x);
      DroppedScore(r, seller, sellerCategory);
    }
    if r :| && r in adjusted && SellerScore(r, seller, sellerCategory) != 0
            && x == Reported(r, seller, sellerCategory, irrelevant) {
      DroppedScore(r, seller, sellerCategory);
      var _ := ReportedAs(fired, signals, seller, sellerCategory, irrelevant, r);
    }
  }

  /** Without a seller nothing is dropped or weighed. */
  lemma UnsoldReport(fired: seq<Inference>, signals: Signals, sellerCategory: string, irrelevant: set<string>,
                     x: Inference)
    requires Scored(fired, 25, 85)
    ensures x in Evaluated(fired, signals, None, sellerCategory, irrelevant)
            <==> (exists r :: && r in Adjusted(fired, signals)
                              && x == if sellerCategory != "" && r.ruleId in irrelevant
                                      then r.(category := "_background_" + r.category) else r)
  {
    var adjusted := Adjusted(fired, signals);
    EvaluatedMember(fired, signals, None, sellerCategory, irrelevant, x);
    if x in Evaluated(fired, signals, None, sellerCategory, irrelevant) {
      var k :| k in adjusted && x == if sellerCategory == "" then k else Demoted(k, irrelevant);
    }
    if r :| r in adjusted && x == if sellerCategory != "" && r.ruleId in irrelevant
                                  then r.(category := "_background_" + r.category) else r {
      assert x == if sellerCategory == "" then r else Demoted(r, irrelevant);
    }
  }

  // ---- the order --------------------------------------------------------------

  predicate Descending(results: seq<Inference>) {
    forall i, j :: 0 <= i < j < |results| ==> results[i].confidence >= results[j].confidence
  }

  /** The results of one confidence, in order. */
  function Only(results: seq<Inference>, c: int): seq<Inference> {
    if results == [] then []
    else if results[0].confidence == c then [results[0]] + Only(results[1..], c)
    else Only(results[1..], c)
  }

  lemma {:induction false} InsertDescends(r: Inference, rest: seq<Inference>)
    requires Descending(rest)
    ensures Descending(Insert(r, rest))
  {
    if rest != [] && r.confidence < rest[0].confidence {
      InsertDescends(r, rest[1..]);
      forall x | x in Insert(r, rest[1..])
        ensures x.confidence <= rest[0].confidence
      {
        InsertMembers(r, rest[1..], x);
      }
    }
  }

  lemma {:induction false} InsertStable(r: Inference, rest: seq<Inference>, c: int)
    requires Descending(rest)
    ensures Only(Insert(r, rest), c) == if r.confidence == c then [r] + Only(rest, c) else Only(rest, c)
  {
    if rest == [] || r.confidence >= rest[0].confidence {
      assert ([r] + rest)[1..] == rest;
    } else {
      var tail := Insert(r, rest[1..]);
      assert ([rest[0]] + tail)[1..] == tail;
      InsertStable(r, rest[1..], c);
    }
  }

  /** The report descends by confidence, and loses, repeats or reorders nothing of equal confidence. */
  lemma {:induction false} SortedMeaning(results: seq<Inference>, c: int)
    ensures Descending(Sorted(results))
    ensures Only(Sorted(results), c) == Only(results, c)
  {
    if results != [] {
      SortedMeaning(results[1..], c);
      InsertDescends(results[0], Sorted(results[1..]));
      InsertStable(results[0], Sorted(results[1..]), c);
    }
  }

  /** Every report descends by confidence and stays between 10 and 95, whatever fired and whoever sells. */
  lemma ReportInOrder(fired: seq<Inference>, signals: Signals, seller: Option<Seller>, sellerCategory: string,
                      irrelevant: set<string>)
    requires Scored(fired, 25, 85)
    ensures var report := Evaluated(fired, signals, seller, sellerCategory, irrelevant);
            Descending(report) && Scored(report, 10, 95)
  {
    var report := Evaluated(fired, signals, seller, sellerCategory, irrelevant);
    SortedMeaning(DemotedAll(Kept(Adjusted(fired, signals), seller, sellerCategory), sellerCategory, irrelevant), 0);
    forall i | 0 <= i < |report|
      ensures 10 <= report[i].confidence <= 95
    {
      EvaluatedInRange(fired, signals, seller, sellerCategory, irrelevant, report[i]);
    }
  }

  lemma {:induction false} OnlyAppend(a: seq<Inference>, b: seq<Inference>, c: int)
    ensures Only(a + b, c) == Only(a, c) + Only(b, c)
  {
    if a == [] {
      assert a + b == b;
    } else {
      assert (a + b)[0] == a[0] && (a + b)[1..] == a[1..] + b;
      OnlyAppend(a[1..], b, c);
    }
  }

  /** Dropping the zeros keeps every other result, in order. */
  lemma {:induction false} PositiveKeeps(results: seq<Inference>, c: int)
    ensures Only(Positive(results), c) == if c > 0 then Only(results, c) else []
    decreases |results|
  {
    if results != [] {
      var (front, last) := (results[..|results| - 1], results[|results| - 1]);
      assert results == front + [last];
      PositiveKeeps(front, c);
      OnlyAppend(front, [last], c);
      OnlyAppend(Positive(front), if last.confidence > 0 then [last] else [], c);
    }
  }

  /** Every adjusted result as it would be reported, dropped ones included, in the order the rules fired. */
  function ReportedAll(results: seq<Inference>, seller: Seller, sellerCategory: string, irrelevant: set<string>):
    (all: seq<Inference>)
    ensures |all| == |results|
  {
    seq(|results|, i requires 0 <= i < |results| => Reported(results[i], seller, sellerCategory, irrelevant))
  }

  lemma {:induction false} DemotePositive(results: seq<Inference>, sellerCategory: string, irrelevant: set<string>)
    ensures DemotedAll(Positive(results), sellerCategory, irrelevant)
         == Positive(DemotedAll(results, sellerCategory, irrelevant))
    decreases |results|
  {
    if results != [] && sellerCategory != "" {
      var (front, last) := (results[..|results| - 1], results[|results| - 1]);
      var demoted := DemotedAll(results, sellerCategory, irrelevant);
      DemotePositive(front, sellerCategory, irrelevant);
      assert demoted[..|results| - 1] == DemotedAll(front, sellerCategory, irrelevant);
      if last.confidence > 0 {
        assert DemotedAll(Positive(front) + [last], sellerCategory, irrelevant)
            == DemotedAll(Positive(front), sellerCategory, irrelevant) + [Demoted(last, irrelevant)];
      } else {
        assert Positive(front) + [] == Positive(front);
      }
    }
  }

  /** Results of equal confidence are reported in the order their rules fired, each as often as it fired. */
  lemma ReportKeepsOrder(fired: seq<Inference>, signals: Signals, seller: Seller, sellerCategory: string,
                         irrelevant: set<string>, c: int)
    requires Scored(fired, 25, 85)
    ensures Only(Evaluated(fired, signals, Some(seller), sellerCategory, irrelevant), c)
         == if c > 0 then Only(ReportedAll(Adjusted(fired, signals), seller, sellerCategory, irrelevant), c) else []
  {
    var adjusted := Adjusted(fired, signals);
    var (weighed, all) := (WeighedAll(adjusted, seller, sellerCategory),
                           ReportedAll(adjusted, seller, sellerCategory, irrelevant));
    AdjustedInRange(fired, signals);
    forall i | 0 <= i < |adjusted|
      ensures weighed[i] == adjusted[i].(confidence := SellerScore(adjusted[i], seller, sellerCategory))
    {
      WeighedScore(adjusted[i], seller, sellerCategory);
    }
    assert DemotedAll(weighed, sellerCategory, irrelevant) == all;
    DemotePositive(weighed, sellerCategory, irrelevant);
    SortedMeaning(Positive(all), c);
    PositiveKeeps(all, c);
  }

  lemma {:induction false} OnlyAt(results: seq<Inference>, i: nat)
    requires i < |results|
    ensures results[i] in Only(results, results[i].confidence)
  {
    if i > 0 {
      OnlyAt(results[1..], i - 1);
    }
  }

  lemma {:induction false} OnlyMembers(results: seq<Inference>, c: int, x: Inference)
    ensures x in Only(results, c) ==> x in results && x.confidence == c
  {
    if results != [] {
      OnlyMembers(results[1..], c, x);
    }
  }

  ghost predicate SameByConfidence(a: seq<Inference>, b: seq<Inference>) {
    forall c :: Only(a, c) == Only(b, c)
  }

  lemma HeadElsewhere(a: seq<Inference>, b: seq<Inference>)
    requires SameByConfidence(a, b) && Descending(b) && a != []
    ensures a[0] in b && b[0].confidence >= a[0].confidence
  {
    var c := a[0].confidence;
    OnlyAt(a, 0);
    assert Only(a, c) == Only(b, c);
    OnlyMembers(b, c, a[0]);
  }

  lemma HeadsAgree(a: seq<Inference>, b: seq<Inference>)
    requires a != [] && b != [] && Descending(a) && Descending(b) && SameByConfidence(a, b)
    ensures a[0] == b[0] && SameByConfidence(a[1..], b[1..])
  {
    HeadElsewhere(a, b);
    HeadElsewhere(b, a);
    var top := a[0].confidence;
    assert Only(a, top) == Only(b, top);
    assert Only(a, top)[0] == a[0] && Only(b, top)[0] == b[0];
    forall c
      ensures Only(a[1..], c) == Only(b[1..], c)
    {
      assert Only(a, c) == Only(b, c);
      if c == top {
        assert Only(a[1..], c) == Only(a, c)[1..] && Only(b[1..], c) == Only(b, c)[1..];
      }
    }
  }

  /** There is only one such order. */
  lemma {:induction false} OrderUnique(a: seq<Inference>, b: seq<Inference>)
    requires Descending(a) && Descending(b) && SameByConfidence(a, b)
    ensures a == b
  {
    if a != [] {
      HeadElsewhere(a, b);
      HeadsAgree(a, b);
      OrderUnique(a[1..], b[1..]);
      assert a == [a[0]] + a[1..] && b == [b[0]] + b[1..];
    } else if b != [] {
      HeadElsewhere(b, a);
    }
  }
}
