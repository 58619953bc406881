/** Two-pass review of an outgoing utterance. Pattern matching and the reviewing model are
    inputs; what is modelled is how their verdicts combine. */
module Compliance {
  import opened Common

  datatype Verdict = Pass | Warn | Block

  function Severity(v: Verdict): nat {
    match v
    case Pass => 0
    case Warn => 1
    case Block => 2
  }

  datatype ComplianceResult = ComplianceResult(verdict: Verdict, rules: seq<string>, rationale: string)

  datatype Rule = Rule(id: string, verdict: Verdict)

  function Ids(rules: seq<Rule>): seq<string> {
    seq(|rules|, i requires 0 <= i < |rules| => rules[i].id)
  }

  function CommaJoin(parts: seq<string>, sep: string): string {
    if parts == [] then ""
    else if |parts| == 1 then parts[0]
    else CommaJoin(parts[..|parts| - 1], sep) + sep + parts[|parts| - 1]
  }

  /** The worst verdict among the rules that fired, PASS when none did. */
  ghost predicate IsWorst(fired: seq<Rule>, v: Verdict) {
    && (forall i :: 0 <= i < |fired| ==> Severity(fired[i].verdict) <= Severity(v))
    && (v != Pass ==> exists i :: 0 <= i < |fired| && fired[i].verdict == v)
  }

  /** `hits` says whether a rule's pattern occurs in the text under review. */
  method RegexScreen(rules: seq<Rule>, hits: Rule -> bool) returns (r: ComplianceResult)
    ensures IsWorst(Filter(rules, hits), r.verdict)
    ensures r.rules == Ids(Filter(rules, hits))
    ensures r.rationale == if r.rules == [] then "" else "Triggered rules: " + CommaJoin(r.rules, ", ")
  {
    hide IsWorst, Ids, CommaJoin;
    NoneFired();
    var triggered: seq<string> := [];
    var worst := Pass;
    for i := 0 to |rules|
      invariant IsWorst(Filter(rules[..i], hits), worst)
      invariant triggered == Ids(Filter(rules[..i], hits))
    {
      ghost var fired := Filter(rules[..i], hits);
      assert rules[..i + 1] == rules[..i] + [rules[i]];
      FilterSingle(rules[..i], rules[i], hits);
      if hits(rules[i]) {
        IdsExtend(fired, rules[i]);
        triggered := triggered + [rules[i].id];
        WorstExtends(fired, rules[i], worst);
        if rules[i].verdict == Block {
          worst := Block;
        } else if rules[i].verdict == Warn && worst != Block {
          worst := Warn;
        }
      } else {
        assert fired + [] == fired;
      }
    }
    assert rules[..|rules|] == rules;
    var rationale := "";
    if triggered != [] {
      rationale := "Triggered rules: " + CommaJoin(triggered, ", ");
    }
    r := ComplianceResult(worst, triggered, rationale);
  }

  lemma NoneFired()
    ensures IsWorst([], Pass) && Ids([]) == []
  {
  }

  lemma IdsExtend(fired: seq<Rule>, rule: Rule)
    ensures Ids(fired + [rule]) == Ids(fired) + [rule.id]
  {
  }

  lemma WorstExtends(fired: seq<Rule>, rule: Rule, v: Verdict)
    requires IsWorst(fired, v)
    ensures IsWorst(fired + [rule], if Severity(rule.verdict) > Severity(v) then rule.verdict else v)
  {
    var all := fired + [rule];
    assert all[|fired|] == rule;
    if Severity(rule.verdict) <= Severity(v) && v != Pass {
      var i :| 0 <= i < |fired| && fired[i].verdict == v;
      assert all[i].verdict == v;
    }
  }

  function WorseOf(a: Verdict, b: Verdict): Verdict {
    if Severity(b) > Severity(a) then b else a
  }

  function Combine(regex: ComplianceResult, llm: ComplianceResult): ComplianceResult {
    var rules := if llm.verdict != Pass && "llm.consistency" !in regex.rules
                 then regex.rules + ["llm.consistency"] else regex.rules;
    var parts := (if regex.rationale != "" then [regex.rationale] else [])
                 + (if llm.rationale != "" then ["LLM: " + llm.rationale] else []);
    ComplianceResult(WorseOf(regex.verdict, llm.verdict), rules, CommaJoin(parts, "; "))
  }

  /** The reviewing model is asked only when the patterns do not already block; the verdict is
      still the worse of the two, whatever the model would have said. */
  function CheckCompliance(regex: ComplianceResult, llm: ComplianceResult): (r: ComplianceResult)
    ensures Severity(r.verdict) == Max(Severity(regex.verdict), Severity(llm.verdict))
    ensures r.verdict == Block <==> regex.verdict == Block || llm.verdict == Block
  {
    if regex.verdict == Block then regex else Combine(regex, llm)
  }

  /** What the retry is told: the patterns' reason, the model's, or both, and every rule that fired,
      the model's own last and once. */
  lemma ReviewIsExplained(regex: ComplianceResult, llm: ComplianceResult)
    ensures var r := CheckCompliance(regex, llm);
            && regex.rules <= r.rules
            && (regex.verdict == Block ==> r == regex)
            && (regex.verdict != Block ==>
                  && r.rules[|regex.rules|..]
                     == (if llm.verdict != Pass && "llm.consistency" !in regex.rules then ["llm.consistency"] else [])
                  && (llm.verdict != Pass ==> "llm.consistency" in r.rules)
                  && r.rationale == (if regex.rationale == "" && llm.rationale == "" then ""
                                     else if regex.rationale == "" then "LLM: " + llm.rationale
                                     else if llm.rationale == "" then regex.rationale
                                     else regex.rationale + "; LLM: " + llm.rationale))
  {
    var told := "LLM: " + llm.rationale;
    assert CommaJoin([], "; ") == "" && CommaJoin([told], "; ") == told;
    assert CommaJoin([regex.rationale], "; ") == regex.rationale;
    JoinLast([regex.rationale], told, "; ");
    assert [regex.rationale] + [told] == [regex.rationale, told];
    assert regex.rationale + "; " + told == regex.rationale + "; LLM: " + llm.rationale;
    var own := ["llm.consistency"];
    assert (regex.rules + own)[|regex.rules|..] == own && own[0] in regex.rules + own;
  }

  lemma JoinLast(parts: seq<string>, last: string, sep: string)
    requires parts != []
    ensures CommaJoin(parts + [last], sep) == CommaJoin(parts, sep) + sep + last
  {
    assert (parts + [last])[..|parts|] == parts;
  }
}
