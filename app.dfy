/**
 * `format_to_markdown` of the Streamlit front end: a hallucination-grader report rendered as
 * a list of Markdown parts (`md`) that is joined with newlines. The sections come in a fixed
 * order: title, overall assessment, one block per verified claim, identified hallucinations.
 */
module GraderReport {
  import opened Text

  /** The overall verdict. The grounded score and the confidence are taken as already
      rendered text, the way an f-string placeholder shows them. */
  datatype OverallAssessment = OverallAssessment(groundedScore: string, confidence: string, summary: string)

  datatype VerifiedClaim = VerifiedClaim(claim: string, isGrounded: bool, supportingEvidence: string, explanation: string)

  /** The report record `format_to_markdown` reads. */
  datatype GraderOutput = GraderOutput(overallAssessment: OverallAssessment, verifiedClaims: seq<VerifiedClaim>,
                                       identifiedHallucinations: seq<string>)

  const Title: string := "# Hallucination Grader Report\n"
  const OverallHeader: string := "## Overall Assessment\n"
  const ClaimsHeader: string := "\n## Verified Claims\n"
  const ClaimHeader: string := "#### Claim\n"
  const HallucinationsHeader: string := "\n## Identified Hallucinations\n"
  const NoHallucinations: string := "None\n"
  /** The number of parts in one claim block. */
  const ClaimWidth: nat := 5

  function OverallParts(oa: OverallAssessment): (r: seq<string>)
    ensures |r| == 4 && r[0] == OverallHeader
  {
    [OverallHeader,
     "**Grounded Score**: " + oa.groundedScore + "\n",
     "**Confidence**: " + oa.confidence + "\n",
     "**Summary**: " + oa.summary + "\n"]
  }

  function YesNo(b: bool): string
  {
    if b then "Yes" else "No"
  }

  function GroundedLine(c: VerifiedClaim): string
  {
    "**Is Grounded**: " + YesNo(c.isGrounded) + "\n"
  }

  /** The five parts of one claim block. */
  function ClaimParts(c: VerifiedClaim): (r: seq<string>)
    ensures |r| == ClaimWidth && r[0] == ClaimHeader
  {
    [ClaimHeader,
     "**Claim**: " + c.claim + "\n",
     GroundedLine(c),
     "**Supporting Evidence**: " + c.supportingEvidence + "\n",
     "**Explanation**: " + c.explanation + "\n"]
  }

  /** The blocks of all claims, in claim order. */
  function ClaimsParts(cs: seq<VerifiedClaim>): seq<string>
  {
    if cs == [] then [] else ClaimsParts(cs[..|cs| - 1]) + ClaimParts(cs[|cs| - 1])
  }

  function HallucinationItem(h: string): string
  {
    "- " + h + "\n"
  }

  /** One item per hallucination, or the single line "None" when there are none. */
  function HallucinationParts(hs: seq<string>): seq<string>
  {
    if hs == [] then [NoHallucinations] else seq(|hs|, i requires 0 <= i < |hs| => HallucinationItem(hs[i]))
  }

  /** All parts of the report, section by section. */
  function ReportParts(data: GraderOutput): seq<string>
  {
    [Title] + OverallParts(data.overallAssessment) + [ClaimsHeader] + ClaimsParts(data.verifiedClaims)
    + [HallucinationsHeader] + HallucinationParts(data.identifiedHallucinations)
  }

  /** `format_to_markdown(data)`: collects the parts in `md` and joins them with "\n". */
  method FormatToMarkdown(data: GraderOutput) returns (markdown: string)
    ensures markdown == Join(ReportParts(data), "\n")
  {
    var md: seq<string> := [];
    var oa := data.overallAssessment;
    md := md + [Title];
    md := md + [OverallHeader];
    md := md + ["**Grounded Score**: " + oa.groundedScore + "\n"];
    md := md + ["**Confidence**: " + oa.confidence + "\n"];
    md := md + ["**Summary**: " + oa.summary + "\n"];
    md := md + [ClaimsHeader];
    ghost var head := md;
    assert head == [Title] + OverallParts(oa) + [ClaimsHeader];
    var claims := data.verifiedClaims;
    for i := 0 to |claims|
      invariant md == head + ClaimsParts(claims[..i])
    {
      var claim := claims[i];
      ghost var before := md;
      md := md + [ClaimHeader];
      md := md + ["**Claim**: " + claim.claim + "\n"];
      md := md + ["**Is Grounded**: " + (if claim.isGrounded then "Yes" else "No") + "\n"];
      md := md + ["**Supporting Evidence**: " + claim.supportingEvidence + "\n"];
      md := md + ["**Explanation**: " + claim.explanation + "\n"];
      assert md == before + ClaimParts(claim);
      assert claims[..i + 1][..i] == claims[..i];
      assert ClaimsParts(claims[..i + 1]) == ClaimsParts(claims[..i]) + ClaimParts(claim);
      SeqAssoc(head, ClaimsParts(claims[..i]), ClaimParts(claim));
    }
    assert claims[..|claims|] == claims;
    md := md + [HallucinationsHeader];
    var hs := data.identifiedHallucinations;
    if hs != [] {
      ghost var body := md;
      for k := 0 to |hs|
        invariant md == body + HallucinationParts(hs)[..k]
      {
        md := md + ["- " + hs[k] + "\n"];
        SeqAssoc(body, HallucinationParts(hs)[..k], [HallucinationParts(hs)[k]]);
        assert HallucinationParts(hs)[..k + 1] == HallucinationParts(hs)[..k] + [HallucinationParts(hs)[k]];
      }
      assert HallucinationParts(hs)[..|hs|] == HallucinationParts(hs);
    } else {
      md := md + [NoHallucinations];
    }
    assert md == ReportParts(data);
    markdown := Join(md, "\n");
  }

  lemma SeqAssoc(a: seq<string>, b: seq<string>, c: seq<string>)
    ensures a + b + c == a + (b + c)
  {
  }

  /** Claim `k`'s block takes parts `5k` to `5k + 4` of the claims section, which has five
      parts per claim. */
  lemma {:induction false} ClaimBlockAt(cs: seq<VerifiedClaim>, k: nat)
    requires k < |cs|
    ensures |ClaimsParts(cs)| == ClaimWidth * |cs|
    ensures ClaimsParts(cs)[ClaimWidth * k..ClaimWidth * k + ClaimWidth] == ClaimParts(cs[k])
    decreases |cs|
  {
    var init := cs[..|cs| - 1];
    if k < |cs| - 1 {
      ClaimBlockAt(init, k);
      assert init[k] == cs[k];
      var ps := ClaimsParts(init);
      assert ClaimsParts(cs)[ClaimWidth * k..ClaimWidth * k + ClaimWidth] == ps[ClaimWidth * k..ClaimWidth * k + ClaimWidth];
    } else {
      ClaimsLength(init);
    }
  }

  lemma {:induction false} ClaimsLength(cs: seq<VerifiedClaim>)
    ensures |ClaimsParts(cs)| == ClaimWidth * |cs|
    decreases |cs|
  {
    if cs != [] {
      ClaimsLength(cs[..|cs| - 1]);
    }
  }

  /** The layout of the report: the title first; the overall assessment at parts 1 to 4; the
      claims header at part 5; five parts per claim from part 6 on; then the hallucinations
      header and its items (or "None"). */
  lemma ReportLayout(data: GraderOutput)
    ensures var parts := ReportParts(data);
            var n := |data.verifiedClaims|;
            && |parts| == 7 + ClaimWidth * n + |HallucinationParts(data.identifiedHallucinations)|
            && parts[0] == Title
            && parts[1..5] == OverallParts(data.overallAssessment)
            && parts[5] == ClaimsHeader
            && parts[6..6 + ClaimWidth * n] == ClaimsParts(data.verifiedClaims)
            && parts[6 + ClaimWidth * n] == HallucinationsHeader
            && parts[7 + ClaimWidth * n..] == HallucinationParts(data.identifiedHallucinations)
  {
    var cs := data.verifiedClaims;
    ClaimsLength(cs);
    var head := [Title] + OverallParts(data.overallAssessment) + [ClaimsHeader];
    var tail := [HallucinationsHeader] + HallucinationParts(data.identifiedHallucinations);
    assert ReportParts(data) == head + ClaimsParts(cs) + tail;
  }

  /** Claim `k`'s block is parts `6 + 5k` to `10 + 5k` of the report. */
  lemma ClaimInReport(data: GraderOutput, k: nat)
    requires k < |data.verifiedClaims|
    ensures var parts := ReportParts(data);
            6 + ClaimWidth * k + ClaimWidth <= |parts| &&
            parts[6 + ClaimWidth * k..6 + ClaimWidth * k + ClaimWidth] == ClaimParts(data.verifiedClaims[k])
  {
    var cs := data.verifiedClaims;
    ReportLayout(data);
    ClaimBlockAt(cs, k);
    var parts := ReportParts(data);
    var claims := parts[6..6 + ClaimWidth * |cs|];
    assert parts[6 + ClaimWidth * k..6 + ClaimWidth * k + ClaimWidth] == claims[ClaimWidth * k..ClaimWidth * k + ClaimWidth];
  }

  /** The hallucinations section has one "- " item per hallucination, in order, and is exactly
      "None" when there is none. */
  lemma HallucinationSection(hs: seq<string>)
    ensures hs == [] <==> HallucinationParts(hs) == [NoHallucinations]
    ensures hs != [] ==> |HallucinationParts(hs)| == |hs| &&
                         forall i :: 0 <= i < |hs| ==> HallucinationParts(hs)[i] == "- " + hs[i] + "\n"
  {
    if hs != [] {
      assert HallucinationParts(hs)[0][0] == '-';
    }
  }

  /** A claim's "Is Grounded" line reads Yes exactly when the claim is grounded, and No
      exactly when it is not. */
  lemma GroundedLineIff(c: VerifiedClaim)
    ensures ClaimParts(c)[2] == "**Is Grounded**: Yes\n" <==> c.isGrounded
    ensures ClaimParts(c)[2] == "**Is Grounded**: No\n" <==> !c.isGrounded
  {
    if !c.isGrounded {
      assert ClaimParts(c)[2][17] == 'N';
    } else {
      assert ClaimParts(c)[2][17] == 'Y';
    }
  }

  /** The rendered report begins with the title, then the newline of the join. */
  lemma ReportStartsWithTitle(data: GraderOutput)
    ensures var report := Join(ReportParts(data), "\n");
            |Title| + 1 <= |report| && report[..|Title| + 1] == Title + "\n"
  {
    var parts := ReportParts(data);
    JoinStartsWithFirst(parts, "\n");
  }
}
