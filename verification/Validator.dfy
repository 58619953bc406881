/** The two-stage verdict on one harness run. Schema parsing and the reviewing model's answer
    are inputs; what is modelled is the table that combines them. */
module Validator {
  import opened Common
  import opened JobQueue

  datatype Verdict = Pass | Fail | Unknown

  /** What the harness reported; `output` is its payload as JSON text. */
  datatype HarnessResult = HarnessResult(
    ok: bool, output: string, screenshot: Option<string>, error: Option<string>, excerptPresent: bool)

  /** Outcome of parsing the harness output against the action's schema. */
  datatype Parse = Mismatch(message: string) | Parsed(invoiceRows: nat)

  /** The reviewing model, when there is one: it may raise, or answer with a verdict. */
  datatype Reviewer = NoReviewer | Raises(message: string) | Answers(verdict: Verdict, confidence: real, why: string)

  datatype ValidationResult = ValidationResult(verdict: Verdict, confidence: real, rationale: string, invoiceRows: nat)

  function Clip(c: real): real {
    if c < 0.0 then 0.0 else if c > 1.0 then 1.0 else c
  }

  function ErrorText(e: Option<string>): string {
    if e.Some? then e.value else "None"
  }

  predicate SchemaOk(action: JobAction, parse: Parse) {
    parse.Parsed? && (action == ExtractInvoices ==> parse.invoiceRows > 0)
  }

  function SchemaReason(action: JobAction, parse: Parse): string {
    if parse.Mismatch? then "schema mismatch: " + parse.message
    else "extract_invoices returned no rows"
  }

  /** `f"schema ok; {why}".rstrip()`; the parsed reason carries no space at either end. */
  function PassText(why: string): string {
    if why == "" then "schema ok;" else "schema ok; " + why
  }

  /** Without an excerpt the reviewing model is not asked; an exception counts as no opinion. */
  function ConsistencyCheck(harness: HarnessResult, reviewer: Reviewer): (Verdict, real, string)
    requires !reviewer.NoReviewer?
  {
    if !harness.excerptPresent then (Unknown, 0.0, "no html excerpt provided")
    else if reviewer.Raises? then (Unknown, 0.0, "llm error: " + reviewer.message)
    else (reviewer.verdict, Clip(reviewer.confidence), reviewer.why)
  }

  /** The verdict is never UNKNOWN; it is PASS exactly when the harness and the schema agree
      and no reviewing model that was shown the page objects. */
  function Validate(action: JobAction, harness: HarnessResult, parse: Parse, reviewer: Reviewer): (v: ValidationResult)
    ensures v.verdict != Unknown
    ensures v.verdict == Pass <==>
              && harness.ok
              && SchemaOk(action, parse)
              && !(harness.excerptPresent && reviewer.Answers? && reviewer.verdict == Fail)
    ensures 0.6 <= v.confidence <= 1.0 && v.rationale != ""
    ensures !harness.ok ==> v.confidence == 0.95
    ensures harness.ok && !SchemaOk(action, parse) ==> v.confidence == 0.9
    ensures harness.ok && SchemaOk(action, parse) ==>
              if reviewer.NoReviewer? then v.confidence == 0.7
              else if !harness.excerptPresent || reviewer.Raises? || reviewer.verdict == Unknown then v.confidence == 0.6
              else v.confidence == RMax(if reviewer.verdict == Pass then 0.7 else 0.6, RMin(1.0, reviewer.confidence))
    ensures v.verdict == Pass && action == ExtractInvoices ==> v.invoiceRows > 0
  {
    var rows := if parse.Parsed? then parse.invoiceRows else 0;
    if !harness.ok then
      ValidationResult(Fail, 0.95, "harness reported failure: " + ErrorText(harness.error), 0)
    else if !SchemaOk(action, parse) then
      ValidationResult(Fail, 0.9, SchemaReason(action, parse), rows)
    else if reviewer.NoReviewer? then
      ValidationResult(Pass, 0.7, "schema ok; consistency check skipped (no llm)", rows)
    else
      var (verdict, confidence, why) := ConsistencyCheck(harness, reviewer);
      match verdict
      case Fail => ValidationResult(Fail, RMax(confidence, 0.6), "silent failure: " + why, rows)
      case Pass => ValidationResult(Pass, RMax(confidence, 0.7), PassText(why), rows)
      case Unknown => ValidationResult(Pass, 0.6, "schema ok; consistency uncertain (" + why + ")", rows)
  }
}
