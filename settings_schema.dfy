/** The settings schemas of lib/validators/settings.schema.ts (platform, AI
    template, report configuration, payment settings, discount code and
    automation rule) as issue lists, each proved empty exactly when an
    independent statement of the constraints holds; the discount code's
    upper-casing transform and its idempotence. */
module SettingsSchema {
  import opened Outcomes
  import opened JsText
  import opened Zod
  import opened PaymentModel

  function K(name: string): seq<PathPart> {
    [Key(name)]
  }

  /** Zod's default messages apply to every check without a custom one. */
  const Default: Option<string> := None

  // ---------------------------------------------------------------------------
  // platformSettingsSchema
  // ---------------------------------------------------------------------------

  datatype PlatformSettings = PlatformSettings(
    platformName: string, defaultCurrency: string, timezone: string,
    businessVerticals: seq<string>, logoUrl: Option<string>, emailSender: string,
    reportFooterText: string)

  function PlatformIssues(s: PlatformSettings, f: FormatChecks): (r: seq<Issue>)
    ensures r == [] <==> ValidPlatformSettings(s, f)
  {
    NonEmptyIsMinOne(s.platformName);
    NonEmptyIsMinOne(s.timezone);
    CurrencyCodesRoundTrip(USD, s.defaultCurrency);
    Check(K("platformName"), LengthAtLeast(s.platformName, 1), Some("Platform name is required"))
    + Check(K("platformName"), LengthAtMost(s.platformName, 100), Default)
    + Check(K("defaultCurrency"), s.defaultCurrency in CurrencyCodes, Default)
    + Check(K("timezone"), LengthAtLeast(s.timezone, 1), Some("Timezone is required"))
    + Check(K("businessVerticals"), |s.businessVerticals| >= 1, Some("At least one business vertical is required"))
    + Check(K("logoUrl"), s.logoUrl.None? || s.logoUrl.value == "" || f.isUrl(s.logoUrl.value), Default)
    + Check(K("emailSender"), f.isEmail(s.emailSender), Some("Invalid email address"))
    + Check(K("reportFooterText"), LengthAtMost(s.reportFooterText, 500), Some("Footer text too long"))
  }

  /** A platform name of 1..100 units, a supported currency, a timezone, at
      least one vertical, an absent, empty or well-formed logo URL, a
      well-formed sender address and a footer of at most 500 units. */
  predicate ValidPlatformSettings(s: PlatformSettings, f: FormatChecks) {
    && s.platformName != "" && Utf16Length(s.platformName) <= 100
    && ParseCurrency(s.defaultCurrency).Some?
    && s.timezone != ""
    && s.businessVerticals != []
    && (s.logoUrl.Some? && s.logoUrl.value != "" ==> f.isUrl(s.logoUrl.value))
    && f.isEmail(s.emailSender)
    && Utf16Length(s.reportFooterText) <= 500
  }

  // ---------------------------------------------------------------------------
  // customSectionSchema / aiTemplateSchema
  // ---------------------------------------------------------------------------

  datatype CustomSection = CustomSection(
    id: string, name: string, description: Option<string>, promptAddition: Option<string>, order: real)

  function CustomSectionIssues(path: seq<PathPart>, c: CustomSection): seq<Issue> {
    Check(path + K("name"), LengthAtLeast(c.name, 1), Some("Section name is required"))
    + Check(path + K("order"), IsInteger(c.order), Default)
    + Check(path + K("order"), c.order >= 0.0, Default)
  }

  const TemplateTypes: set<string> := {"free_report", "paid_report", "email", "custom"}
  const OutputFormats: set<string> := {"markdown", "html", "json"}

  datatype AiTemplate = AiTemplate(
    name: string, templateType: string, industry: Option<string>, promptTemplate: string,
    systemPrompt: Option<string>, model: string, temperature: real, maxTokens: real,
    outputFormat: string, placeholders: seq<string>, customSections: seq<CustomSection>, isActive: bool)

  function AiTemplateIssues(t: AiTemplate): (r: seq<Issue>)
    ensures r == [] <==> ValidAiTemplate(t)
  {
    AiTemplateFieldsExact(t);
    CustomSectionsExact(t.customSections);
    AiTemplateFieldIssues(t) + EachElement(K("customSections"), t.customSections, CustomSectionIssues)
  }

  /** The issues of the template's own fields, before its custom sections. */
  function AiTemplateFieldIssues(t: AiTemplate): seq<Issue> {
    Check(K("name"), LengthAtLeast(t.name, 1), Some("Template name is required"))
    + Check(K("name"), LengthAtMost(t.name, 100), Default)
    + Check(K("templateType"), t.templateType in TemplateTypes, Default)
    + Check(K("promptTemplate"), LengthAtLeast(t.promptTemplate, 10), Some("Prompt template must be at least 10 characters"))
    + Check(K("model"), LengthAtLeast(t.model, 1), Some("Model is required"))
    + Check(K("temperature"), t.temperature >= 0.0, Default)
    + Check(K("temperature"), t.temperature <= 2.0, Default)
    + Check(K("maxTokens"), IsInteger(t.maxTokens), Default)
    + Check(K("maxTokens"), t.maxTokens >= 100.0, Default)
    + Check(K("maxTokens"), t.maxTokens <= 32000.0, Default)
    + Check(K("outputFormat"), t.outputFormat in OutputFormats, Default)
  }

  /** A template needs a name of 1..100 units, a known type and output format,
      a prompt of at least 10 units, a model, a temperature in [0, 2], a whole
      number of tokens in [100, 32000], and well-formed custom sections (a
      name and a whole, non-negative order). */
  predicate ValidAiTemplate(t: AiTemplate) {
    ValidAiTemplateFields(t) && ValidCustomSections(t.customSections)
  }

  predicate ValidAiTemplateFields(t: AiTemplate) {
    && t.name != "" && Utf16Length(t.name) <= 100
    && t.templateType in TemplateTypes
    && Utf16Length(t.promptTemplate) >= 10
    && t.model != ""
    && 0.0 <= t.temperature <= 2.0
    && t.maxTokens.Floor as real == t.maxTokens && 100 <= t.maxTokens.Floor <= 32000
    && t.outputFormat in OutputFormats
  }

  predicate ValidCustomSections(sections: seq<CustomSection>) {
    forall i :: 0 <= i < |sections| ==>
      sections[i].name != "" && sections[i].order >= 0.0 && sections[i].order == sections[i].order.Floor as real
  }

  lemma AiTemplateFieldsExact(t: AiTemplate)
    ensures AiTemplateFieldIssues(t) == [] <==> ValidAiTemplateFields(t)
  {
    NonEmptyIsMinOne(t.name);
    NonEmptyIsMinOne(t.model);
    if IsInteger(t.maxTokens) {
      assert t.maxTokens.Floor as real == t.maxTokens;
    }
  }

  lemma CustomSectionsExact(sections: seq<CustomSection>)
    ensures EachElement(K("customSections"), sections, CustomSectionIssues) == [] <==> ValidCustomSections(sections)
  {
    EachElementEmpty(K("customSections"), sections, CustomSectionIssues);
    forall i | 0 <= i < |sections|
      ensures CustomSectionIssues(K("customSections") + [Index(i)], sections[i]) == []
              <==> sections[i].name != "" && sections[i].order >= 0.0 && sections[i].order == sections[i].order.Floor as real
    {
      NonEmptyIsMinOne(sections[i].name);
    }
  }

  // ---------------------------------------------------------------------------
  // reportConfigurationSchema
  // ---------------------------------------------------------------------------

  const ReportSections: set<string> := {
    "revenue_snapshot", "quick_wins", "basic_analysis", "deep_analysis", "competitor_analysis",
    "growth_roadmap", "implementation_plan", "revenue_leakage", "conversion_optimization", "seo_analysis"}

  /** `/^#[0-9A-F]{6}$/i`: a '#' and exactly six hexadecimal digits of either case. */
  predicate IsHexColor(s: string) {
    |s| == 7 && s[0] == '#' && forall i :: 1 <= i < 7 ==> IsHexDigit(s[i])
  }

  /** The `i` flag: the colour test does not depend on letter case. */
  lemma HexColorIgnoresCase(s: string)
    ensures IsHexColor(s) <==> IsHexColor(Upper(s))
    ensures IsHexColor(s) <==> IsHexColor(Lower(s))
  {
    if |s| == 7 {
      forall i | 1 <= i < 7
        ensures IsHexDigit(s[i]) <==> IsHexDigit(Upper(s)[i])
        ensures IsHexDigit(s[i]) <==> IsHexDigit(Lower(s)[i])
      {
      }
    }
  }

  function SectionIssue(path: seq<PathPart>, section: string): seq<Issue> {
    Check(path, section in ReportSections, Default)
  }

  datatype ReportConfiguration = ReportConfiguration(
    freeReportSections: seq<string>, paidReportSections: seq<string>, enableRedemptionTracking: bool,
    pdfFontFamily: string, pdfPrimaryColor: string, pdfSecondaryColor: string,
    pdfHeaderTemplate: Option<string>, pdfFooterTemplate: Option<string>,
    enableUpsell: bool, upsellMessage: string, upsellPrice: real)

  function ReportConfigurationIssues(c: ReportConfiguration): (r: seq<Issue>)
    ensures r == [] <==> ValidReportConfiguration(c)
  {
    EachElementEmpty(K("freeReportSections"), c.freeReportSections, SectionIssue);
    EachElementEmpty(K("paidReportSections"), c.paidReportSections, SectionIssue);
    NonEmptyIsMinOne(c.pdfFontFamily);
    EachElement(K("freeReportSections"), c.freeReportSections, SectionIssue)
    + Check(K("freeReportSections"), |c.freeReportSections| >= 1, Some("At least one free section required"))
    + EachElement(K("paidReportSections"), c.paidReportSections, SectionIssue)
    + Check(K("paidReportSections"), |c.paidReportSections| >= 1, Some("At least one paid section required"))
    + Check(K("pdfFontFamily"), LengthAtLeast(c.pdfFontFamily, 1), Some("Font family is required"))
    + Check(K("pdfPrimaryColor"), IsHexColor(c.pdfPrimaryColor), Some("Invalid hex color"))
    + Check(K("pdfSecondaryColor"), IsHexColor(c.pdfSecondaryColor), Some("Invalid hex color"))
    + Check(K("upsellMessage"), LengthAtMost(c.upsellMessage, 500), Some("Upsell message too long"))
    + Check(K("upsellPrice"), c.upsellPrice >= 0.0, Some("Price must be positive"))
  }

  /** Non-empty lists of known sections, a font family, two hex colours, an
      upsell message of at most 500 units and a non-negative upsell price. */
  predicate ValidReportConfiguration(c: ReportConfiguration) {
    && c.freeReportSections != [] && (forall s :: s in c.freeReportSections ==> s in ReportSections)
    && c.paidReportSections != [] && (forall s :: s in c.paidReportSections ==> s in ReportSections)
    && c.pdfFontFamily != ""
    && IsHexColor(c.pdfPrimaryColor) && IsHexColor(c.pdfSecondaryColor)
    && Utf16Length(c.upsellMessage) <= 500
    && c.upsellPrice >= 0.0
  }

  // ---------------------------------------------------------------------------
  // paymentSettingsSchema
  // ---------------------------------------------------------------------------

  datatype PaymentSettings = PaymentSettings(
    stripeApiKey: Option<string>, stripeWebhookSecret: Option<string>, paxumApiKey: Option<string>,
    paxumEmail: Option<string>, defaultReportPrice: real, defaultCommissionType: string,
    defaultCommissionValue: real, taxRate: real, vatRate: real, enableDiscounts: bool)

  function PaymentSettingsIssues(s: PaymentSettings, f: FormatChecks): (r: seq<Issue>)
    ensures r == [] <==> ValidPaymentSettings(s, f)
  {
    Check(K("paxumEmail"), s.paxumEmail.None? || s.paxumEmail.value == "" || f.isEmail(s.paxumEmail.value), Default)
    + Check(K("defaultReportPrice"), s.defaultReportPrice >= 0.0, Some("Price must be positive"))
    + Check(K("defaultCommissionType"), s.defaultCommissionType in {"percentage", "fixed"}, Default)
    + Check(K("defaultCommissionValue"), s.defaultCommissionValue >= 0.0, Some("Commission must be positive"))
    + Check(K("taxRate"), s.taxRate >= 0.0, Default)
    + Check(K("taxRate"), s.taxRate <= 100.0, Some("Tax rate must be between 0 and 100"))
    + Check(K("vatRate"), s.vatRate >= 0.0, Default)
    + Check(K("vatRate"), s.vatRate <= 100.0, Some("VAT rate must be between 0 and 100"))
  }

  /** Non-negative price and commission, a known commission type, tax and VAT
      rates that are percentages, and an absent, empty or well-formed email. */
  predicate ValidPaymentSettings(s: PaymentSettings, f: FormatChecks) {
    && (s.paxumEmail.Some? && s.paxumEmail.value != "" ==> f.isEmail(s.paxumEmail.value))
    && s.defaultReportPrice >= 0.0
    && (s.defaultCommissionType == "percentage" || s.defaultCommissionType == "fixed")
    && s.defaultCommissionValue >= 0.0
    && 0.0 <= s.taxRate <= 100.0
    && 0.0 <= s.vatRate <= 100.0
  }

  // ---------------------------------------------------------------------------
  // discountCodeSchema
  // ---------------------------------------------------------------------------

  datatype DiscountCode = DiscountCode(
    code: string, discountType: string, discountValue: real, maxUses: Option<real>,
    validFrom: string, validUntil: Option<string>, isActive: bool)

  datatype Validation<+T> = Valid(data: T) | Invalid(issues: seq<Issue>)

  function DiscountCodeIssues(d: DiscountCode, f: FormatChecks): (r: seq<Issue>)
    ensures r == [] <==> ValidDiscountCode(d, f)
  {
    NonEmptyIsMinOne(d.code);
    Check(K("code"), LengthAtLeast(d.code, 1), Some("Code is required"))
    + Check(K("code"), LengthAtMost(d.code, 50), Default)
    + Check(K("discountType"), d.discountType in {"percentage", "fixed"}, Default)
    + Check(K("discountValue"), d.discountValue >= 0.0, Some("Discount must be positive"))
    + (if d.maxUses.None? then []
       else Check(K("maxUses"), IsInteger(d.maxUses.value), Default)
            + Check(K("maxUses"), d.maxUses.value >= 1.0, Default))
    + Check(K("validFrom"), f.isDatetime(d.validFrom), Default)
    + (if d.validUntil.None? then [] else Check(K("validUntil"), f.isDatetime(d.validUntil.value), Default))
  }

  /** A code of 1..50 units, a known discount type, a non-negative value, an
      absent or whole, positive use limit, and well-formed validity dates. */
  predicate ValidDiscountCode(d: DiscountCode, f: FormatChecks) {
    && d.code != "" && Utf16Length(d.code) <= 50
    && (d.discountType == "percentage" || d.discountType == "fixed")
    && d.discountValue >= 0.0
    && (d.maxUses.Some? ==> d.maxUses.value.Floor as real == d.maxUses.value && d.maxUses.value >= 1.0)
    && f.isDatetime(d.validFrom)
    && (d.validUntil.Some? ==> f.isDatetime(d.validUntil.value))
  }

  /** `discountCodeSchema.safeParse`: the issues, or the data with the code upper-cased. */
  function ParseDiscountCode(d: DiscountCode, f: FormatChecks): (r: Validation<DiscountCode>)
    ensures r.Valid? <==> ValidDiscountCode(d, f)
    ensures r.Valid? ==> r.data.code == Upper(d.code) && r.data.(code := d.code) == d
    ensures r.Invalid? ==> r.issues != []
  {
    var issues := DiscountCodeIssues(d, f);
    if issues == [] then Valid(d.(code := Upper(d.code))) else Invalid(issues)
  }

  /** Upper-casing ASCII letters keeps the UTF-16 length. */
  lemma {:induction false} UpperKeepsUtf16Length(s: string)
    ensures Utf16Length(Upper(s)) == Utf16Length(s)
    decreases |s|
  {
    if s != [] {
      UpperKeepsUtf16Length(s[1..]);
      assert Upper(s)[1..] == Upper(s[1..]);
    }
  }

  /** Upper-casing twice is upper-casing once. */
  lemma UpperIdempotent(s: string)
    ensures Upper(Upper(s)) == Upper(s)
  {
  }

  /** A valid code comes out upper-cased, of the same length and without
      lower-case ASCII letters, with every other field as it came in; and
      validating the output again gives the output back. */
  lemma DiscountCodeNormalised(d: DiscountCode, f: FormatChecks)
    requires ParseDiscountCode(d, f).Valid?
    ensures var out := ParseDiscountCode(d, f).data;
            && out.code == Upper(d.code)
            && Utf16Length(out.code) == Utf16Length(d.code)
            && (forall i :: 0 <= i < |out.code| ==> !('a' <= out.code[i] <= 'z'))
            && out.(code := d.code) == d
            && ParseDiscountCode(out, f) == Valid(out)
  {
    var out := ParseDiscountCode(d, f).data;
    UpperKeepsUtf16Length(d.code);
    UpperIdempotent(d.code);
    assert DiscountCodeIssues(out, f) == DiscountCodeIssues(d, f);
  }

  // ---------------------------------------------------------------------------
  // automationActionSchema / automationRuleSchema
  // ---------------------------------------------------------------------------

  /** An action (its `config`, a record of anything, always passes). */
  datatype AutomationAction = AutomationAction(actionType: string)

  const RuleTypes: set<string> := {"lead_creation", "lead_assignment", "report_generation", "notification", "status_change"}

  datatype AutomationRule = AutomationRule(
    ruleName: string, ruleType: string, triggerEvent: string, actions: seq<AutomationAction>,
    isActive: bool, priority: real)

  function ActionIssues(path: seq<PathPart>, a: AutomationAction): seq<Issue> {
    Check(path + K("type"), LengthAtLeast(a.actionType, 1), Some("Action type is required"))
  }

  function AutomationRuleIssues(r: AutomationRule): (issues: seq<Issue>)
    ensures issues == [] <==> ValidAutomationRule(r)
  {
    NonEmptyIsMinOne(r.ruleName);
    NonEmptyIsMinOne(r.triggerEvent);
    ActionsExact(r.actions);
    Check(K("ruleName"), LengthAtLeast(r.ruleName, 1), Some("Rule name is required"))
    + Check(K("ruleName"), LengthAtMost(r.ruleName, 100), Default)
    + Check(K("ruleType"), r.ruleType in RuleTypes, Default)
    + Check(K("triggerEvent"), LengthAtLeast(r.triggerEvent, 1), Some("Trigger event is required"))
    + EachElement(K("actions"), r.actions, ActionIssues)
    + Check(K("actions"), |r.actions| >= 1, Some("At least one action required"))
    + Check(K("priority"), IsInteger(r.priority), Default)
    + Check(K("priority"), r.priority >= 0.0, Default)
    + Check(K("priority"), r.priority <= 100.0, Default)
  }

  /** A named rule of a known type with a trigger, at least one action, every
      action typed, and a whole-number priority in [0, 100]. */
  predicate ValidAutomationRule(r: AutomationRule) {
    && r.ruleName != "" && Utf16Length(r.ruleName) <= 100
    && r.ruleType in RuleTypes
    && r.triggerEvent != ""
    && r.actions != [] && (forall a :: a in r.actions ==> a.actionType != "")
    && r.priority.Floor as real == r.priority && 0 <= r.priority.Floor <= 100
  }

  /** The action list passes exactly when every action has a type. */
  lemma ActionsExact(actions: seq<AutomationAction>)
    ensures EachElement(K("actions"), actions, ActionIssues) == [] <==> forall a :: a in actions ==> a.actionType != ""
  {
    EachElementEmpty(K("actions"), actions, ActionIssues);
    forall a | a in actions
      ensures a.actionType != "" <==> LengthAtLeast(a.actionType, 1)
    {
      NonEmptyIsMinOne(a.actionType);
    }
  }
}
