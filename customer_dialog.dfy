/**
 * The customer form (src/components/customers/CustomerDialog.jsx): the
 * name checks `onSubmit` makes for each customer type, the cleaning of its
 * eleven optional fields, its resets and its e-mail rule.
 */
module CustomerDialog {

  import opened Common
  import opened Js
  import opened FormRules

  /** `useForm`'s default values. */
  const InitialDefaults: Record := map[
    "customerType" := Str("individual"), "firstName" := Str(""), "lastName" := Str(""),
    "companyName" := Str(""), "taxId" := Str(""), "email" := Str(""), "phone" := Str(""),
    "street" := Str(""), "exteriorNumber" := Str(""), "interiorNumber" := Str(""),
    "neighborhood" := Str(""), "postalCode" := Str(""), "municipality" := Str(""),
    "state" := Str(""), "notes" := Str(""), "isActive" := Bool(true)]

  /** The reset for a new customer, spelled out a second time in the component. */
  const NewCustomerReset: Record := map[
    "customerType" := Str("individual"), "firstName" := Str(""), "lastName" := Str(""),
    "companyName" := Str(""), "taxId" := Str(""), "email" := Str(""), "phone" := Str(""),
    "street" := Str(""), "exteriorNumber" := Str(""), "interiorNumber" := Str(""),
    "neighborhood" := Str(""), "postalCode" := Str(""), "municipality" := Str(""),
    "state" := Str(""), "notes" := Str(""), "isActive" := Bool(true)]

  lemma NewResetIsInitial()
    ensures NewCustomerReset == InitialDefaults
  {
  }

  /**
   * The reset for an existing customer: each field from the customer or ''
   * ('individual' for the type); `isActive` kept unless undefined.
   */
  function EditReset(customer: Record): (r: Record)
    ensures r.Keys == InitialDefaults.Keys
    ensures r["customerType"] == Or(Get(customer, "customerType"), Str("individual"))
    ensures forall k :: k in InitialDefaults && k != "customerType" && k != "isActive" ==>
      r[k] == (if Truthy(Get(customer, k)) then customer[k] else Str(""))
    ensures r["isActive"] == DefinedOr(Get(customer, "isActive"), Bool(true))
  {
    Fill(customer, InitialDefaults)["isActive" := DefinedOr(Get(customer, "isActive"), Bool(true))]
  }

  function ResetOnOpen(customer: Option<Record>): (r: Record)
    ensures customer.None? ==> r == InitialDefaults
    ensures customer.Some? ==> r == EditReset(customer.value)
    ensures r.Keys == InitialDefaults.Keys
  {
    if customer.Some? then EditReset(customer.value) else NewCustomerReset
  }

  lemma EditResetOfDefaults()
    ensures EditReset(InitialDefaults) == InitialDefaults
  {
    FillFromDefaults(InitialDefaults);
  }

  const NullableFields: set<string> := {
    "email", "taxId", "phone", "street", "exteriorNumber", "interiorNumber",
    "neighborhood", "postalCode", "municipality", "state", "notes"}

  datatype Submission = CompanyNameMissing | NameMissing | Accepted(clean: Record)

  /**
   * `onSubmit`: a business needs a company name, an individual a first or
   * a last name; the accepted record has its optional fields nulled when
   * empty and every other field as entered.
   */
  function Submit(data: Record): (s: Submission)
    ensures s == CompanyNameMissing <==>
      Get(data, "customerType") == Str("business") && !Truthy(Get(data, "companyName"))
    ensures s == NameMissing <==>
      && Get(data, "customerType") == Str("individual")
      && !Truthy(Get(data, "firstName")) && !Truthy(Get(data, "lastName"))
    ensures s.Accepted? ==>
      && s.clean.Keys == data.Keys + NullableFields
      && (forall k :: k in NullableFields ==> s.clean[k] == (if Truthy(Get(data, k)) then data[k] else Null))
      && (forall k :: k in data && !(k in NullableFields) ==> s.clean[k] == data[k])
  {
    if Get(data, "customerType") == Str("business") && !Truthy(Get(data, "companyName")) then
      CompanyNameMissing
    else if Get(data, "customerType") == Str("individual") && !Truthy(Get(data, "firstName")) && !Truthy(Get(data, "lastName")) then
      NameMissing
    else
      Accepted(NullFalsy(data, NullableFields))
  }

  /**
   * The form's own rules: the name field shown for the type is required
   * (first name for an individual, company name otherwise) and a non-empty
   * e-mail must match the pattern.
   */
  predicate FormRulesOk(data: Record) {
    && (if Get(data, "customerType") == Str("individual") then RequiredOk(Get(data, "firstName"))
        else RequiredOk(Get(data, "companyName")))
    && EmailRuleOk(Get(data, "email"))
  }

  /**
   * With text name fields, a form that passes its own rules is never
   * turned away by `onSubmit`'s checks, and its e-mail, when given, is
   * sent as a well-formed address.
   */
  lemma FormRulesImplyAccepted(data: Record)
    requires FormRulesOk(data)
    requires Get(data, "firstName").Str? && Get(data, "companyName").Str?
    ensures Submit(data).Accepted?
    ensures Get(data, "email").Str? && Get(data, "email").s != "" ==>
      Submit(data).clean["email"] == data["email"] && IsEmail(data["email"].s)
  {
  }
}
