/**
 * The customer table (src/pages/Customers.jsx): the name column, the type
 * chip, the '-' fallbacks of the contact columns and the name in the
 * delete prompt.
 */
module CustomersPage {

  import opened Common
  import opened Js
  import opened Display

  /**
   * The name column: a business shows its company name or '-'; any other
   * customer the joined first and last name, or '-' when that is empty.
   */
  function NameColumn(row: Record): (r: JsValue)
    ensures Get(row, "customerType") == Str("business") ==> r == Dash(Get(row, "companyName"))
    ensures Get(row, "customerType") != Str("business") ==>
      r == Str(NameCell(Get(row, "firstName"), Get(row, "lastName")))
    ensures Get(row, "customerType") != Str("business") && JoinedName(Get(row, "firstName"), Get(row, "lastName")) != "" ==>
      r == Str(JoinedName(Get(row, "firstName"), Get(row, "lastName")))
    ensures r == Str("-") || Truthy(r)
  {
    if Get(row, "customerType") == Str("business") then Dash(Get(row, "companyName"))
    else Str(NameCell(Get(row, "firstName"), Get(row, "lastName")))
  }

  /**
   * An individual whose names are missing or only white space shows '-';
   * one with a visible name never does unless that name is '-' itself.
   */
  lemma IndividualWithoutNameShowsDash(row: Record)
    requires Get(row, "customerType") != Str("business")
    ensures NameColumn(row) == Str("-") <==>
      (AllSpace(TextOr(Get(row, "firstName"))) && AllSpace(TextOr(Get(row, "lastName"))))
      || JoinedName(Get(row, "firstName"), Get(row, "lastName")) == "-"
  {
    JoinedNameEmptyIff(Get(row, "firstName"), Get(row, "lastName"));
  }

  /** The type chip: 'Empresa' in the primary colour exactly for a business. */
  function TypeChip(customerType: JsValue): (r: (string, string))
    ensures r.0 == "Empresa" <==> customerType == Str("business")
    ensures r.1 == "primary" <==> customerType == Str("business")
  {
    if customerType == Str("business") then ("Empresa", "primary") else ("Individual", "default")
  }

  /** The phone, e-mail, RFC, municipality and state columns, each its value or '-'. */
  function ContactCells(row: Record): (r: seq<JsValue>)
    ensures |r| == 5
    ensures forall i :: 0 <= i < 5 ==> r[i] == Dash(Get(row, ["phone", "email", "taxId", "municipality", "state"][i]))
  {
    seq(5, i requires 0 <= i < 5 => Dash(Get(row, ["phone", "email", "taxId", "municipality", "state"][i])))
  }

  /**
   * The name in the delete prompt: the company name whenever it is set,
   * whatever the customer's type, else the joined first and last name.
   */
  function DeletePromptName(selected: Option<Record>): (r: string)
    ensures selected.Some? && Truthy(Get(selected.value, "companyName")) ==> r == Render(Get(selected.value, "companyName"))
    ensures selected.Some? && !Truthy(Get(selected.value, "companyName")) ==>
      r == JoinedName(Get(selected.value, "firstName"), Get(selected.value, "lastName"))
    ensures selected.None? ==> r == ""
  {
    var c := if selected.Some? then selected.value else map[];
    if Truthy(Get(c, "companyName")) then Render(Get(c, "companyName"))
    else
      JoinedNameEmptyIff(Get(c, "firstName"), Get(c, "lastName"));
      JoinedName(Get(c, "firstName"), Get(c, "lastName"))
  }

  /**
   * The prompt and the name column can disagree: an individual who also
   * has a company name is listed by person but asked about by company.
   */
  lemma PromptUsesCompanyForIndividual()
    ensures var row := map["customerType" := Str("individual"), "firstName" := Str("Ana"), "companyName" := Str("Vinos SA")];
      NameColumn(row) == Str("Ana") && DeletePromptName(Some(row)) == "Vinos SA"
  {
    var row := map["customerType" := Str("individual"), "firstName" := Str("Ana"), "companyName" := Str("Vinos SA")];
    JoinedNameOfTrimmedParts(Get(row, "firstName"), Get(row, "lastName"));
  }
}
