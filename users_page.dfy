/**
 * The user table (src/pages/Users.jsx): role labels and colours, the full
 * name, the '-' fallbacks and the status chip.
 */
module UsersPage {

  import opened Js
  import opened Display

  const RoleLabels: map<string, string> := map[
    "admin" := "Administrador", "manager" := "Gerente", "cashier" := "Cajero",
    "warehouse" := "Almacén", "promoter" := "Promotor"]

  const RoleColors: map<string, string> := map[
    "admin" := "error", "manager" := "warning", "cashier" := "info",
    "warehouse" := "success", "promoter" := "secondary"]

  /** `getRoleLabel`: the Spanish name of one of the five roles, any other role as it is. */
  function RoleLabel(role: string): (r: string)
    ensures role in RoleLabels ==> r == RoleLabels[role]
    ensures !(role in RoleLabels) ==> r == role
  {
    LookupOr(RoleLabels, role, role)
  }

  /** `getRoleColor`: the role's colour, 'default' for any other role. */
  function RoleColor(role: string): (r: string)
    ensures role in RoleColors ==> r == RoleColors[role]
    ensures !(role in RoleColors) ==> r == "default"
  {
    LookupOr(RoleColors, role, "default")
  }

  /**
   * Both tables know the same five roles: a role gets a colour other than
   * 'default' exactly when it gets a translated label.
   */
  lemma RoleTablesAgree(role: string)
    ensures RoleColor(role) != "default" <==> role in RoleLabels
    ensures role in RoleLabels ==> RoleLabel(role) != role
  {
  }

  /** The full-name column. */
  function FullName(row: Record): (r: string)
    ensures r != ""
    ensures r == "-" <==> JoinedName(Get(row, "firstName"), Get(row, "lastName")) in {"", "-"}
    ensures JoinedName(Get(row, "firstName"), Get(row, "lastName")) != "" ==>
      r == JoinedName(Get(row, "firstName"), Get(row, "lastName"))
  {
    NameCell(Get(row, "firstName"), Get(row, "lastName"))
  }

  /** A user with both names given, neither with surrounding white space, is shown as "first last". */
  lemma FullNameOfNamedUser(row: Record)
    requires Get(row, "firstName").Str? && Get(row, "lastName").Str?
    requires Get(row, "firstName").s != "" && Get(row, "lastName").s != ""
    requires Trimmed(Get(row, "firstName").s) && Trimmed(Get(row, "lastName").s)
    ensures FullName(row) == Get(row, "firstName").s + " " + Get(row, "lastName").s
  {
    JoinedNameOfTrimmedParts(Get(row, "firstName"), Get(row, "lastName"));
  }

  /** The username and e-mail columns. */
  function AccountCells(row: Record): (r: (JsValue, JsValue))
    ensures r == (Dash(Get(row, "username")), Dash(Get(row, "email")))
  {
    (Dash(Get(row, "username")), Dash(Get(row, "email")))
  }
}
