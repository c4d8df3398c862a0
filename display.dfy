/**
 * The two display idioms the customer and user tables share: a value or
 * '-', and a person's name written as "first last", trimmed, with missing
 * parts left out.
 */
module Display {

  import opened Js

  /** `value || '-'` */
  function Dash(v: JsValue): (r: JsValue)
    ensures Truthy(v) ==> r == v
    ensures !Truthy(v) ==> r == Str("-")
  {
    Or(v, Str("-"))
  }

  /** `${first || ''} ${last || ''}`.trim() */
  function JoinedName(first: JsValue, last: JsValue): string {
    Trim(TextOr(first) + " " + TextOr(last))
  }

  /** The joined name is empty exactly when both parts are missing or white space. */
  lemma JoinedNameEmptyIff(first: JsValue, last: JsValue)
    ensures JoinedName(first, last) == "" <==> AllSpace(TextOr(first)) && AllSpace(TextOr(last))
  {
    var a, b := TextOr(first), TextOr(last);
    var s := a + " " + b;
    TrimEmptyIff(s);
    if AllSpace(s) {
      assert forall k :: 0 <= k < |a| ==> a[k] == s[k];
      assert forall k :: 0 <= k < |b| ==> b[k] == s[|a| + 1 + k];
    }
    if AllSpace(a) && AllSpace(b) {
      forall k | 0 <= k < |s|
        ensures IsSpace(s[k])
      {
        if k < |a| {
          assert s[k] == a[k];
        } else if k > |a| {
          assert s[k] == b[k - |a| - 1];
        }
      }
    }
  }

  /**
   * For parts without surrounding white space the name is both parts
   * joined by one space, or the part that is present.
   */
  lemma JoinedNameOfTrimmedParts(first: JsValue, last: JsValue)
    requires Trimmed(TextOr(first)) && Trimmed(TextOr(last))
    ensures JoinedName(first, last) ==
      if TextOr(first) == "" then TextOr(last)
      else if TextOr(last) == "" then TextOr(first)
      else TextOr(first) + " " + TextOr(last)
  {
    TrimJoin(TextOr(first), TextOr(last));
  }

  /** `name || '-'` on a joined name. */
  function NameCell(first: JsValue, last: JsValue): (r: string)
    ensures r == "-" <==> JoinedName(first, last) == "" || JoinedName(first, last) == "-"
    ensures r != ""
    ensures JoinedName(first, last) != "" ==> r == JoinedName(first, last)
    ensures JoinedName(first, last) == "" ==> r == "-"
  {
    var name := JoinedName(first, last);
    if name != "" then name else "-"
  }

  /** `isActive ? 'Activo' : 'Inactivo'` and its colour. */
  function ActiveChip(isActive: JsValue): (r: (string, string))
    ensures r.0 == "Activo" <==> Truthy(isActive)
    ensures r.1 == "success" <==> Truthy(isActive)
  {
    if Truthy(isActive) then ("Activo", "success") else ("Inactivo", "default")
  }
}
