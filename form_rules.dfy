/**
 * The field rules the dialogs hand to react-hook-form (`required`, `min`,
 * `minLength`, `pattern`) and the e-mail pattern
 * /^[^\s@]+@[^\s@]+\.[^\s@]+$/ shared by the customer and user dialogs.
 */
module FormRules {

  import opened Common
  import opened Js

  /** What `required` rejects: undefined, null and the empty string. */
  predicate IsBlank(v: JsValue) {
    v.Undefined? || v.Null? || v == Str("")
  }

  /** `required` */
  predicate RequiredOk(v: JsValue) {
    !IsBlank(v)
  }

  /** `min`: checked only on a non-blank value that reads as a number. */
  predicate MinOk(v: JsValue, min: int) {
    IsBlank(v) || NumberOf(v).None? || NumberOf(v).value >= min
  }

  /** `minLength`: checked only on a non-empty string. */
  predicate MinLengthOk(v: JsValue, len: nat) {
    !(v.Str? && v.s != "" && |v.s| < len)
  }

  /** `pattern`: checked only on a non-empty string. */
  predicate EmailRuleOk(v: JsValue) {
    !(v.Str? && v.s != "") || IsEmail(v.s)
  }

  /** A run of `[^\s@]+`: non-empty, with neither white space nor '@'. */
  predicate Run(s: string) {
    s != [] && forall k :: 0 <= k < |s| ==> !IsSpace(s[k]) && s[k] != '@'
  }

  /** The pattern read literally: three runs joined by '@' and '.'. */
  ghost predicate MatchesEmailPattern(s: string) {
    exists a: string, b: string, c: string {:trigger Run(a), Run(b), Run(c)} ::
      Run(a) && Run(b) && Run(c) && s == a + "@" + b + "." + c
  }

  /** Some '.' after position `at`, with a character between them and one after it. */
  predicate DotAfter(s: string, at: int)
    requires 0 <= at < |s|
  {
    exists q :: at + 1 < q < |s| - 1 && s[q] == '.'
  }

  /**
   * The e-mail check as positions: no white space, exactly one '@', not
   * first, and a '.' after it with a character on each side.
   */
  predicate IsEmail(s: string) {
    && (forall k :: 0 <= k < |s| ==> !IsSpace(s[k]))
    && exists at :: 0 < at < |s| && s[at] == '@' && DotAfter(s, at)
         && (forall k :: 0 <= k < |s| && k != at ==> s[k] != '@')
  }

  /** The position check accepts exactly the strings the pattern matches. */
  lemma IsEmailMatchesPattern(s: string)
    ensures IsEmail(s) <==> MatchesEmailPattern(s)
  {
    if IsEmail(s) {
      var at :| 0 < at < |s| && s[at] == '@' && DotAfter(s, at)
                && (forall k :: 0 <= k < |s| && k != at ==> s[k] != '@');
      var q :| at + 1 < q < |s| - 1 && s[q] == '.';
      var a, b, c := s[..at], s[at + 1..q], s[q + 1..];
      assert forall k :: 0 <= k < |b| ==> b[k] == s[at + 1 + k];
      assert forall k :: 0 <= k < |c| ==> c[k] == s[q + 1 + k];
      assert Run(a) && Run(b) && Run(c);
      assert s == a + "@" + b + "." + c;
    }
    if MatchesEmailPattern(s) {
      var a: string, b: string, c: string :| Run(a) && Run(b) && Run(c) && s == a + "@" + b + "." + c;
      var at, q := |a|, |a| + 1 + |b|;
      assert forall k :: 0 <= k < |a| ==> s[k] == a[k];
      assert forall k :: 0 <= k < |b| ==> s[at + 1 + k] == b[k];
      assert forall k :: 0 <= k < |c| ==> s[q + 1 + k] == c[k];
      assert s[at] == '@' && s[q] == '.';
      assert DotAfter(s, at);
      forall k | 0 <= k < |s|
        ensures !IsSpace(s[k]) && (k != at ==> s[k] != '@')
      {
        if k < at {
        } else if at < k < q {
          assert s[k] == b[k - at - 1];
        } else if q < k {
          assert s[k] == c[k - q - 1];
        }
      }
    }
  }

  /** A plain address passes the rule. */
  lemma EmailAccepted()
    ensures IsEmail("ana@tienda.mx")
  {
    var s := "ana@tienda.mx";
    assert s[3] == '@' && s[10] == '.';
    assert DotAfter(s, 3);
  }

  /** A second '@' fails the rule. */
  lemma EmailRejectsTwoAts()
    ensures !IsEmail("ana@@tienda.mx")
  {
    var s := "ana@@tienda.mx";
    assert s[3] == '@' && s[4] == '@';
  }

  /** White space anywhere fails the rule. */
  lemma EmailRejectsSpace()
    ensures !IsEmail("ana @tienda.mx")
  {
    var s := "ana @tienda.mx";
    assert IsSpace(s[3]);
  }

  /** Nothing before the '@' fails the rule. */
  lemma EmailRejectsEmptyLocalPart()
    ensures !IsEmail("@tienda.mx")
  {
  }

  /** A domain without a '.' followed by a character fails the rule. */
  lemma EmailRejectsDomainWithoutDot()
    ensures !IsEmail("ana@tienda")
    ensures !IsEmail("ana@tienda.")
  {
  }

  /**
   * An edit reset's `field: source.field || default` for each field of
   * `defaults`: the source's value when truthy, else the default.
   */
  function Fill(source: Record, defaults: Record): (r: Record)
    ensures r.Keys == defaults.Keys
    ensures forall k :: k in defaults && Truthy(Get(source, k)) ==> r[k] == source[k]
    ensures forall k :: k in defaults && !Truthy(Get(source, k)) ==> r[k] == defaults[k]
  {
    map k | k in defaults :: Or(Get(source, k), defaults[k])
  }

  /** Filling the defaults from themselves gives them back. */
  lemma FillFromDefaults(defaults: Record)
    ensures Fill(defaults, defaults) == defaults
  {
  }

  /**
   * `{ ...data, f: data.f || null, … }` over `fields`: every falsy listed
   * field becomes null (and is added as null when absent); everything
   * else passes through unchanged.
   */
  function NullFalsy(data: Record, fields: set<string>): (r: Record)
    ensures r.Keys == data.Keys + fields
    ensures forall k :: k in fields ==> r[k] == (if Truthy(Get(data, k)) then data[k] else Null)
    ensures forall k :: k in data && !(k in fields) ==> r[k] == data[k]
    ensures forall k :: k in r && Truthy(r[k]) ==> k in data && r[k] == data[k]
  {
    data + map k | k in fields :: Or(Get(data, k), Null)
  }

  /** Cleaning twice is cleaning once. */
  lemma NullFalsyIdempotent(data: Record, fields: set<string>)
    ensures NullFalsy(NullFalsy(data, fields), fields) == NullFalsy(data, fields)
  {
    var once := NullFalsy(data, fields);
    var twice := NullFalsy(once, fields);
    assert twice.Keys == once.Keys;
    forall k | k in once
      ensures twice[k] == once[k]
    {
    }
  }
}
