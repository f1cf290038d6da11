/**
 * A Django `choices` table: an ordered tuple of (stored code, display label)
 * pairs attached to a `CharField`, together with what the field declares about
 * the codes it stores (its `max_length`, its `default`, whether it is nullable).
 */
module ChoiceTable {
  import opened Wrappers

  /** The `choices` tuple as written: (code, label) pairs in declaration order. */
  type Choices = seq<(string, string)>

  /** Some entry of the table stores `code`. */
  predicate HasCode(t: Choices, code: string)
  {
    exists i :: 0 <= i < |t| && t[i].0 == code
  }

  /** No two entries of the table store the same code. */
  predicate DistinctCodes(t: Choices)
  {
    forall i, j :: 0 <= i < j < |t| ==> t[i].0 != t[j].0
  }

  /**
   * No code is the empty string. Django counts `''` as an empty value and
   * never matches it against the choices, so an empty code could not be stored
   * as a choice.
   */
  predicate CodesNonEmpty(t: Choices)
  {
    forall i :: 0 <= i < |t| ==> t[i].0 != ""
  }

  /** Every code of the table fits a column of width `maxLength`. */
  predicate CodesFit(t: Choices, maxLength: nat)
  {
    forall i :: 0 <= i < |t| ==> |t[i].0| <= maxLength
  }

  /**
   * Table lookup: the label of the first entry whose code is `code`, or
   * `None` when no entry stores it. For a table with distinct codes this is
   * the label of the one entry with that code.
   */
  function Label(t: Choices, code: string): (r: Option<string>)
    ensures r.Some? <==> HasCode(t, code)
    ensures r.Some? ==> exists i :: 0 <= i < |t| && t[i] == (code, r.value)
  {
    if t == [] then None
    else if t[0].0 == code then Some(t[0].1)
    else
      var r := Label(t[1..], code);
      assert forall i :: 0 <= i < |t[1..]| ==> t[1..][i] == t[i + 1];
      assert HasCode(t, code) ==> HasCode(t[1..], code) by {
        if HasCode(t, code) {
          var i :| 0 <= i < |t| && t[i].0 == code;
          assert i != 0 && t[1..][i - 1].0 == code;
        }
      }
      r
  }

  /** In a table with distinct codes, looking up an entry's code gives that entry's label. */
  lemma LabelOfEntry(t: Choices, i: nat)
    requires DistinctCodes(t)
    requires i < |t|
    ensures Label(t, t[i].0) == Some(t[i].1)
  {
    // Label's contract names an entry (code, label) with this code; distinctness makes it entry i.
  }

  /**
   * What a choice-constrained `CharField` declares: `max_length`, `choices`,
   * `default`, `null` (`nullable`) and `blank`.
   */
  datatype CharField = CharField(maxLength: nat, choices: Choices, default: Option<string>, nullable: bool, blank: bool)

  /**
   * The field's declarations agree with its choices: codes are unique and
   * non-empty, each fits `max_length`, and a declared default is one of the
   * codes.
   */
  predicate WellDeclared(f: CharField)
  {
    && DistinctCodes(f.choices)
    && CodesNonEmpty(f.choices)
    && CodesFit(f.choices, f.maxLength)
    && (f.default.Some? ==> HasCode(f.choices, f.default.value))
  }

  /**
   * A value the field admits, following Django's field validation: an empty
   * value (`None` or `''`) skips the choices and length checks, and is
   * refused unless the field is `blank`; `None` is refused too unless it is
   * `null`. Any other value must be a code of the table that fits the column.
   */
  predicate Admits(f: CharField, v: Option<string>)
  {
    match v
    case None => f.nullable && f.blank
    case Some(code) =>
      if code == "" then f.blank
      else HasCode(f.choices, code) && |code| <= f.maxLength
  }

  /**
   * For a well-declared field a non-empty value is admitted exactly when the
   * table has a label for it, the empty string is admitted exactly when the
   * field is `blank` and never has a label, and a declared default is
   * admitted.
   */
  lemma WellDeclaredAdmits(f: CharField, code: string)
    requires WellDeclared(f)
    ensures code != "" ==> (Admits(f, Some(code)) <==> Label(f.choices, code).Some?)
    ensures Admits(f, Some("")) <==> f.blank
    ensures Label(f.choices, "") == None
    ensures f.default.Some? ==> Admits(f, f.default)
  {
  }
}
