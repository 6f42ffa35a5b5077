/**
 * The part of go-playground/validator (v10, built with `validator.New()`) that the
 * `validate` tags of internal/config/types.go rely on: `required`, `min`, `max`,
 * `dive`, `url`, `email` and `ip`. A struct is seen the way the validator's
 * reflection sees it: a sequence of fields, each with its tag list and its value.
 */
module Validator {

  /**
   * The format checks behind the `url`, `email` and `ip` tags. They are left
   * uninterpreted: every statement of this model holds for any choice of them.
   */
  datatype Formats = Formats(isURL: string -> bool, isEmail: string -> bool, isIP: string -> bool)

  /** One entry of a comma-separated `validate:"..."` tag. */
  datatype Tag = Required | Min(bound: int) | Max(bound: int) | Dive | URL | Email | IP

  /** A field value as the validator's reflection sees it. */
  datatype Value =
    | Str(s: string)
    | Int(i: int)
    | Bool(b: bool)
    | List(elems: seq<Value>)
    | Struct(fields: seq<Field>)

  /** A struct field: its key, its tag list and its value. */
  datatype Field = Field(name: string, tags: seq<Tag>, value: Value)

  /**
   * Whether one tag other than `dive` accepts a value.
   * `required` asks for a non-zero value; on a slice it asks for a non-nil one,
   * and a sequence here is never nil. On a non-pointer struct the validator skips
   * `required` (it only traverses the struct). `min`/`max` bound an integer, the
   * length of a list, or the number of characters (runes) of a string; on a bool
   * or a struct the validator panics, which is read here as rejection.
   */
  predicate TagHolds(t: Tag, v: Value, f: Formats) {
    match t
    case Required =>
      (match v
       case Str(s) => s != ""
       case Int(i) => i != 0
       case Bool(b) => b
       case List(_) => true
       case Struct(_) => true)
    case Min(n) => (v.Int? && v.i >= n) || (v.List? && |v.elems| >= n) || (v.Str? && |v.s| >= n)
    case Max(n) => (v.Int? && v.i <= n) || (v.List? && |v.elems| <= n) || (v.Str? && |v.s| <= n)
    case Dive => false
    case URL => v.Str? && f.isURL(v.s)
    case Email => v.Str? && f.isEmail(v.s)
    case IP => v.Str? && f.isIP(v.s)
  }

  /**
   * Whether a value passes a tag list, tags taken left to right. `dive` hands the
   * rest of the list to every element of a list. Once the tags are used up, a
   * struct is traversed: each of its fields must pass its own tag list.
   */
  predicate Check(tags: seq<Tag>, v: Value, f: Formats)
    decreases v, |tags|
  {
    if tags == [] then
      v.Struct? ==> forall i :: 0 <= i < |v.fields| ==> CheckField(v.fields, i, f)
    else if tags[0] == Dive then
      v.List? && forall i :: 0 <= i < |v.elems| ==> Check(tags[1..], v.elems[i], f)
    else
      TagHolds(tags[0], v, f) && Check(tags[1..], v, f)
  }

  /** Field `i` of a struct passes its tag list. */
  predicate CheckField(fields: seq<Field>, i: int, f: Formats)
    requires 0 <= i < |fields|
    decreases fields, 0
  {
    Check(fields[i].tags, fields[i].value, f)
  }

  /**
   * Without `dive`, a tag list is the conjunction of its tags, after which a
   * struct value is still traversed.
   */
  lemma {:induction false} CheckWithoutDive(tags: seq<Tag>, v: Value, f: Formats)
    requires Dive !in tags
    ensures Check(tags, v, f) <==> (forall i :: 0 <= i < |tags| ==> TagHolds(tags[i], v, f)) && Check([], v, f)
  {
    if tags != [] {
      assert tags == [tags[0]] + tags[1..];
      CheckWithoutDive(tags[1..], v, f);
    }
  }

  /** With its tags used up, a struct passes exactly when every field passes its own tags. */
  lemma TraverseStruct(fields: seq<Field>, f: Formats)
    ensures Check([], Struct(fields), f) <==> forall fd :: fd in fields ==> Check(fd.tags, fd.value, f)
  {
    if Check([], Struct(fields), f) {
      forall i | 0 <= i < |fields|
        ensures Check(fields[i].tags, fields[i].value, f)
      {
        assert CheckField(fields, i, f);
      }
    }
    if forall fd :: fd in fields ==> Check(fd.tags, fd.value, f) {
      assert forall i :: 0 <= i < |fields| ==> CheckField(fields, i, f);
    }
  }

  /** `required` on a non-pointer struct field rejects nothing: the struct is only traversed. */
  lemma RequiredStructTraverses(fields: seq<Field>, f: Formats)
    ensures Check([Required], Struct(fields), f) <==> forall fd :: fd in fields ==> Check(fd.tags, fd.value, f)
  {
    assert [Required][1..] == [];
    TraverseStruct(fields, f);
  }

  /**
   * `required,min=n,dive,...` on a slice: at least `n` elements, each passing
   * the tags after `dive`.
   */
  lemma RequiredMinDive(n: int, rest: seq<Tag>, elems: seq<Value>, f: Formats)
    ensures Check([Required, Min(n), Dive] + rest, List(elems), f)
        <==> |elems| >= n && forall i :: 0 <= i < |elems| ==> Check(rest, elems[i], f)
  {
    var v := List(elems);
    var afterRequired, afterMin := [Min(n), Dive] + rest, [Dive] + rest;
    assert ([Required, Min(n), Dive] + rest)[1..] == afterRequired;
    assert afterRequired[1..] == afterMin && afterMin[1..] == rest;
    assert Check([Required, Min(n), Dive] + rest, v, f) == Check(afterRequired, v, f);
    assert Check(afterRequired, v, f) == (|elems| >= n && Check(afterMin, v, f));
  }

  /** A `required` string or integer field that holds its zero value fails, whatever else its tags ask. */
  lemma {:induction false} RequiredRejectsZero(tags: seq<Tag>, v: Value, f: Formats)
    requires Required in tags && Dive !in tags
    requires v == Str("") || v == Int(0)
    ensures !Check(tags, v, f)
  {
    CheckWithoutDive(tags, v, f);
  }
}
