/**
 * The salary texts of the posting pages. Bounds are whole numbers and
 * `fmt` stands for `toLocaleString`, left uninterpreted; a bound that is
 * absent or zero counts as missing, as JavaScript truthiness has it.
 */
module Salary {
  import opened Wrappers

  const NOT_SPECIFIED := "Salary not specified"

  /** A bound is shown when it is truthy: present and not zero. */
  predicate Given(x: Option<int>) {
    x.Some? && x.value != 0
  }

  /** `formatSalaryRange` of the candidate's posting pages. */
  function FormatSalaryRange(fmt: int -> string, min: Option<int>, max: Option<int>): (r: string)
    ensures !Given(min) && !Given(max) ==> r == NOT_SPECIFIED
    ensures Given(min) && !Given(max) ==> r == "$" + fmt(min.value) + "+"
    ensures !Given(min) && Given(max) ==> r == "Up to $" + fmt(max.value)
    ensures Given(min) && Given(max) ==> r == "$" + fmt(min.value) + " - $" + fmt(max.value)
  {
    if !Given(min) && !Given(max) then NOT_SPECIFIED
    else if Given(min) && !Given(max) then "$" + fmt(min.value) + "+"
    else if !Given(min) && Given(max) then "Up to $" + fmt(max.value)
    else "$" + fmt(min.value) + " - $" + fmt(max.value)
  }

  /** A zero bound reads exactly like a missing one. */
  lemma ZeroIsMissing(fmt: int -> string, min: Option<int>, max: Option<int>)
    ensures FormatSalaryRange(fmt, Some(0), max) == FormatSalaryRange(fmt, None, max)
    ensures FormatSalaryRange(fmt, min, Some(0)) == FormatSalaryRange(fmt, min, None)
  {
  }

  /**
   * "Salary not specified" is shown exactly when neither bound is given,
   * whatever `fmt` prints: every other text starts with '$' or 'U'.
   */
  lemma NotSpecifiedIff(fmt: int -> string, min: Option<int>, max: Option<int>)
    ensures FormatSalaryRange(fmt, min, max) == NOT_SPECIFIED <==> !Given(min) && !Given(max)
  {
    var r := FormatSalaryRange(fmt, min, max);
    if Given(min) || Given(max) {
      assert r[0] == '$' || r[0] == 'U';
      assert NOT_SPECIFIED[0] == 'S';
    }
  }

  /**
   * What `{(min || max) && <block>}` renders: the block, or, when the
   * condition is falsy, the condition's own value. `min || max` is `max`
   * once `min` is falsy, so a `max` of 0 renders as the text "0", while
   * a `max` of `null` renders nothing.
   */
  datatype SalaryBlock = Block(text: string) | StrayZero | Hidden

  /**
   * The salary block of the employer's posting page: shown when either
   * bound is given, reading "From" for a lower bound alone; otherwise a
   * bare "0" when the upper bound is zero, and nothing when it is absent.
   */
  function EmployerSalaryBlock(fmt: int -> string, min: Option<int>, max: Option<int>): (r: SalaryBlock)
    ensures r.Block? <==> Given(min) || Given(max)
    ensures r == StrayZero <==> !Given(min) && max == Some(0)
    ensures r == Hidden <==> !Given(min) && max.None?
    ensures Given(min) && Given(max) ==> r == Block("$" + fmt(min.value) + " - $" + fmt(max.value))
    ensures Given(min) && !Given(max) ==> r == Block("From $" + fmt(min.value))
    ensures !Given(min) && Given(max) ==> r == Block("Up to $" + fmt(max.value))
  {
    if !(Given(min) || Given(max)) then (if max == Some(0) then StrayZero else Hidden)
    else if Given(min) && Given(max) then Block("$" + fmt(min.value) + " - $" + fmt(max.value))
    else if Given(min) then Block("From $" + fmt(min.value))
    else Block("Up to $" + fmt(max.value))
  }

  /** A posting with no lower bound and an upper bound of zero shows a stray "0" instead of a block. */
  lemma ZeroUpperBoundShowsZero(fmt: int -> string, min: Option<int>)
    requires !Given(min)
    ensures EmployerSalaryBlock(fmt, min, Some(0)) == StrayZero
    ensures FormatSalaryRange(fmt, min, Some(0)) == NOT_SPECIFIED
  {
  }

  /**
   * The two pages agree whenever the upper bound is given; with only a
   * lower bound one says "$min+" and the other "From $min". Where the
   * candidate's page says "Salary not specified" the employer's shows no
   * block: nothing at all, or "0" when the upper bound is zero.
   */
  lemma PagesAgree(fmt: int -> string, min: Option<int>, max: Option<int>)
    ensures Given(max) ==> EmployerSalaryBlock(fmt, min, max) == Block(FormatSalaryRange(fmt, min, max))
    ensures Given(min) && !Given(max) ==> EmployerSalaryBlock(fmt, min, max) == Block("From $" + fmt(min.value))
    ensures Given(min) && !Given(max) ==> FormatSalaryRange(fmt, min, max) == "$" + fmt(min.value) + "+"
    ensures !EmployerSalaryBlock(fmt, min, max).Block? <==> FormatSalaryRange(fmt, min, max) == NOT_SPECIFIED
    ensures EmployerSalaryBlock(fmt, min, max) == StrayZero ==> FormatSalaryRange(fmt, min, max) == NOT_SPECIFIED
  {
    NotSpecifiedIff(fmt, min, max);
  }
}
