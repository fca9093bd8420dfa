/**
 * The employer's edit page for a posting. Its form data is a plain
 * JavaScript object, filled from the fetched posting and changed one field
 * at a time, so it is modelled as a map from field names to values.
 */
module EditJob {
  import opened Wrappers
  import opened Text
  import opened Fetch
  import Schemas
  import Models
  import JobService

  /**
   * A form value: text, a number, `NaN` from an unreadable number,
   * `undefined` from an emptied salary box, or the `null` salary of a
   * fetched posting.
   */
  datatype FieldValue = Text(s: string) | Number(n: int) | NaN | Undefined | Null

  type FormData = map<string, FieldValue>

  /** The form before the posting arrives: seven empty text fields, no salaries. */
  const EMPTY_FORM: FormData := map[
    "title" := Text(""), "company_name" := Text(""), "location" := Text(""),
    "description" := Text(""), "requirements" := Text(""),
    "employment_type" := Text(""), "status" := Text("")]

  const EMPLOYMENT_TYPES: seq<string> := ["full-time", "part-time", "contract", "internship", "temporary"]
  const STATUS_TYPES: seq<string> := ["active", "closed", "draft"]

  const EMPLOYER_JOBS_PATH := "/employer/jobs"

  /** `handleChange`: `{...prev, [field]: value}`. */
  function HandleChange(form: FormData, field: string, value: FieldValue): (r: FormData)
    ensures r.Keys == form.Keys + {field}
    ensures r[field] == value
    ensures forall k :: k in form && k != field ==> r[k] == form[k]
  {
    form[field := value]
  }

  /** Changing a field twice keeps only the second value. */
  lemma LastChangeWins(form: FormData, field: string, a: FieldValue, b: FieldValue)
    ensures HandleChange(HandleChange(form, field, a), field, b) == HandleChange(form, field, b)
  {
  }

  /** Changes to two different fields can be made in either order. */
  lemma ChangesCommute(form: FormData, f: string, g: string, a: FieldValue, b: FieldValue)
    requires f != g
    ensures HandleChange(HandleChange(form, f, a), g, b) == HandleChange(HandleChange(form, g, b), f, a)
  {
  }

  /** What a salary input stores: `undefined` when empty, otherwise `parseInt` of the text. */
  function SalaryInput(text: string): (v: FieldValue)
    ensures text == "" ==> v == Undefined
    ensures text != "" && ParseInt(text).Some? ==> v == Number(ParseInt(text).value)
    ensures text != "" && ParseInt(text).None? ==> v == NaN
  {
    if text == "" then Undefined
    else match ParseInt(text)
      case Some(n) => Number(n)
      case None => NaN
  }

  /** What a salary input shows: `formData.salary_min || ''`. */
  function SalaryDisplay(v: FieldValue): string {
    match v
    case Number(n) => if n == 0 then "" else IntString(n)
    case Text(s) => s
    case _ => ""
  }

  /**
   * A salary survives being shown and read back, except zero, which shows
   * as an empty box and is read back as `undefined`.
   */
  lemma SalaryRoundTrip(n: int)
    ensures n != 0 ==> SalaryInput(SalaryDisplay(Number(n))) == Number(n)
    ensures n == 0 ==> SalaryInput(SalaryDisplay(Number(n))) == Undefined
  {
    if n != 0 {
      ParseIntString(n);
      assert IntString(n) != "" by {
        assert ParseInt("") == None by {
          assert TrimStart("") == "";
          assert UnsignedPart("") == "";
        }
      }
    }
  }

  /** `JSON.stringify` of a form value: `NaN` and `null` both become null. */
  function FieldJson(v: FieldValue): (j: Schemas.Json)
    requires v != Undefined
    ensures j.JNull? <==> v.NaN? || v.Null?
    ensures v.Text? ==> j == Schemas.JString(v.s)
    ensures v.Number? ==> j == Schemas.JNumber(v.n)
    ensures !j.JBool?
  {
    match v
    case Text(s) => Schemas.JString(s)
    case Number(n) => Schemas.JNumber(n)
    case _ => Schemas.JNull
  }

  /** `JSON.stringify(formData)`: a field holding `undefined` is left out of the object. */
  function Stringify(form: FormData): (body: Schemas.Body)
    ensures forall k :: k in body <==> k in form && form[k] != Undefined
    ensures forall k :: k in body ==> body[k] == FieldJson(form[k])
  {
    map k | k in form && form[k] != Undefined :: FieldJson(form[k])
  }

  /**
   * What the server makes of the minimum salary the form sends: left out
   * or `undefined`, the stored salary stays; a number is stored; `NaN` or
   * `null` clears it.
   */
  lemma SentSalaryMin(form: FormData, job: Models.Job)
    requires Schemas.ParseJobUpdate(Stringify(form)).Ok?
    ensures var stored := JobService.ApplyJobUpdate(job, Schemas.ParseJobUpdate(Stringify(form)).value).salaryMin;
      && ("salary_min" !in form || form["salary_min"] == Undefined ==> stored == job.salaryMin)
      && ("salary_min" in form && form["salary_min"].Number? ==> stored == Some(form["salary_min"].n))
      && ("salary_min" in form && (form["salary_min"].NaN? || form["salary_min"].Null?) ==> stored == None)
  {
    var body := Stringify(form);
    if "salary_min" in form && form["salary_min"] != Undefined {
      assert body["salary_min"] == FieldJson(form["salary_min"]);
    }
  }

  /** The same for the maximum salary. */
  lemma SentSalaryMax(form: FormData, job: Models.Job)
    requires Schemas.ParseJobUpdate(Stringify(form)).Ok?
    ensures var stored := JobService.ApplyJobUpdate(job, Schemas.ParseJobUpdate(Stringify(form)).value).salaryMax;
      && ("salary_max" !in form || form["salary_max"] == Undefined ==> stored == job.salaryMax)
      && ("salary_max" in form && form["salary_max"].Number? ==> stored == Some(form["salary_max"].n))
      && ("salary_max" in form && (form["salary_max"].NaN? || form["salary_max"].Null?) ==> stored == None)
  {
    var body := Stringify(form);
    if "salary_max" in form && form["salary_max"] != Undefined {
      assert body["salary_max"] == FieldJson(form["salary_max"]);
    }
  }

  /**
   * As written: emptying a salary box stores `undefined`, which the request
   * body leaves out, so the server keeps the salary the posting had.
   */
  lemma EmptiedSalaryKept(form: FormData, field: string, job: Models.Job)
    requires field == "salary_min" || field == "salary_max"
    requires Schemas.ParseJobUpdate(Stringify(HandleChange(form, field, SalaryInput("")))).Ok?
    ensures var u := Schemas.ParseJobUpdate(Stringify(HandleChange(form, field, SalaryInput("")))).value;
      && (field == "salary_min" ==> JobService.ApplyJobUpdate(job, u).salaryMin == job.salaryMin)
      && (field == "salary_max" ==> JobService.ApplyJobUpdate(job, u).salaryMax == job.salaryMax)
  {
    var f := HandleChange(form, field, SalaryInput(""));
    if field == "salary_min" {
      SentSalaryMin(f, job);
    } else {
      SentSalaryMax(f, job);
    }
  }

  /**
   * A salary input that stores `null` for an emptied box, so that emptying
   * the box removes the salary.
   */
  function ClearableSalaryInput(text: string): (v: FieldValue)
    ensures text == "" ==> v == Null
    ensures text != "" ==> v == SalaryInput(text)
  {
    if text == "" then Null else SalaryInput(text)
  }

  /** With the clearable input, emptying a salary box clears the stored salary. */
  lemma EmptiedSalaryCleared(form: FormData, field: string, job: Models.Job)
    requires field == "salary_min" || field == "salary_max"
    requires Schemas.ParseJobUpdate(Stringify(HandleChange(form, field, ClearableSalaryInput("")))).Ok?
    ensures var u := Schemas.ParseJobUpdate(Stringify(HandleChange(form, field, ClearableSalaryInput("")))).value;
      && (field == "salary_min" ==> JobService.ApplyJobUpdate(job, u).salaryMin == None)
      && (field == "salary_max" ==> JobService.ApplyJobUpdate(job, u).salaryMax == None)
  {
    var f := HandleChange(form, field, ClearableSalaryInput(""));
    if field == "salary_min" {
      SentSalaryMin(f, job);
    } else {
      SentSalaryMax(f, job);
    }
  }

  /** The option lists: five employment types and three statuses, each listed once, "active" among them. */
  lemma OptionLists()
    ensures |EMPLOYMENT_TYPES| == 5 && |STATUS_TYPES| == 3
    ensures forall i, j :: 0 <= i < j < |EMPLOYMENT_TYPES| ==> EMPLOYMENT_TYPES[i] != EMPLOYMENT_TYPES[j]
    ensures forall i, j :: 0 <= i < j < |STATUS_TYPES| ==> STATUS_TYPES[i] != STATUS_TYPES[j]
    ensures "active" in STATUS_TYPES
  {
    assert STATUS_TYPES[0] == "active";
  }

  /** The label of an option: its first character upper-cased. */
  function OptionLabels(options: seq<string>): (labels: seq<string>)
    ensures |labels| == |options|
    ensures forall i :: 0 <= i < |options| ==> labels[i] == Capitalize(options[i])
  {
    seq(|options|, i requires 0 <= i < |options| => Capitalize(options[i]))
  }

  /** Distinct options starting with a lower-case letter get distinct labels. */
  lemma LabelsDistinct(options: seq<string>)
    requires forall i :: 0 <= i < |options| ==> options[i] != [] && 'a' <= options[i][0] <= 'z'
    requires forall i, j :: 0 <= i < j < |options| ==> options[i] != options[j]
    ensures forall i, j :: 0 <= i < j < |options| ==> OptionLabels(options)[i] != OptionLabels(options)[j]
  {
    var labels := OptionLabels(options);
    forall i, j | 0 <= i < j < |options|
      ensures labels[i] != labels[j]
    {
      assert options[i] == [options[i][0]] + options[i][1..];
      assert options[j] == [options[j][0]] + options[j][1..];
    }
  }

  class EditJobPage {
    var formData: FormData
    var isLoading: bool
    var isSaving: bool
    var navigatedTo: Option<string>

    constructor ()
      ensures formData == EMPTY_FORM && isLoading && !isSaving && navigatedTo.None?
    {
      formData := EMPTY_FORM;
      isLoading := true;
      isSaving := false;
      navigatedTo := None;
    }

    /**
     * The fetch effect: it runs only with both a token and an id. The
     * fetched posting becomes the form data; a failed fetch sends the
     * employer back to their postings; the loader comes down either way.
     */
    method FetchJob(token: Option<string>, id: Option<string>, fetched: Option<FormData>)
      returns (requested: bool)
      modifies this
      ensures requested <==> Truthy(token) && Truthy(id)
      ensures !requested ==> formData == old(formData) && isLoading == old(isLoading) && navigatedTo == old(navigatedTo)
      ensures requested && fetched.Some? ==> formData == fetched.value && navigatedTo == old(navigatedTo)
      ensures requested && fetched.None? ==> formData == old(formData) && navigatedTo == Some(EMPLOYER_JOBS_PATH)
      ensures requested ==> !isLoading
      ensures isSaving == old(isSaving)
    {
      requested := Truthy(token) && Truthy(id);
      if requested {
        if fetched.Some? {
          formData := fetched.value;
        } else {
          navigatedTo := Some(EMPLOYER_JOBS_PATH);
        }
        isLoading := false;
      }
    }

    method Change(field: string, value: FieldValue)
      modifies this
      ensures formData == HandleChange(old(formData), field, value)
      ensures isLoading == old(isLoading) && isSaving == old(isSaving) && navigatedTo == old(navigatedTo)
    {
      formData := HandleChange(formData, field, value);
    }

    /**
     * `handleSubmit`: the form data is sent as `JSON.stringify` writes it;
     * a saved posting leads to its page, a refused one leaves the page
     * where it is; saving ends either way.
     */
    method HandleSubmit(id: string, saved: bool) returns (sent: Schemas.Body)
      modifies this
      ensures sent == Stringify(old(formData)) && formData == old(formData)
      ensures saved ==> navigatedTo == Some(EMPLOYER_JOBS_PATH + "/" + id)
      ensures !saved ==> navigatedTo == old(navigatedTo)
      ensures !isSaving && isLoading == old(isLoading)
    {
      isSaving := true;
      sent := Stringify(formData);
      if saved {
        navigatedTo := Some(EMPLOYER_JOBS_PATH + "/" + id);
      }
      isSaving := false;
    }
  }
}
