/**
 * The course details form component. Its record starts from fixed defaults,
 * is replaced by a normalised copy of `initialData` when one is given, takes
 * every input change as the raw input text under the input's name, and is
 * handed to `onSubmit` unchanged.
 */
module CourseForm {
  import opened Common
  import ShellMarketplace

  /** A form value: the initial numbers, or the text an input produced. */
  datatype Value = Text(s: string) | Number(n: int)

  predicate TruthyValue(v: Value) {
    match v
      case Text(s) => s != ""
      case Number(n) => n != 0
  }

  type Record = map<string, Value>

  const Keys: seq<string> := ["title", "description", "category_id", "level", "price", "thumbnail_url"]

  const Defaults: Record := map[
    "title" := Text(""), "description" := Text(""), "category_id" := Text(""),
    "level" := Text("beginner"), "price" := Number(0), "thumbnail_url" := Text("")]

  /** The level options the form offers. */
  const LevelOptions: seq<string> := ["beginner", "intermediate", "expert"]

  /**
   * None of the form's level values is one the marketplace's level filter
   * offers (which are capitalised, and say "Advanced" rather than "expert"), so
   * a course saved with this form is listed only under "All".
   */
  lemma LevelsMissMarketplaceFilter(level: string)
    requires level in LevelOptions
    ensures forall option :: option in ShellMarketplace.LevelOptions && option != ShellMarketplace.AllOption ==> level != option
  {
  }

  /** `initialData.k || default`, where a missing key is `undefined`. */
  function Pick(initial: Record, k: string): Value
    requires k in Defaults
  {
    if k in initial && TruthyValue(initial[k]) then initial[k] else Defaults[k]
  }

  /** The effect on `initialData`: the six fields, each the given value when truthy, else its default. */
  function Normalise(initial: Record): (r: Record)
    ensures r.Keys == Defaults.Keys
    ensures forall k :: k in Defaults ==> r[k] == Pick(initial, k)
  {
    map k | k in Defaults :: Pick(initial, k)
  }

  /** Other keys of `initialData` are dropped, a truthy value is kept, any other falls back to the default. */
  lemma NormaliseSpec(initial: Record)
    ensures forall k :: k in initial && k !in Defaults ==> k !in Normalise(initial)
    ensures forall k :: k in Defaults && k in initial && TruthyValue(initial[k]) ==> Normalise(initial)[k] == initial[k]
    ensures forall k :: k in Defaults && (k !in initial || !TruthyValue(initial[k])) ==> Normalise(initial)[k] == Defaults[k]
    ensures Normalise(map[]) == Defaults
  {
  }

  /** Normalising twice changes nothing. */
  lemma NormaliseIdempotent(initial: Record)
    ensures Normalise(Normalise(initial)) == Normalise(initial)
  {
    var once := Normalise(initial);
    forall k | k in Defaults
      ensures Pick(once, k) == once[k]
    {
    }
  }

  /** `handleChange`: the input's text under its name; every other entry stays. */
  function Change(r: Record, name: string, value: string): (r': Record)
    ensures name in r' && r'[name] == Text(value)
    ensures r'.Keys == r.Keys + {name}
    ensures forall k :: k in r && k != name ==> r'[k] == r[k]
  {
    r[name := Text(value)]
  }

  /** After a change to the price input the price is text, not a number. */
  lemma PriceBecomesText(r: Record, value: string)
    ensures Change(r, "price", value)["price"].Text?
  {
  }

  class Form {
    var formData: Record

    constructor ()
      ensures formData == Defaults
    {
      formData := Defaults;
    }

    /** The `initialData` effect; `None` is a missing `initialData`, which leaves the record. */
    method OnInitialData(initial: Option<Record>)
      modifies this
      ensures formData == if initial.Some? then Normalise(initial.value) else old(formData)
    {
      if initial.Some? {
        formData := Normalise(initial.value);
      }
    }

    method HandleChange(name: string, value: string)
      modifies this
      ensures formData == Change(old(formData), name, value)
    {
      formData := Change(formData, name, value);
    }

    /** `handleSubmit` passes the record as it stands. */
    method HandleSubmit() returns (submitted: Record)
      ensures submitted == formData
    {
      submitted := formData;
    }
  }
}
