/** `DataValidation` (src/datascience/components/data_validation.py): the
    required-column presence check. */
module DataValidation {
  import opened Wrappers
  import opened Seqs
  import opened StringOrder

  /** The schema file: an optional target name and the required column names
      (an absent `required` key is the empty list). */
  datatype Schema = Schema(target: Option<string>, required: seq<string>)

  /** A validator as `__init__` leaves it: the target and the required names,
      the target last. Nothing changes it afterwards. */
  datatype Validator = Validator(target: string, required: seq<string>)

  /** `self.required` as the Python set. */
  function Required(v: Validator): set<string> {
    ToSet(v.required)
  }

  /** `__init__`: the schema's target if it names one, else the configured
      target; the required set is the schema's list united with the target. */
  function NewValidator(schema: Schema, configTarget: string): (v: Validator)
    ensures schema.target.Some? ==> v.target == schema.target.value
    ensures schema.target.None? ==> v.target == configTarget
    ensures v.target in Required(v)
    ensures Required(v) == ToSet(schema.required) + {v.target}
  {
    var target := schema.target.GetOr(configTarget);
    Validator(target, schema.required + [target])
  }

  /** `check_required`: True when every required name is a column of the
      frame; otherwise the error carries the missing names, sorted, each once. */
  function CheckRequired(v: Validator, columns: seq<string>): (r: Result<bool, seq<string>>)
    ensures r.Success? <==> Required(v) <= ToSet(columns)
    ensures r.Success? ==> r.value
    ensures r.Failure? ==> StrictlySorted(r.error)
    ensures r.Failure? ==> ToSet(r.error) == Required(v) - ToSet(columns)
  {
    var missing := SortedSet(Filter(v.required, c => c !in columns));
    if missing == [] then Success(true) else Failure(missing)
  }

  /** However the schema reads, a frame without the target column fails the
      check and the target is named among the missing columns. */
  lemma TargetAlwaysChecked(schema: Schema, configTarget: string, columns: seq<string>)
    requires NewValidator(schema, configTarget).target !in columns
    ensures CheckRequired(NewValidator(schema, configTarget), columns).Failure?
    ensures NewValidator(schema, configTarget).target in CheckRequired(NewValidator(schema, configTarget), columns).error
  {
    var v := NewValidator(schema, configTarget);
    assert v.target in Required(v) - ToSet(columns);
  }
}
