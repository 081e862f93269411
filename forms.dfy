/**
 * The per-field error state a form screen keeps. `setErrors(newErrors)`
 * stores the validator's result; an edit runs
 * `if (errors.f) setErrors({ ...errors, f: null })`, which keeps the key and
 * sets its message to `null` (`None` here).
 */
module Forms {
  import opened Wrappers

  /** A JavaScript value of an error slot is truthy: present, not null, not "". */
  predicate IsShown<F>(errors: map<F, Option<string>>, f: F) {
    f in errors && errors[f].Some? && errors[f].value != ""
  }

  /**
   * The state `setErrors(newErrors)` stores: the screen then shows exactly
   * the fields the validator reported with a non-empty message.
   */
  function Shown<F>(newErrors: map<F, string>): (errors: map<F, Option<string>>)
    ensures errors.Keys == newErrors.Keys
    ensures forall f | f in newErrors :: errors[f] == Some(newErrors[f])
    ensures forall f | f in newErrors :: IsShown(errors, f) <==> newErrors[f] != ""
  {
    map f | f in newErrors :: Some(newErrors[f])
  }

  /**
   * The error state after editing field `f`: that entry, when shown, becomes
   * null; every other entry, and the set of keys, stay as they were.
   */
  function ClearError<F>(errors: map<F, Option<string>>, f: F): (r: map<F, Option<string>>)
    ensures r.Keys == errors.Keys
    ensures !IsShown(r, f)
    ensures forall g | g in errors && g != f :: r[g] == errors[g]
    ensures !IsShown(errors, f) ==> r == errors
  {
    if IsShown(errors, f) then errors[f := None] else errors
  }
}
