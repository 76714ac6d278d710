/** The one piece of PHP semantics the guards of the core depend on. */
module Php {

  /** `empty($s)` for a PHP string: true for "" and also for "0". */
  predicate IsEmpty(s: string) {
    s == "" || s == "0"
  }
}
