/** The contact form object both components keep in state:
    `{ name, age, state, coverage, health, email }`, every field a string. */
module ContactForm {

  /** The field names of the form object as the components create it. */
  const FormFields: set<string> := {"name", "age", "state", "coverage", "health", "email"}

  /** The form as created at mount and after a reset: every field empty. */
  function EmptyForm(): (f: map<string, string>)
    ensures f.Keys == FormFields
    ensures forall k | k in f :: f[k] == ""
  {
    map k | k in FormFields :: ""
  }
}
